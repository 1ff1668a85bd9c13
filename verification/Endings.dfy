/** How a lockstep run can end: which pairs of reasons the two programs report. */
module Endings {
  import opened Basics
  import opened Episode
  import opened Payload
  import opened Headless
  import opened Session
  import opened Simulator
  import opened Lockstep
  import opened Refinement
  import opened HistoryRuns
  import EpisodeRuns
  import H = History
  import Lossless
  import Rng

  /** The one start that ends badly: a single tick, whose delivered sample is already out of range. The simulator
      reports its horizon, having never looked at the initial truth; the vehicle reports divergence. */
  predicate StartsLost(w: World) {
    && w.sc.ticks == 1 && IsFresh(Observed(w.sc, w.At(0))) && AbsExceeds(w.sc.initial.theta, LOSS_OF_CONTROL)
  }

  predicate KnownPending(p: Option<u32>) { p.None? || p == Some(SIM_LOC_ANGLE) || p == Some(SIM_LOC_NONFINITE) }

  lemma {:induction false} PendingKnown(w: World, k: nat)
    ensures KnownPending(w.At(k).pending)
    decreases k
  {
    hide RunFor, Tick, InputsNow, OutputNow, IsFinite, AbsExceeds, Released, ActuatorStep, Observed, UpDrop, DownDrop,
         NextSeq, Rng.DrawDrop;
    if k == 0 {
      StartPending(w);
    } else {
      PendingKnown(w, k - 1);
      if Live(w, k - 1) {
        RunForNext(w.sc, w.seed, w.delayTicks, k - 1);
        TickFields(w.sc, w.At(k - 1));
      } else {
        EndedStays(w.sc, w.seed, w.delayTicks, k - 1, k);
      }
    }
  }

  lemma StartPending(w: World)
    ensures w.At(0).pending.None? && w.At(0).truth == w.sc.initial
  {}

  /** A sample in the last tick is out of range only in the one bad start. */
  lemma HorizonSample(w: World, k: nat)
    requires Loaded(w.sc) && Live(w, k) && InputsNow(w.sc, w.At(k)).simReason == Some(SIM_HORIZON)
    ensures var i := InputsNow(w.sc, w.At(k));
            i.isFresh && PolicyOf(w.sc).diverged(i.held.value.theta) <==> StartsLost(w)
  {
    hide RunFor, Loaded, UpDrop, IsFinite, AbsExceeds, IsFresh;
    LiveTick(w, k);
    PendingKnown(w, k);
    StartPending(w);
    ReferenceConsistent(w, k);
    FreshTheta(w.sc, w.At(k));
  }

  lemma FreshTheta(sc: Scenario, r: Run)
    ensures IsFresh(Observed(sc, r)) ==> Observed(sc, r).theta == r.truth.theta
  {
    hide UpDrop, IsFinite;
  }

  predicate PairKnown(simReason: u32, reason: Reason, staleness: nat) {
    match simReason
    case 1 => reason == STABILIZED || reason == NOT_SETTLED || (reason == SENSOR_LOST && staleness >= 21)
    case 2 => reason == DIVERGED
    case 3 => reason == DIVERGED
    case 4 => reason == DIVERGED || reason == GROUND_ABORT || reason == SENSOR_LOST
    case _ => false
  }

  lemma ReasonFor(p: Policy<word>, s: State<word>, i: Inputs<word>)
    requires WellFormed(s) && Proper(i) && s.mode != TERMINATED && i.stopReason.None? && !i.horizonReached
    requires i.simReason.Some? ==> KnownSimReason(i.simReason.value)
    ensures var t := Step(p, s, i).state.terminal;
            && (t.Some? ==> t.value.tick == i.tick)
            && (i.simReason.Some? ==> t.Some?)
            && (t.Some? ==> (PairKnown(if i.simReason.Some? then i.simReason.value else VEHICLE_TERMINAL,
                                       t.value.reason, i.staleness)
                             <==> !(i.simReason == Some(SIM_HORIZON) && i.isFresh && p.diverged(i.held.value.theta))))
  {
    hide Step, SettleCount;
    EpisodeRuns.StepTerminates(p, s, i);
    StepKeeps(p, s, i);
  }

  /** How the reference run ends. */
  lemma EndingPair(w: World, k: nat)
    requires Loaded(w.sc) && Live(w, k) && !Live(w, k + 1)
    ensures var last, fin, i := w.At(k + 1).episode, w.At(k + 1).finalReason.value, InputsNow(w.sc, w.At(k));
            && last.terminal.Some? && last.terminal.value.tick == k && last.mode == TERMINATED
            && (1 <= fin <= 3 ==> i.simReason == Some(fin)) && (fin == VEHICLE_TERMINAL ==> i.simReason.None?)
            && (PairKnown(fin, last.terminal.value.reason, i.staleness) <==> !StartsLost(w))
  {
    hide RunFor, Loaded, Tick, Step, StartsLost, Observed, PairKnown, IsFinite, AbsExceeds;
    var r := w.At(k);
    LiveTick(w, k);
    RunForNext(w.sc, w.seed, w.delayTicks, k);
    TickFields(w.sc, r);
    PendingKnown(w, k);
    ReasonFor(PolicyOf(w.sc), r.episode, InputsNow(w.sc, r));
    StepKeeps(PolicyOf(w.sc), r.episode, InputsNow(w.sc, r));
    if InputsNow(w.sc, r).simReason == Some(SIM_HORIZON) {
      HorizonSample(w, k);
    } else {
      NotLost(w, k);
    }
  }

  /** The bad start ends on its horizon. */
  lemma NotLost(w: World, k: nat)
    requires Loaded(w.sc) && Live(w, k) && InputsNow(w.sc, w.At(k)).simReason != Some(SIM_HORIZON)
    ensures !StartsLost(w)
  {
    hide RunFor, Loaded, Observed, IsFinite, AbsExceeds, IsFresh;
    LiveTick(w, k);
    StartPending(w);
  }

  function ReasonTick(v: View): nat {
    if v.fault.Some? then v.fault.value.tick else if v.state.terminal.Some? then v.state.terminal.value.tick else 0
  }

  /** What the two reports of a finished run say. */
  function EndingOf(y: System): H.Ending {
    H.Ending(y.sim.finalReason, CurrentReason(y.veh).Code(), ReasonTick(y.veh), y.veh.simSeen, y.sim.vehicleSeen)
  }

  lemma PairByCode(e: H.Ending, reason: Reason, last: Control)
    requires e.reason == reason.Code()
    ensures H.Paired(e, last) <==> PairKnown(e.simReason, reason, last.staleness)
  {}

  lemma LastRecord(w: World, c: Control, k: nat)
    requires Loaded(w.sc) && Live(w, k) && IsRecord(w, c, k)
    ensures c.tick == k && c.staleness == InputsNow(w.sc, w.At(k)).staleness
    ensures c.state == w.At(k + 1).episode.mode.Code() && c.reason == ReasonOf(w.At(k + 1).episode).Code()
  {
    hide RunFor, Loaded, InputsNow, OutputNow, SensorAt, Flag, Rung;
    SensorTick(w, k);
    NextRun(w, k);
    InputsBounded(w, k);
    RecordFlags(SensorAt(w, k), InputsNow(w.sc, w.At(k)), OutputNow(w.sc, w.At(k)), Flag(c.flags, 2));
    hide WithTransmitted;
  }

  lemma ErrorsOf(e: H.Ending, controls: seq<Control>, reason: Reason)
    requires controls != [] && e.reason == reason.Code()
    requires controls[|controls| - 1].state == 3 && controls[|controls| - 1].reason == e.reason
    requires e.reasonTick == controls[|controls| - 1].tick && e.vehicleSeen.Some? && e.vehicleSeen.value == e.reason
    requires 1 <= e.simReason <= 3 ==> e.simSeen == Some(e.simReason)
    requires e.simReason == 4 ==> e.simSeen.None?
    ensures H.EndingErrors(e, controls)
         == if PairKnown(e.simReason, reason, controls[|controls| - 1].staleness) then []
            else ["unexpected terminal pairing"]
  {
    hide H.Paired, PairKnown;
    PairByCode(e, reason, controls[|controls| - 1]);
  }

  /** A run that ends with code 0 and no ring drop ends in a pair of reasons the audit expects, both programs and
      the last record agreeing on them, exactly unless it started lost. */
  lemma CompletedRunEnds(w: World, actions: seq<Action>)
    requires Loaded(w.sc) && Possible(w, actions) && Completed(Reached(w, actions))
    ensures H.EndingErrors(EndingOf(Reached(w, actions)), Pushed(w, actions))
         == if StartsLost(w) then ["unexpected terminal pairing"] else []
  {
    hide RunFor, Loaded, VehicleAt, Reached, Pushed, OnlyFrames, OnlyReplies, StartsLost, PairKnown, IsRecord,
         H.EndingErrors, InputsNow;
    var t, a := AlwaysCoupled(w, actions);
    var y, log := Reached(w, actions), Pushed(w, actions);
    AlwaysLogged(w, actions);
    CompletedLengths(w, y, t, a, log);
    LogLength(w, log, t);
    var k := t - 1;
    assert IsRecord(w, log[k], k);
    RecordLive(w, log[k], k);
    EndedDead(w, y.sim, t);
    EndingPair(w, k);
    LastRecord(w, log[k], k);
    EndState(w, y.veh, log, t);
    ErrorsOf(EndingOf(y), log, w.At(t).episode.terminal.value.reason);
  }

  lemma RecordLive(w: World, c: Control, k: nat)
    requires Loaded(w.sc) && IsRecord(w, c, k)
    ensures Live(w, k)
  {}

  lemma EndState(w: World, v: View, log: seq<Control>, a: nat)
    requires Loaded(w.sc) && VehicleAt(w, v, a) && VehicleLogged(w, v, log, a) && w.At(a).episode.terminal.Some?
    ensures v.state == w.At(a).episode && v.fault.None?
    ensures CurrentReason(v) == w.At(a).episode.terminal.value.reason
    ensures ReasonTick(v) == w.At(a).episode.terminal.value.tick
  {
    hide RunFor, Loaded, SensorAt, ReplyAt, RecordsMatch, SensorsTo, H.Tallied, ReasonGiven, H.Unsent;
  }

  // The bad start, exhibited

  function NeverDropped(tick: nat): Option<bool> { Some(false) }

  function NoCommand(tick: nat): Option<nat> { None }

  function Still(tick: nat, truth: Truth, applied: word): Truth { truth }

  function Silent(pid: Pid<word>, theta: word, omega: word): (word, Pid<word>) { (0, pid) }

  /** One tick from half a radian, over links that drop nothing. */
  const HALF_RADIAN := Scenario(1, Truth(0x3fe0_0000_0000_0000, 0), 0.0, 0.0, true, NeverDropped, NeverDropped,
                                NoCommand, Still, Silent)

  lemma HalfRadianLost(w: World)
    requires w.sc == HALF_RADIAN
    ensures Loaded(w.sc) && StartsLost(w)
  {
    hide Rng.DrawDrop, Rng.StreamState;
    StartPending(w);
    FirstTick(w);
  }

  lemma FirstTick(w: World)
    ensures w.At(0).tick == 0 && Live(w, 0) && w.At(0).episode == Initial(PolicyOf(w.sc), w.sc.autoArm)
  {}

  /** A one-tick run asks only for zero. */
  lemma OneTickDelivers(w: World)
    requires w.sc.ticks == 1 && w.dropActuator.None? && Loaded(w.sc)
    ensures Lossless.Deliverable(w)
  {
    hide RunFor, IsFinite, Loaded, OutputNow;
    forall k: nat | Live(w, k)
      ensures IsFinite(OutputNow(w.sc, w.At(k)).delta)
    {
      OneTickFinite(w, k);
    }
  }

  lemma OneTickFinite(w: World, k: nat)
    requires w.sc.ticks == 1 && Loaded(w.sc) && Live(w, k)
    ensures IsFinite(OutputNow(w.sc, w.At(k)).delta)
  {
    hide RunFor, IsFinite, Loaded, OutputNow;
    LiveTick(w, k);
    StartPending(w);
    LastReplyFinite(w.sc, w.At(k));
  }

  /** The last tick always ends the episode, on a zero request. */
  lemma LastReplyFinite(sc: Scenario, r: Run)
    requires HeldInPast(r) && r.tick + 1 == sc.ticks && r.pending.None?
    ensures r.episode.mode != TERMINATED ==> OutputNow(sc, r).delta == 0 && IsFinite(OutputNow(sc, r).delta)
  {
    hide Observed, IsFresh, HeldNow, CommandNow, SettleCount, AbsExceeds;
  }

  /** That start does end in the pair the audit does not expect, at the end of a run that delivers everything. */
  lemma LostStartIsReported(seed: u64, delayTicks: nat) returns (w: World, actions: seq<Action>)
    ensures w == World(HALF_RADIAN, seed, delayTicks, None) && Loaded(w.sc) && StartsLost(w)
    ensures Possible(w, actions) && Completed(Reached(w, actions))
    ensures H.EndingErrors(EndingOf(Reached(w, actions)), Pushed(w, actions)) == ["unexpected terminal pairing"]
  {
    hide RunFor, Loaded, Reached, Possible, Pushed, StartsLost, H.EndingErrors, Lossless.Deliverable, ReferenceRows,
         Completed;
    w := World(HALF_RADIAN, seed, delayTicks, None);
    HalfRadianLost(w);
    OneTickDelivers(w);
    actions := Lossless.DeliveryCompletes(w);
    CompletedRunEnds(w, actions);
  }
}
