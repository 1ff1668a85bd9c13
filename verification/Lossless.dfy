/** When a lockstep run completes: what a network must let through, and what it may lose. */
module Lossless {
  import opened Basics
  import opened Episode
  import opened Payload
  import opened Headless
  import opened Session
  import opened Simulator
  import opened Lockstep
  import opened Refinement

  /** Every reply of the reference run carries a finite command, and no receipt is dropped by the test hook. */
  ghost predicate Deliverable(w: World) {
    w.dropActuator.None? && forall k: nat :: Live(w, k) ==> IsFinite(OutputNow(w.sc, w.At(k)).delta)
  }

  /** The vehicle waits for tick `k`, or has answered it already and waits for the next one or a repetition. */
  predicate VehicleReady(w: World, y: System, k: nat) {
    && y.serving && y.veh.fault.None? && y.veh.events.ringDrops == 0
    && (VehicleAt(w, y.veh, k) || (VehicleAt(w, y.veh, k + 1) && Live(w, k + 1)))
  }

  /** The next thing to happen is an attempt to send the frame of tick `k`. */
  predicate Trying(w: World, y: System, k: nat, attempt: nat) {
    && Live(w, k) && SimulatorAt(w, y.sim, k) && y.sim.phase == Sending(attempt) && attempt < ATTEMPTS
    && VehicleReady(w, y, k)
  }

  /** Tick `k` is about to start, or the run is over. */
  predicate Poised(w: World, y: System, k: nat) {
    && SimulatorAt(w, y.sim, k) && y.veh.events.ringDrops == 0
    && (if Live(w, k) then Trying(w, y, k, 0) else y.sim.phase == Ended(0))
  }

  lemma StartPoised(w: World)
    ensures Poised(w, StartOf(w), 0)
  {
    hide SimulatorAt, VehicleAt;
    SimulatorStarts(w);
    VehicleStarts(w);
    StartLive(w);
  }

  lemma StartLive(w: World)
    ensures Live(w, 0)
  {}

  lemma FrameNowAt(w: World, s: Sim, k: nat)
    requires SimulatorAt(w, s, k) && s.phase != Ended(0)
    ensures s.now.frame == FrameAt(w, k)
  {
    hide RunFor, FrameNow, CoreOf;
  }

  // One action at a time

  /** The frame goes out, or the send fails. */
  lemma SendStep(w: World, y: System, k: nat, attempt: nat, ok: bool)
    requires Sane(y.veh) && SimulatorAt(w, y.sim, k) && y.sim.phase == Sending(attempt)
    ensures CanHappen(y, Call(Sent(ok)))
    ensures var z := Act(w, y, Call(Sent(ok)));
            && SimulatorAt(w, z.sim, k) && z.sim.phase == Listening(attempt) && (ok ==> FrameAt(w, k) in z.upNet)
            && z.veh == y.veh && z.serving == y.serving && z.downNet == y.downNet
  {
    hide RunFor, SimulatorAt, FrameAt;
    FrameNowAt(w, y.sim, k);
    SameModelStays(w, y.sim, AfterSend(y.sim, ok), k);
  }

  /** Nothing comes back in time. */
  lemma SilenceStep(w: World, y: System, k: nat, attempt: nat)
    requires Sane(y.veh) && SimulatorAt(w, y.sim, k) && y.sim.phase == Listening(attempt) && attempt + 1 < ATTEMPTS
    ensures CanHappen(y, Call(Silence))
    ensures var z := Act(w, y, Call(Silence));
            && SimulatorAt(w, z.sim, k) && z.sim.phase == Sending(attempt + 1) && z.veh == y.veh
            && z.serving == y.serving
  {
    hide RunFor, SimulatorAt;
    SameModelStays(w, y.sim, y.sim.(phase := Sending(attempt + 1)), k);
  }

  lemma NoReason(w: World, v: View, k: nat)
    requires Loaded(w.sc) && VehicleAt(w, v, k) && v.fault.None? && Live(w, k)
    ensures CurrentReason(v) == NONE
  {
    hide RunFor, SensorAt, ReplyAt, Loaded;
    LiveTick(w, k);
  }

  /** A pass whose record the ring takes adds no drop. */
  lemma NoDrop(p: Policy<word>, v: View, packet: Datagram, sent: bool)
    requires Sane(v)
    ensures Handle(p, v, packet, sent, true).view.events.ringDrops == v.events.ringDrops
  {
    hide Decode, DecodeSensor, NewCycle, SendBegun, SendFinished;
    var d := Decode(packet);
    if d.Good? {
      CycleDrops(p, v.(up := CountReceived(v.up)), d.payload);
    }
    SendDrops(Received(p, v, packet).0, Received(p, v, packet).1 == New, sent);
  }

  lemma CycleDrops(p: Policy<word>, v: View, payload: seq<byte>)
    requires |payload| == 44 && Sane(v)
    ensures NewCycle(p, v, payload).events.ringDrops == v.events.ringDrops
  {
    hide NewCycle, DecodeSensor, Step, RecordOf, ReplyOf, CountSample, SampleInputs, Flag;
    NewCycleFields(p, v, payload);
  }

  lemma SendDrops(v: View, original: bool, sent: bool)
    ensures SendFinished(SendBegun(v, original), original, sent).events == v.events
  {}

  lemma AnswersFirst(w: World, y: System, k: nat, sent: bool)
    requires Sane(y.veh) && Loaded(w.sc) && Live(w, k) && VehicleAt(w, y.veh, k) && y.veh.fault.None?
    ensures var r := Handle(PolicyOf(w.sc), y.veh, Datagram(FrameAt(w, k), false), sent, true);
            VehicleAt(w, r.view, k + 1) && r.view.fault.None? && r.replied == sent && (Live(w, k + 1) ==> !r.stopped)
  {
    hide RunFor, VehicleAt, FrameAt, ReplyAt, Received, SendBegun, SendFinished, RecordNoted, CurrentReason, PolicyOf,
         Loaded;
    VehicleAnswers(w, y.veh, k);
    var n := Received(PolicyOf(w.sc), y.veh, Datagram(FrameAt(w, k), false)).0;
    SendingKeeps(w, n, k + 1, true, sent, true);
    if Live(w, k + 1) {
      NoReason(w, Handle(PolicyOf(w.sc), y.veh, Datagram(FrameAt(w, k), false), sent, true).view, k + 1);
    }
  }

  lemma AnswersAgain(w: World, y: System, k: nat, sent: bool)
    requires Sane(y.veh) && Loaded(w.sc) && Live(w, k) && VehicleAt(w, y.veh, k + 1) && y.veh.fault.None?
    ensures var r := Handle(PolicyOf(w.sc), y.veh, Datagram(FrameAt(w, k), false), sent, true);
            VehicleAt(w, r.view, k + 1) && r.view.fault.None? && r.replied == sent && !r.stopped
  {
    hide RunFor, VehicleAt, FrameAt, ReplyAt, Received, SendBegun, SendFinished, RecordNoted, PolicyOf, Loaded;
    VehicleRepeats(w, y.veh, k + 1, k);
    SendingKeeps(w, Received(PolicyOf(w.sc), y.veh, Datagram(FrameAt(w, k), false)).0, k + 1, false, sent, true);
  }

  /** The vehicle answers the frame, from a new cycle or from its cache. */
  lemma ServeStep(w: World, y: System, k: nat, sent: bool)
    requires Sane(y.veh) && Loaded(w.sc) && Live(w, k) && VehicleReady(w, y, k) && FrameAt(w, k) in y.upNet
    ensures CanHappen(y, Serves(Datagram(FrameAt(w, k), false), sent, true))
    ensures var z := Act(w, y, Serves(Datagram(FrameAt(w, k), false), sent, true));
            && VehicleAt(w, z.veh, k + 1) && z.veh.fault.None? && z.veh.events.ringDrops == 0 && z.sim == y.sim
            && (Live(w, k + 1) ==> z.serving) && (sent ==> ReplyAt(w, k) in z.downNet)
  {
    hide RunFor, VehicleAt, FrameAt, ReplyAt, Handle, PolicyOf, Loaded;
    NoDrop(PolicyOf(w.sc), y.veh, Datagram(FrameAt(w, k), false), sent);
    if VehicleAt(w, y.veh, k) {
      AnswersFirst(w, y, k, sent);
    } else {
      AnswersAgain(w, y, k, sent);
    }
    CachedReply(w, Handle(PolicyOf(w.sc), y.veh, Datagram(FrameAt(w, k), false), sent, true).view, k + 1);
  }

  lemma FiniteReply(w: World, k: nat)
    requires Deliverable(w) && Live(w, k)
    ensures w.dropActuator.None? && IsFinite(OutputNow(w.sc, w.At(k)).delta)
  {
    hide RunFor, OutputNow, IsFinite;
  }

  /** The simulator accepts the answer. */
  lemma AcceptStep(w: World, y: System, k: nat)
    requires Loaded(w.sc) && Deliverable(w) && Live(w, k) && Sane(y.veh) && SimulatorAt(w, y.sim, k)
    requires y.sim.phase.Listening? && ReplyAt(w, k) in y.downNet
    ensures CanHappen(y, Call(Got(ReplyAt(w, k))))
    ensures var z := Act(w, y, Call(Got(ReplyAt(w, k))));
            && SimulatorAt(w, z.sim, k + 1) && z.veh == y.veh && z.serving == y.serving
            && z.sim.phase == if Live(w, k + 1) then Sending(0) else Ended(0)
  {
    hide RunFor, SimulatorAt, ReplyAt, ReplyIn, Accept, Count, IsFinite, Loaded, OutputNow, InputsNow, StatusAt,
         Deliverable;
    ReplyRead(w, k);
    SimulatorTick(w, y.sim, k);
    FiniteReply(w, k);
    var v := ReplyIn(ReplyAt(w, k)).value;
    SimulatorAccepts(w, y.sim, k, ReplyAt(w, k), v);
    AcceptPhase(w, y.sim, k, ReplyAt(w, k), v);
  }

  lemma AcceptPhase(w: World, s: Sim, k: nat, data: seq<byte>, v: Actuator)
    requires Loaded(w.sc) && SimulatorAt(w, s, k) && s.phase.Listening?
    requires v.delta == OutputNow(w.sc, w.At(k)).delta
    requires v.status % 256 == OutputNow(w.sc, w.At(k)).state.mode.Code()
    ensures Accept(w.sc, s, data, v).phase == if Live(w, k + 1) then Sending(0) else Ended(0)
  {
    hide RunFor, Close, Opened, OpeningOf, Loaded, OutputNow, Count, SimRows;
    ClosesLikeTick(w, k);
    if Live(w, k + 1) {
      LiveTick(w, k + 1);
    }
  }

  lemma ReachedNext(w: World, actions: seq<Action>, a: Action)
    ensures Reached(w, actions + [a]) == Act(w, Reached(w, actions), a)
    ensures Possible(w, actions) && CanHappen(Reached(w, actions), a) ==> Possible(w, actions + [a])
  {
    hide Act, CanHappen, StartOf;
    assert (actions + [a])[..|actions|] == actions;
  }

  // An attempt that fails, and one that does not

  /** How an attempt can fail: the send, the frame on its way, or the reply, sent or not. */
  datatype Try = Unsent | FrameLost | ReplyLost(sent: bool)

  function FailedAttempt(w: World, k: nat, t: Try): seq<Action> {
    match t
    case Unsent => [Call(Sent(false)), Call(Silence)]
    case FrameLost => [Call(Sent(true)), Call(Silence)]
    case ReplyLost(sent) => [Call(Sent(true)), Serves(Datagram(FrameAt(w, k), false), sent, true), Call(Silence)]
  }

  function GoodAttempt(w: World, k: nat): seq<Action> {
    [Call(Sent(true)), Serves(Datagram(FrameAt(w, k), false), true, true), Call(Got(ReplyAt(w, k)))]
  }

  lemma SilentAttempt(w: World, actions: seq<Action>, k: nat, attempt: nat, ok: bool)
    requires Possible(w, actions) && Trying(w, Reached(w, actions), k, attempt) && attempt + 1 < ATTEMPTS
    ensures var all := actions + [Call(Sent(ok)), Call(Silence)];
            Possible(w, all) && Trying(w, Reached(w, all), k, attempt + 1)
  {
    hide RunFor, SimulatorAt, VehicleAt, FrameAt, Reached, Possible, Act, CanHappen;
    SendStep(w, Reached(w, actions), k, attempt, ok);
    ReachedNext(w, actions, Call(Sent(ok)));
    SilenceStep(w, Reached(w, actions + [Call(Sent(ok))]), k, attempt);
    ReachedNext(w, actions + [Call(Sent(ok))], Call(Silence));
    assert actions + [Call(Sent(ok)), Call(Silence)] == actions + [Call(Sent(ok))] + [Call(Silence)];
  }

  lemma AnsweredAttempt(w: World, actions: seq<Action>, k: nat, attempt: nat, sent: bool)
    requires Loaded(w.sc) && Possible(w, actions) && Trying(w, Reached(w, actions), k, attempt)
    ensures var all := actions + [Call(Sent(true)), Serves(Datagram(FrameAt(w, k), false), sent, true)];
            && Possible(w, all) && SimulatorAt(w, Reached(w, all).sim, k)
            && Reached(w, all).sim.phase == Listening(attempt)
            && VehicleAt(w, Reached(w, all).veh, k + 1) && Reached(w, all).veh.fault.None?
            && Reached(w, all).veh.events.ringDrops == 0 && (Live(w, k + 1) ==> Reached(w, all).serving)
            && (sent ==> ReplyAt(w, k) in Reached(w, all).downNet)
  {
    hide RunFor, SimulatorAt, VehicleAt, FrameAt, ReplyAt, Reached, Possible, Act, CanHappen, Loaded;
    var a, b := Call(Sent(true)), Serves(Datagram(FrameAt(w, k), false), sent, true);
    SendStep(w, Reached(w, actions), k, attempt, true);
    ReachedNext(w, actions, a);
    ServeStep(w, Reached(w, actions + [a]), k, sent);
    ReachedNext(w, actions + [a], b);
    assert actions + [a, b] == actions + [a] + [b];
  }

  /** An attempt that fails leaves the next one to be made. */
  lemma AttemptFails(w: World, actions: seq<Action>, k: nat, attempt: nat, t: Try)
    requires Loaded(w.sc) && Possible(w, actions) && Trying(w, Reached(w, actions), k, attempt)
    requires attempt + 1 < ATTEMPTS
    requires t.ReplyLost? ==> Live(w, k + 1)
    ensures var all := actions + FailedAttempt(w, k, t);
            Possible(w, all) && Trying(w, Reached(w, all), k, attempt + 1)
  {
    hide RunFor, SimulatorAt, VehicleAt, FrameAt, ReplyAt, Reached, Possible, Act, CanHappen, Loaded;
    if t.ReplyLost? {
      var two := [Call(Sent(true)), Serves(Datagram(FrameAt(w, k), false), t.sent, true)];
      AnsweredAttempt(w, actions, k, attempt, t.sent);
      SilenceStep(w, Reached(w, actions + two), k, attempt);
      ReachedNext(w, actions + two, Call(Silence));
      assert actions + FailedAttempt(w, k, t) == actions + two + [Call(Silence)];
    } else {
      SilentAttempt(w, actions, k, attempt, t.FrameLost?);
    }
  }

  /** An attempt that gets through closes the tick. */
  lemma AttemptSucceeds(w: World, actions: seq<Action>, k: nat, attempt: nat)
    requires Loaded(w.sc) && Deliverable(w) && Possible(w, actions) && Trying(w, Reached(w, actions), k, attempt)
    ensures var all := actions + GoodAttempt(w, k); Possible(w, all) && Poised(w, Reached(w, all), k + 1)
  {
    hide RunFor, SimulatorAt, VehicleAt, FrameAt, ReplyAt, Reached, Possible, Act, CanHappen, Loaded, Deliverable;
    var two := [Call(Sent(true)), Serves(Datagram(FrameAt(w, k), false), true, true)];
    AnsweredAttempt(w, actions, k, attempt, true);
    AcceptStep(w, Reached(w, actions + two), k);
    ReachedNext(w, actions + two, Call(Got(ReplyAt(w, k))));
    assert actions + GoodAttempt(w, k) == actions + two + [Call(Got(ReplyAt(w, k)))];
  }

  // Whole runs

  /** What goes wrong in each tick before an attempt gets through. */
  type Plan = nat -> seq<Try>

  function Failures(w: World, k: nat, tries: seq<Try>): seq<Action>
    decreases |tries|
  {
    if tries == [] then []
    else Failures(w, k, tries[..|tries| - 1]) + FailedAttempt(w, k, tries[|tries| - 1])
  }

  predicate RepliesArrive(tries: seq<Try>) { forall i | 0 <= i < |tries| :: !tries[i].ReplyLost? }

  function NoFailures(k: nat): seq<Try> { [] }

  /** The run that goes wrong according to plan, up to tick `n`. */
  function Schedule(w: World, plan: Plan, n: nat): seq<Action> {
    if n == 0 then []
    else if !Live(w, n - 1) then Schedule(w, plan, n - 1)
    else Schedule(w, plan, n - 1) + Failures(w, n - 1, plan(n - 1)) + GoodAttempt(w, n - 1)
  }

  /** An attempt is left in every tick; and the reply to the last tick is not lost once the frame has arrived, since
      the vehicle leaves its loop in the pass that sends it. */
  ghost predicate Survivable(w: World, plan: Plan) {
    forall k: nat | Live(w, k) ::
      |plan(k)| < ATTEMPTS && (!Live(w, k + 1) ==> RepliesArrive(plan(k)))
  }

  lemma {:induction false} FailuresPossible(w: World, actions: seq<Action>, k: nat, tries: seq<Try>)
    requires Loaded(w.sc) && Possible(w, actions) && Trying(w, Reached(w, actions), k, 0) && |tries| < ATTEMPTS
    requires !Live(w, k + 1) ==> RepliesArrive(tries)
    ensures var all := actions + Failures(w, k, tries);
            Possible(w, all) && Trying(w, Reached(w, all), k, |tries|)
    decreases |tries|
  {
    hide RunFor, Trying, FailedAttempt, Reached, Possible, Loaded;
    if tries == [] {
      assert actions + [] == actions;
    } else {
      var n := |tries| - 1;
      FailuresPossible(w, actions, k, tries[..n]);
      AttemptFails(w, actions + Failures(w, k, tries[..n]), k, n, tries[n]);
      assert actions + Failures(w, k, tries)
          == actions + Failures(w, k, tries[..n]) + FailedAttempt(w, k, tries[n]);
    }
  }

  lemma PoisedTrying(w: World, y: System, k: nat)
    requires Poised(w, y, k) && Live(w, k)
    ensures Trying(w, y, k, 0)
  {}

  lemma PlannedTick(w: World, plan: Plan, k: nat)
    requires Survivable(w, plan) && Live(w, k)
    ensures |plan(k)| < ATTEMPTS && (!Live(w, k + 1) ==> RepliesArrive(plan(k)))
  {
    hide RunFor;
  }

  lemma TickPossible(w: World, plan: Plan, k: nat)
    requires Loaded(w.sc) && Deliverable(w) && Survivable(w, plan) && Live(w, k)
    requires Possible(w, Schedule(w, plan, k)) && Poised(w, Reached(w, Schedule(w, plan, k)), k)
    ensures Possible(w, Schedule(w, plan, k + 1)) && Poised(w, Reached(w, Schedule(w, plan, k + 1)), k + 1)
  {
    hide RunFor, Poised, Trying, Reached, Possible, Loaded, Deliverable, Survivable, Failures, GoodAttempt;
    var before := Schedule(w, plan, k);
    PoisedTrying(w, Reached(w, before), k);
    PlannedTick(w, plan, k);
    FailuresPossible(w, before, k, plan(k));
    AttemptSucceeds(w, before + Failures(w, k, plan(k)), k, |plan(k)|);
  }

  /** The tick the run is at after `n` planned ones. */
  lemma {:induction false} PlanFollowed(w: World, plan: Plan, n: nat) returns (k: nat)
    requires Loaded(w.sc) && Deliverable(w) && Survivable(w, plan)
    ensures Possible(w, Schedule(w, plan, n)) && Poised(w, Reached(w, Schedule(w, plan, n)), k)
    ensures k <= n && (k == n || !Live(w, k))
    decreases n
  {
    hide RunFor, Poised, Loaded, Deliverable, Survivable, Failures, GoodAttempt, Reached, Possible;
    if n == 0 {
      NothingPossible(w);
      StartPoised(w);
      k := 0;
    } else {
      k := PlanFollowed(w, plan, n - 1);
      if Live(w, n - 1) {
        StillLive(w, k, n - 1);
        TickPossible(w, plan, n - 1);
        k := n;
      }
    }
  }

  lemma NothingPossible(w: World)
    ensures Possible(w, []) && Reached(w, []) == StartOf(w)
  {}

  lemma StillLive(w: World, k: nat, n: nat)
    requires k <= n && Live(w, n) && (k == n || !Live(w, k))
    ensures k == n
  {
    hide RunFor;
    if k < n {
      EndedStays(w.sc, w.seed, w.delayTicks, k, n);
    }
  }

  lemma PoisedOver(w: World, y: System, k: nat)
    requires Poised(w, y, k) && !Live(w, k)
    ensures Completed(y)
  {}

  /** A run that keeps losing sends, frames and replies still ends with code 0, every row of the reference and every
      record, as long as each tick has an attempt left that gets through both ways, and the reply to the last tick is
      not lost. */
  lemma LossyRunCompletes(w: World, plan: Plan)
    requires Loaded(w.sc) && Deliverable(w) && Survivable(w, plan)
    ensures var actions := Schedule(w, plan, w.sc.ticks);
            && Possible(w, actions) && Completed(Reached(w, actions))
            && Reached(w, actions).sim.core.rows == ReferenceRows(w)
  {
    hide RunFor, Poised, Reached, Possible, ReferenceRows, Loaded, Deliverable, Survivable, Schedule;
    var k := PlanFollowed(w, plan, w.sc.ticks);
    HorizonEnds(w);
    PoisedOver(w, Reached(w, Schedule(w, plan, w.sc.ticks)), k);
    RunsRefineReference(w, Schedule(w, plan, w.sc.ticks));
  }

  lemma NothingToSurvive(w: World)
    ensures Survivable(w, NoFailures)
  {
    hide RunFor;
  }

  /** In particular when nothing is lost at all. */
  lemma DeliveryCompletes(w: World) returns (actions: seq<Action>)
    requires Loaded(w.sc) && Deliverable(w)
    ensures actions == Schedule(w, NoFailures, w.sc.ticks)
    ensures Possible(w, actions) && Completed(Reached(w, actions))
    ensures Reached(w, actions).sim.core.rows == ReferenceRows(w)
  {
    hide RunFor, Reached, Possible, ReferenceRows, Loaded, Deliverable, Schedule;
    assert Survivable(w, NoFailures) by { NothingToSurvive(w); }
    LossyRunCompletes(w, NoFailures);
    actions := Schedule(w, NoFailures, w.sc.ticks);
  }
}
