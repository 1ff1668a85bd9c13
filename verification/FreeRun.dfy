/** The scheduled free-run loop: admit a batch, step the episode, send, record, account. */
module FreeRun {
  import opened Basics
  import opened Episode
  import opened Payload
  import A = Admission
  import opened AdmissionRuns
  import AdmissionSlots
  import AdmissionCycle
  import opened Intervals

  const PERIOD_NS := 2_000_000

  datatype Config = Config(cycles: nat, warmup: nat, skewMax: nat, terminalCopies: nat, tickBase: u64, origin: int,
                           autoArm: bool, policy: Policy<word>)
  {
    function Total(): nat { cycles + warmup }

    function Deadline(n: nat): int { origin + n * PERIOD_NS }

    /** What the caller checks before the loop: ticks and deadlines fit their words. */
    predicate Valid() {
      skewMax <= A.MAX_SKEW && tickBase + Total() <= MAX64
      && 0 <= origin && Deadline(Total() + terminalCopies) < TWO63
    }

    function Admission(): A.Config { A.Config(tickBase, skewMax, warmup) }
  }

  /** What the kernel and the clock return in one cycle; a failed receive has no batch. */
  datatype CycleInput = CycleInput(sleepFailed: bool, woke: i64, batch: Option<seq<A.Packet>>, rx: i64,
                                   stopping: bool, beforeSend: i64, success: bool, tx: i64, done: i64, pushed: bool)
  {
    predicate Valid() { batch.Some? ==> |batch.value| <= 8 }
  }

  datatype Window = Window(fresh_: nat, coast: nat, neutral: nat, lost: nat, sent: nat, failed: nat, served: nat) {
    function Rungs(): nat { fresh_ + coast + neutral + lost }

    function Record(rung: nat, terminal: bool, success: bool, isFresh: bool): Window {
      Window(fresh_ + if rung == 0 then 1 else 0, coast + if rung == 1 then 1 else 0,
             neutral + if rung == 2 then 1 else 0, lost + if rung >= 3 then 1 else 0,
             sent + if !terminal && success then 1 else 0, failed + if !terminal && !success then 1 else 0,
             served + if isFresh && success then 1 else 0)
    }
  }

  const NO_WINDOW := Window(0, 0, 0, 0, 0, 0, 0)

  datatype Runtime = Runtime(admission: A.State, episodeWindow: Window, recordedWindow: Window, served: Distribution,
                             discarded: Distribution, uplinkWait: Distribution, compute: Distribution, stats: LoopStats,
                             state: State<word>, cycles: nat, receiveBatches: nat, receiveErrors: nat, pidCalls: nat,
                             pushed: nat, drops: nat, terminalCycle: nat, normalSent: nat, normalFailed: nat,
                             termAttempts: nat, termSent: nat, termFailed: nat, terminalReceivedRecorded: nat,
                             firstTerminalTxOk: bool, simSeen: Option<u32>, failure: Reason, previousWoke: i64,
                             records: seq<Control>)

  function BeginRun(cfg: Config): Runtime {
    Runtime(A.Initial(cfg.Admission()), NO_WINDOW, NO_WINDOW, NO_INTERVALS, NO_INTERVALS, NO_INTERVALS,
            NO_INTERVALS, NO_SAMPLES, Initial(cfg.policy, cfg.autoArm), 0, 0, 0, 0, 0, 0, 0, 0, 0, 0, 0, 0, 0, false,
            None, NONE, 0, [])
  }

  /** The datagrams of a cycle; the first cycle starts with the one that set the origin. */
  function Packets(n: nat, carry: A.Packet, i: CycleInput): seq<A.Packet> {
    (if n == 0 then [carry] else []) + if i.batch.Some? then i.batch.value else []
  }

  function HeldObs(s: Option<Sensor>): Option<Obs<word>> {
    if s.Some? then Some(Obs(s.value.tick, s.value.theta, s.value.omega, true)) else None
  }

  function Rung(staleness: nat, isFresh: bool): nat {
    if staleness >= 21 then 3 else if isFresh then 0 else if staleness <= 8 then 1 else 2
  }

  function SimSeen(before: Option<u32>, c: A.Cycle): Option<u32> {
    if c.terminal.Some? then Some(c.terminal.value.reason) else before
  }

  function InputsOf(cfg: Config, n: nat, a: A.State, simSeen: Option<u32>, stopping: bool): Inputs<word> {
    Inputs(cfg.tickBase + n, HeldObs(a.held), a.cycle.admitted.Some?, a.cycle.staleness, None, n + 1 == cfg.Total(),
           simSeen, if stopping then Some(SIGNAL) else None)
  }

  function Bit(b: bool, weight: nat): nat { if b then weight else 0 }

  /** The record of a cycle; counters are truncated to a byte as the source truncates them. */
  function RecordOf(cfg: Config, n: nat, a: A.State, out: Output<word>, i: CycleInput, drops: nat): Control
    requires cfg.Valid() && n < cfg.Total() && a.cycle.rxCount <= 9
  {
    var c, held, rung := a.cycle.counts, a.held, Rung(a.cycle.staleness, a.cycle.admitted.Some?);
    DeadlineFits(cfg, n);
    Control(cfg.tickBase + n, cfg.Deadline(n), i.woke, i.done, if held.Some? then held.value.sendNs else 0, i.rx, i.tx,
            if held.Some? then held.value.tick else MAX64, if held.Some? then held.value.theta else 0,
            if held.Some? then held.value.omega else 0, out.delta, out.state.pid.iState, out.state.pid.dPrev,
            drops % TWO64, a.cycle.staleness, 0, a.cycle.rxCount, c.aged % 256, c.superseded % 256,
            (c.nonfinite + c.skewExcess) % 256, out.state.mode.Code(),
            if out.state.mode == TERMINATED && out.state.terminal.Some? then out.state.terminal.value.reason.Code()
            else 0,
            Bit(a.cycle.admitted.Some?, 1) + Bit(i.success, 2) + Bit(rung == 1, 8) + Bit(rung == 2, 16)
              + Bit(i.batch.Some? && |i.batch.value| == 8, 32) + Bit(c.nonfinite > 0, 128), 0)
  }

  lemma DeadlineFits(cfg: Config, n: nat)
    requires cfg.Valid() && n <= cfg.Total()
    ensures 0 <= cfg.Deadline(n) < TWO63
  {}

  /** The accounting of a cycle inside the recorded window. */
  function Accounted(r: Runtime, cfg: Config, n: nat, a: A.State, i: CycleInput, rec: Control, terminal: bool): Runtime
    requires cfg.Valid()
  {
    var rung, isFresh := Rung(a.cycle.staleness, a.cycle.admitted.Some?), a.cycle.admitted.Some?;
    var both := isFresh && i.success;
    r.(recordedWindow := r.recordedWindow.Record(rung, terminal, i.success, isFresh),
       served := if both then r.served.Record(rec.sensorSendNs, rec.txNs) else r.served,
       uplinkWait := if both then r.uplinkWait.Record(rec.sensorSendNs, rec.rxNs) else r.uplinkWait,
       compute := if both then r.compute.Record(rec.rxNs, rec.txNs) else r.compute,
       discarded := RecordAges(r.discarded, a.cycle.discards, i.rx),
       stats := r.stats.Record(i.woke - cfg.Deadline(n),
                               if r.previousWoke != 0 then i.woke - r.previousWoke - PERIOD_NS else 0, i.done - i.woke))
  }

  function RecordAges(d: Distribution, discards: seq<A.Discard>, rx: i64): Distribution
    decreases |discards|
  {
    if discards == [] then d
    else RecordAges(d, discards[..|discards| - 1], rx).Record(discards[|discards| - 1].sendNs, rx)
  }

  /** The counters of a cycle, inside the recorded window or not. */
  function Counted(r: Runtime, i: CycleInput, a: A.State, out: Output<word>, rec: Control, simSeen: Option<u32>,
                   inWindow: bool): Runtime
  {
    var terminal, isFresh := out.state.mode == TERMINATED, a.cycle.admitted.Some?;
    var raw := a.terminals.receivedRaw - r.admission.terminals.receivedRaw;
    r.(admission := a, state := out.state, cycles := r.cycles + 1, receiveBatches := r.receiveBatches + 1,
       receiveErrors := r.receiveErrors + if i.batch.None? then 1 else 0, simSeen := simSeen,
       pidCalls := r.pidCalls + if isFresh && out.state.mode == FLYING then 1 else 0,
       terminalCycle := if terminal then 1 else r.terminalCycle,
       firstTerminalTxOk := if terminal then i.success else r.firstTerminalTxOk,
       termAttempts := if terminal then 1 else r.termAttempts,
       termSent := r.termSent + if terminal && i.success then 1 else 0,
       termFailed := r.termFailed + if terminal && !i.success then 1 else 0,
       normalSent := r.normalSent + if !terminal && i.success then 1 else 0,
       normalFailed := r.normalFailed + if !terminal && !i.success then 1 else 0,
       terminalReceivedRecorded := r.terminalReceivedRecorded + if inWindow && raw >= 0 then raw else 0,
       pushed := r.pushed + if i.pushed then 1 else 0, drops := r.drops + if i.pushed then 0 else 1,
       records := if i.pushed then r.records + [rec] else r.records,
       episodeWindow := r.episodeWindow.Record(Rung(a.cycle.staleness, isFresh), terminal, i.success, isFresh))
  }

  function AdmissionOf(cfg: Config, r: Runtime, carry: A.Packet, i: CycleInput): (a: A.State)
    requires cfg.Valid() && r.cycles < cfg.Total() && Kept(cfg.Admission(), r.admission)
    ensures Kept(cfg.Admission(), a) && a.cycle.rxCount <= 9
    ensures a.cycle.admitted.Some? ==> a.held == a.cycle.admitted
  {
    hide Kept, AdmissionSlots.CycleOf;
    var a := AdmissionSlots.CycleOf(cfg.Admission(), r.admission, cfg.tickBase + r.cycles, Packets(r.cycles, carry, i));
    RxBounded(cfg.Admission(), a);
    AdmittedHeld(cfg.Admission(), a);
    a
  }

  function DecisionOf(cfg: Config, r: Runtime, a: A.State, i: CycleInput): Output<word>
    requires a.cycle.admitted.Some? ==> a.held == a.cycle.admitted
  {
    Step(cfg.policy, r.state, InputsOf(cfg, r.cycles, a, SimSeen(r.simSeen, a.cycle), i.stopping))
  }

  /** One cycle in which the sleep succeeded. */
  function Cycle(cfg: Config, r: Runtime, carry: A.Packet, i: CycleInput): Runtime
    requires cfg.Valid() && r.cycles < cfg.Total() && Kept(cfg.Admission(), r.admission)
  {
    hide Kept, AdmissionOf, DecisionOf, RecordOf;
    var a := AdmissionOf(cfg, r, carry, i);
    var out := DecisionOf(cfg, r, a, i);
    var rec := RecordOf(cfg, r.cycles, a, out, i, r.drops);
    var inWindow := r.cycles >= cfg.warmup;
    var next := Counted(r, i, a, out, rec, SimSeen(r.simSeen, a.cycle), inWindow);
    (if inWindow then Accounted(next, cfg, r.cycles, a, i, rec, out.state.mode == TERMINATED) else next).(
      previousWoke := i.woke)
  }

  lemma AdmittedHeld(cfg: A.Config, a: A.State)
    requires Kept(cfg, a) && !a.open
    ensures a.cycle.admitted.Some? ==> a.held == a.cycle.admitted
  {
    hide SlotsAt, Balanced, Bounded;
  }

  lemma RxBounded(cfg: A.Config, a: A.State)
    requires Kept(cfg, a)
    ensures a.cycle.rxCount <= 9
  {
    hide SlotsAt, Balanced, Ordered;
  }

  // The loop

  /** The loop has no further cycle: it broke at the terminal cycle or on a failed sleep, or ran out. */
  predicate Over(cfg: Config, r: Runtime) { r.terminalCycle > 0 || r.failure != NONE || r.cycles >= cfg.Total() }

  /** Between two cycles: admission is closed at the last tick, as many cycles as the loop has run. */
  predicate Between(cfg: Config, r: Runtime) {
    && Kept(cfg.Admission(), r.admission) && !r.admission.open && r.admission.cycles == r.cycles <= cfg.Total()
    && (r.cycles > 0 ==> r.admission.expected == cfg.tickBase + r.cycles - 1)
  }

  lemma BeginBetween(cfg: Config)
    requires cfg.Valid()
    ensures Between(cfg, BeginRun(cfg))
  {
    hide Kept;
    InitialKept(cfg.Admission(), A.Initial(cfg.Admission()));
  }

  lemma NextOpens(cfg: Config, r: Runtime)
    requires cfg.Valid() && Between(cfg, r) && r.cycles < cfg.Total()
    ensures A.CanBegin(cfg.Admission(), r.admission, cfg.tickBase + r.cycles)
  {
    hide Kept;
  }

  lemma CycleBetween(cfg: Config, r: Runtime, carry: A.Packet, i: CycleInput)
    requires cfg.Valid() && Between(cfg, r) && r.cycles < cfg.Total() && i.Valid()
    ensures Between(cfg, Cycle(cfg, r, carry, i))
  {
    hide Kept, AdmissionSlots.CycleOf, RecordOf, DecisionOf, Accounted;
    NextOpens(cfg, r);
    AdmissionCycle.CycleTotals(cfg.Admission(), r.admission, cfg.tickBase + r.cycles, Packets(r.cycles, carry, i));
    CycleAdmission(cfg, r, carry, i);
  }

  lemma CycleAdmission(cfg: Config, r: Runtime, carry: A.Packet, i: CycleInput)
    requires cfg.Valid() && r.cycles < cfg.Total() && Kept(cfg.Admission(), r.admission)
    ensures Cycle(cfg, r, carry, i).cycles == r.cycles + 1
    ensures Cycle(cfg, r, carry, i).admission == AdmissionOf(cfg, r, carry, i)
  {
    hide Kept, AdmissionOf, RecordOf, DecisionOf;
  }

  /** What the admission of a cycle comes to. */
  lemma AdmissionWhole(cfg: Config, r: Runtime, carry: A.Packet, i: CycleInput)
    requires cfg.Valid() && Between(cfg, r) && r.cycles < cfg.Total() && i.Valid()
    ensures var a := AdmissionOf(cfg, r, carry, i);
            && AdmissionCycle.WholeCycle(cfg.Admission(), r.admission, a, cfg.tickBase + r.cycles, a.cycle.rxCount)
            && a.cycle.rxCount <= (if r.cycles == 0 then 9 else 8)
            && var c := a.cycle.counts; c.aged + c.superseded + c.nonfinite + c.skewExcess <= 9
  {
    hide Kept, AdmissionSlots.CycleOf;
    NextOpens(cfg, r);
    AdmissionCycle.CycleTotals(cfg.Admission(), r.admission, cfg.tickBase + r.cycles, Packets(r.cycles, carry, i));
  }

  /** The notices received are only ever added to. */
  lemma NoticesGrow(cfg: Config, r: Runtime, carry: A.Packet, i: CycleInput)
    requires cfg.Valid() && Between(cfg, r) && r.cycles < cfg.Total() && i.Valid()
    ensures AdmissionOf(cfg, r, carry, i).terminals.receivedRaw >= r.admission.terminals.receivedRaw
  {
    hide Kept, AdmissionOf;
    AdmissionWhole(cfg, r, carry, i);
  }

  predicate ValidInputs(inputs: seq<CycleInput>) { forall i <- inputs :: i.Valid() }

  /** The runtime after these cycles; inputs after the loop is over are not consumed. */
  function Loop(cfg: Config, carry: A.Packet, inputs: seq<CycleInput>): (r: Runtime)
    requires cfg.Valid() && ValidInputs(inputs)
    ensures Between(cfg, r)
    decreases |inputs|
  {
    hide Between, Cycle;
    if inputs == [] then BeginBetween(cfg); BeginRun(cfg)
    else
      var r, i := Loop(cfg, carry, inputs[..|inputs| - 1]), inputs[|inputs| - 1];
      LoopStep(cfg, r, carry, i);
      if Over(cfg, r) then r else if i.sleepFailed then r.(failure := INTERNAL) else Cycle(cfg, r, carry, i)
  }

  lemma LoopStep(cfg: Config, r: Runtime, carry: A.Packet, i: CycleInput)
    requires cfg.Valid() && Between(cfg, r) && i.Valid()
    ensures Between(cfg, r.(failure := INTERNAL)) && Kept(cfg.Admission(), r.admission)
    ensures !Over(cfg, r) ==> r.cycles < cfg.Total() && Between(cfg, Cycle(cfg, r, carry, i))
  {
    hide Kept, Cycle;
    if !Over(cfg, r) {
      CycleBetween(cfg, r, carry, i);
    }
  }

  /** Further copies of the terminal reply, until the copies or the schedule run out. */
  function Resend(r: Runtime, successes: seq<bool>): Runtime
    decreases |successes|
  {
    if successes == [] then r
    else
      var s, ok := Resend(r, successes[..|successes| - 1]), successes[|successes| - 1];
      s.(termAttempts := s.termAttempts + 1, termSent := s.termSent + if ok then 1 else 0,
         termFailed := s.termFailed + if ok then 0 else 1)
  }

  /** The whole run: copies are resent only after a terminal cycle. */
  function FinishRun(cfg: Config, r: Runtime, successes: seq<bool>): Runtime {
    if r.terminalCycle > 0 then Resend(r, successes[..Min(|successes|, Max(0, cfg.terminalCopies - 1))]) else r
  }
}
