/** What one cycle of the free-run loop decides and records, read off the admission it comes from. */
module FreeRunMeaning {
  import opened Basics
  import opened Episode
  import opened Payload
  import opened FreeRun
  import opened AdmissionRuns
  import A = Admission
  import EpisodeMeaning

  /** What the episode is given in a cycle that leaves admission at `a`: the tick of the schedule, the sample admitted
      in this cycle or the last one before, how old it is, the horizon in the last cycle, the notice once there is one,
      and a stop request. */
  predicate Given(cfg: Config, r: Runtime, a: A.State, stopping: bool, g: Inputs<word>) {
    && g.tick == cfg.tickBase + r.cycles && g.command.None? && g.staleness == a.cycle.staleness
    && (g.isFresh <==> a.cycle.admitted.Some?) && (g.held.Some? <==> a.held.Some?)
    && (g.isFresh ==> SampleOf(g, a.cycle.admitted.value))
    && (g.held.Some? ==> SampleOf(g, a.held.value))
    && (g.horizonReached <==> r.cycles == cfg.cycles + cfg.warmup - 1)
    && g.simReason == (if a.cycle.terminal.None? then r.simSeen else Some(a.cycle.terminal.value.reason))
    && (if stopping then g.stopReason == Some(SIGNAL) else g.stopReason.None?)
  }

  /** The observation is this sample's own. */
  predicate SampleOf(g: Inputs<word>, sample: Sensor) {
    && g.held.Some? && g.held.value.tick == sample.tick && g.held.value.theta == sample.theta
    && g.held.value.omega == sample.omega && g.held.value.valid
  }

  /** The request of a cycle and the controller it leaves. */
  predicate Requests(p: Policy<word>, before: State<word>, a: A.State, out: Output<word>) {
    var sample := a.cycle.admitted;
    && (out.state.mode != FLYING ==> out.delta == p.zero && out.state.pid == before.pid)
    && (out.state.mode == FLYING && sample.Some? ==>
          (out.delta, out.state.pid) == p.pid(before.pid, sample.value.theta, sample.value.omega))
    && (out.state.mode == FLYING && sample.None? ==>
          out.state.pid == before.pid && out.delta == if a.cycle.staleness <= 8 then before.pid.lastDelta else p.zero)
  }

  predicate Bit(flags: nat, weight: nat)
    requires weight > 0
  {
    flags / weight % 2 == 1
  }

  /** The record of a cycle: what it saw, what it asked for, and one flag each for an admitted sample, a reply sent, a
      cycle that coasts, a neutral one, a full batch and a sample that was not finite. */
  predicate Written(cfg: Config, r: Runtime, a: A.State, out: Output<word>, i: CycleInput, rec: Control) {
    var isFresh, age := a.cycle.admitted.Some?, a.cycle.staleness;
    && rec.tick == cfg.tickBase + r.cycles && rec.cmd == out.delta && rec.iState == out.state.pid.iState
    && rec.dPrev == out.state.pid.dPrev && rec.staleness == age && rec.state == out.state.mode.Code()
    && (if a.held.Some? then
          && rec.sensorTick == a.held.value.tick && rec.sensorSendNs == a.held.value.sendNs
          && rec.theta == a.held.value.theta && rec.omega == a.held.value.omega
        else rec.sensorTick == MAX64 && rec.sensorSendNs == rec.theta == rec.omega == 0)
    && Bit(rec.flags, 1) == isFresh && Bit(rec.flags, 2) == i.success
    && Bit(rec.flags, 8) == (!isFresh && age <= 8) && Bit(rec.flags, 16) == (!isFresh && 9 <= age <= 20)
    && Bit(rec.flags, 32) == (i.batch.Some? && |i.batch.value| == 8)
    && Bit(rec.flags, 128) == (a.cycle.counts.nonfinite > 0)
  }

  lemma FlagsMean(a: bool, b: bool, c: bool, d: bool, e: bool, f: bool)
    ensures var flags := FreeRun.Bit(a, 1) + FreeRun.Bit(b, 2) + FreeRun.Bit(c, 8) + FreeRun.Bit(d, 16)
                         + FreeRun.Bit(e, 32) + FreeRun.Bit(f, 128);
            && Bit(flags, 1) == a && Bit(flags, 2) == b && Bit(flags, 8) == c && Bit(flags, 16) == d
            && Bit(flags, 32) == e && Bit(flags, 128) == f
  {}

  lemma RecordMeans(cfg: Config, r: Runtime, a: A.State, out: Output<word>, i: CycleInput)
    requires cfg.Valid() && r.cycles < cfg.Total() && a.cycle.rxCount <= 9
    ensures Written(cfg, r, a, out, i, RecordOf(cfg, r.cycles, a, out, i, r.drops))
  {
    hide Config.Valid, Bit;
    var rung := Rung(a.cycle.staleness, a.cycle.admitted.Some?);
    FlagsMean(a.cycle.admitted.Some?, i.success, rung == 1, rung == 2, i.batch.Some? && |i.batch.value| == 8,
              a.cycle.counts.nonfinite > 0);
  }

  lemma GivenMeans(cfg: Config, r: Runtime, a: A.State, stopping: bool)
    requires a.cycle.admitted.Some? ==> a.held == a.cycle.admitted
    ensures var g := InputsOf(cfg, r.cycles, a, SimSeen(r.simSeen, a.cycle), stopping);
            Given(cfg, r, a, stopping, g) && Proper(g)
  {}

  ghost predicate Decided(cfg: Config, r: Runtime, t: Runtime, i: CycleInput, g: Inputs<word>, out: Output<word>,
                          rec: Control)
  {
    && Given(cfg, r, t.admission, i.stopping, g) && Proper(g) && WellFormed(r.state)
    && out == Step(cfg.policy, r.state, g) && t.state == out.state && WellFormed(t.state) && t.simSeen == g.simReason
    && Requests(cfg.policy, r.state, t.admission, out) && Written(cfg, r, t.admission, out, i, rec)
    && t.records == if i.pushed then r.records + [rec] else r.records
  }

  /** Every cycle: the decision is taken on the admitted sample's own angle and rate, the controller sees no other, and
      the record shows the sample and the request. */
  lemma CycleMeans(cfg: Config, r: Runtime, carry: A.Packet, i: CycleInput)
    returns (g: Inputs<word>, out: Output<word>, rec: Control)
    requires cfg.Valid() && Between(cfg, r) && r.cycles < cfg.Total() && WellFormed(r.state)
    ensures Decided(cfg, r, Cycle(cfg, r, carry, i), i, g, out, rec)
  {
    hide Kept, AdmissionOf, RecordOf, Step, Given, Written, Cycle, Requests;
    var a := AdmissionOf(cfg, r, carry, i);
    g := InputsOf(cfg, r.cycles, a, SimSeen(r.simSeen, a.cycle), i.stopping);
    out := DecisionOf(cfg, r, a, i);
    rec := RecordOf(cfg, r.cycles, a, out, i, r.drops);
    CycleParts(cfg, r, carry, i);
    GivenMeans(cfg, r, a, i.stopping);
    RecordMeans(cfg, r, a, out, i);
    StepKeeps(cfg.policy, r.state, g);
    RequestsMean(cfg.policy, r.state, g, a);
  }

  lemma CycleParts(cfg: Config, r: Runtime, carry: A.Packet, i: CycleInput)
    requires cfg.Valid() && Between(cfg, r) && r.cycles < cfg.Total()
    ensures var t, a := Cycle(cfg, r, carry, i), AdmissionOf(cfg, r, carry, i);
            var out := DecisionOf(cfg, r, a, i);
            && t.admission == a && t.state == out.state && t.simSeen == SimSeen(r.simSeen, a.cycle)
            && t.records == if i.pushed then r.records + [RecordOf(cfg, r.cycles, a, out, i, r.drops)] else r.records
  {
    hide Kept, AdmissionOf, RecordOf, DecisionOf;
  }

  lemma RequestsMean(p: Policy<word>, s: State<word>, g: Inputs<word>, a: A.State)
    requires WellFormed(s) && Proper(g) && g.isFresh == a.cycle.admitted.Some? && g.staleness == a.cycle.staleness
    requires g.isFresh ==> SampleOf(g, a.cycle.admitted.value)
    ensures Requests(p, s, a, Step(p, s, g))
  {
    hide Step;
    EpisodeMeaning.StepRequests(p, s, g);
  }

  lemma {:induction false} LoopWellFormed(cfg: Config, carry: A.Packet, inputs: seq<CycleInput>)
    requires cfg.Valid() && ValidInputs(inputs)
    ensures WellFormed(Loop(cfg, carry, inputs).state)
    decreases |inputs|
  {
    hide Between, Cycle;
    if inputs != [] {
      var before, i := inputs[..|inputs| - 1], inputs[|inputs| - 1];
      var r := Loop(cfg, carry, before);
      LoopWellFormed(cfg, carry, before);
      LoopStep(cfg, r, carry, i);
      if !Over(cfg, r) && !i.sleepFailed {
        var _, _, _ := CycleMeans(cfg, r, carry, i);
      }
    }
  }

  /** And so does every cycle of every run of the loop. */
  lemma EveryCycleMeans(cfg: Config, carry: A.Packet, inputs: seq<CycleInput>, i: CycleInput)
    returns (g: Inputs<word>, out: Output<word>, rec: Control)
    requires cfg.Valid() && ValidInputs(inputs) && i.Valid() && ValidInputs(inputs + [i])
    requires !Over(cfg, Loop(cfg, carry, inputs)) && !i.sleepFailed
    ensures Decided(cfg, Loop(cfg, carry, inputs), Loop(cfg, carry, inputs + [i]), i, g, out, rec)
  {
    hide Between, Cycle, Decided;
    var r := Loop(cfg, carry, inputs);
    LoopWellFormed(cfg, carry, inputs);
    LoopStep(cfg, r, carry, i);
    assert (inputs + [i])[..|inputs|] == inputs;
    g, out, rec := CycleMeans(cfg, r, carry, i);
  }

  function One(b: bool): nat { if b then 1 else 0 }

  /** What a cycle counts: a controller call for each admitted sample in flight, each reply as sent or failed, apart for
      the terminal one, each record as pushed or dropped. */
  lemma CycleCounts(cfg: Config, r: Runtime, carry: A.Packet, i: CycleInput)
    requires cfg.Valid() && Between(cfg, r) && r.cycles < cfg.Total()
    ensures var t := Cycle(cfg, r, carry, i);
            var terminal := t.state.mode == TERMINATED;
            && t.cycles == r.cycles + 1 && t.receiveBatches == r.receiveBatches + 1
            && t.receiveErrors == r.receiveErrors + One(i.batch.None?)
            && t.pidCalls == r.pidCalls + One(t.admission.cycle.admitted.Some? && t.state.mode == FLYING)
            && t.normalSent == r.normalSent + One(!terminal && i.success)
            && t.normalFailed == r.normalFailed + One(!terminal && !i.success)
            && t.termSent == r.termSent + One(terminal && i.success)
            && t.termFailed == r.termFailed + One(terminal && !i.success)
            && t.pushed == r.pushed + One(i.pushed) && t.drops == r.drops + One(!i.pushed)
            && (t.terminalCycle > 0 <==> r.terminalCycle > 0 || terminal) && t.previousWoke == i.woke
  {
    hide Kept, AdmissionOf, RecordOf, DecisionOf, Accounted;
    var a := AdmissionOf(cfg, r, carry, i);
    var out := DecisionOf(cfg, r, a, i);
    var rec := RecordOf(cfg, r.cycles, a, out, i, r.drops);
    var next := Counted(r, i, a, out, rec, SimSeen(r.simSeen, a.cycle), r.cycles >= cfg.warmup);
    AccountedKeeps(next, cfg, r.cycles, a, i, rec, out.state.mode == TERMINATED);
  }

  /** The recorded window's books are apart from these. */
  lemma AccountedKeeps(r: Runtime, cfg: Config, n: nat, a: A.State, i: CycleInput, rec: Control, terminal: bool)
    requires cfg.Valid()
    ensures var t := Accounted(r, cfg, n, a, i, rec, terminal);
            t == r.(recordedWindow := t.recordedWindow, served := t.served, discarded := t.discarded,
                    uplinkWait := t.uplinkWait, compute := t.compute, stats := t.stats)
  {
    hide Rung, RecordAges;
  }

  function Count(outcomes: seq<bool>, b: bool): nat
    decreases |outcomes|
  {
    if outcomes == [] then 0 else Count(outcomes[..|outcomes| - 1], b) + One(outcomes[|outcomes| - 1] == b)
  }

  lemma {:induction false} ResendMeans(r: Runtime, outcomes: seq<bool>)
    ensures Resend(r, outcomes) == r.(termAttempts := r.termAttempts + |outcomes|,
                                      termSent := r.termSent + Count(outcomes, true),
                                      termFailed := r.termFailed + Count(outcomes, false))
    decreases |outcomes|
  {
    if outcomes != [] {
      ResendMeans(r, outcomes[..|outcomes| - 1]);
    }
  }

  /** A run with a terminal cycle sends its reply at most as often as configured, each copy counted for its outcome; one
      without sends no copy. */
  lemma CopiesMean(cfg: Config, r: Runtime, outcomes: seq<bool>)
    ensures var t, copies := FinishRun(cfg, r, outcomes), outcomes[..Min(|outcomes|, Max(0, cfg.terminalCopies - 1))];
            && (r.terminalCycle == 0 ==> t == r)
            && (r.terminalCycle > 0 ==>
                  t == r.(termAttempts := r.termAttempts + |copies|, termSent := r.termSent + Count(copies, true),
                          termFailed := r.termFailed + Count(copies, false)))
  {
    hide Resend, Count;
    ResendMeans(r, outcomes[..Min(|outcomes|, Max(0, cfg.terminalCopies - 1))]);
  }
}
