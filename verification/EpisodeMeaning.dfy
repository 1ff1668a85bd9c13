/** What an episode run does, said without its transition function: requests, reasons, acknowledgements, modes. */
module EpisodeMeaning {
  import opened Basics
  import opened Episode
  import EpisodeRuns

  // Requests

  /** The policy's step stores what it requests. */
  ghost predicate Stores<F(!new)>(p: Policy<F>) {
    forall s: Pid<F>, theta: F, omega: F :: p.pid(s, theta, omega).1.lastDelta == p.pid(s, theta, omega).0
  }

  /** The output of cycle `k` of a run. */
  function OutputAt<F>(p: Policy<F>, autoArm: bool, inputs: seq<Inputs<F>>, k: nat): Output<F>
    requires ProperRun(inputs) && k < |inputs|
  {
    LastOutput(p, Initial(p, autoArm), inputs[..k + 1])
  }

  /** A fresh cycle that ends in flight. */
  predicate FreshFlying<F>(p: Policy<F>, autoArm: bool, inputs: seq<Inputs<F>>, k: nat)
    requires ProperRun(inputs) && k < |inputs|
  {
    inputs[k].isFresh && OutputAt(p, autoArm, inputs, k).state.mode == FLYING
  }

  /** The controller after the samples of the fresh flying cycles before cycle `n`, and of no others. */
  function Controlled<F>(p: Policy<F>, autoArm: bool, inputs: seq<Inputs<F>>, n: nat): Pid<F>
    requires ProperRun(inputs) && n <= |inputs|
  {
    if n == 0 then Pid(p.zero, p.zero, p.zero)
    else
      var before := Controlled(p, autoArm, inputs, n - 1);
      if FreshFlying(p, autoArm, inputs, n - 1) then
        p.pid(before, inputs[n - 1].held.value.theta, inputs[n - 1].held.value.omega).1
      else before
  }

  /** The request of the last fresh flying cycle before cycle `n`; zero if there was none. */
  function LastRequest<F>(p: Policy<F>, autoArm: bool, inputs: seq<Inputs<F>>, n: nat): F
    requires ProperRun(inputs) && n <= |inputs|
  {
    if n == 0 then p.zero
    else if FreshFlying(p, autoArm, inputs, n - 1) then OutputAt(p, autoArm, inputs, n - 1).delta
    else LastRequest(p, autoArm, inputs, n - 1)
  }

  lemma OutputIsStep<F>(p: Policy<F>, autoArm: bool, inputs: seq<Inputs<F>>, k: nat)
    requires ProperRun(inputs) && k < |inputs|
    ensures OutputAt(p, autoArm, inputs, k) == Step(p, After(p, Initial(p, autoArm), inputs[..k]), inputs[k])
    ensures After(p, Initial(p, autoArm), inputs[..k + 1]) == OutputAt(p, autoArm, inputs, k).state
  {
    hide Step;
    assert inputs[..k + 1][..k] == inputs[..k];
  }

  /** What one cycle requests, and what becomes of the controller. */
  lemma StepRequests<F>(p: Policy<F>, s: State<F>, i: Inputs<F>)
    requires WellFormed(s) && Proper(i)
    ensures var out := Step(p, s, i);
            && (out.state.mode != FLYING ==> out.delta == p.zero && out.state.pid == s.pid)
            && (out.state.mode == FLYING && i.isFresh ==>
                  (out.delta, out.state.pid) == p.pid(s.pid, i.held.value.theta, i.held.value.omega))
            && (out.state.mode == FLYING && !i.isFresh ==>
                  out.state.pid == s.pid && out.delta == if i.staleness <= 8 then s.pid.lastDelta else p.zero)
  {
    hide CommandPhase, TerminalReason, SettleCount;
    if s.mode != TERMINATED {
      CommandPhaseKeeps(s, i);
    }
  }

  lemma {:induction false} PidFollows<F>(p: Policy<F>, autoArm: bool, inputs: seq<Inputs<F>>, n: nat)
    requires ProperRun(inputs) && n <= |inputs|
    ensures After(p, Initial(p, autoArm), inputs[..n]).pid == Controlled(p, autoArm, inputs, n)
    decreases n
  {
    hide Step, OutputAt;
    if n == 0 {
      assert inputs[..0] == [];
    } else {
      PidFollows(p, autoArm, inputs, n - 1);
      OutputIsStep(p, autoArm, inputs, n - 1);
      EpisodeRuns.RunWellFormed(p, autoArm, inputs[..n - 1]);
      StepRequests(p, After(p, Initial(p, autoArm), inputs[..n - 1]), inputs[n - 1]);
    }
  }

  lemma {:induction false} StoredIsLast<F(!new)>(p: Policy<F>, autoArm: bool, inputs: seq<Inputs<F>>, n: nat)
    requires Stores(p) && ProperRun(inputs) && n <= |inputs|
    ensures Controlled(p, autoArm, inputs, n).lastDelta == LastRequest(p, autoArm, inputs, n)
    decreases n
  {
    hide Step, OutputAt;
    if n > 0 {
      StoredIsLast(p, autoArm, inputs, n - 1);
      if FreshFlying(p, autoArm, inputs, n - 1) {
        PidFollows(p, autoArm, inputs, n - 1);
        OutputIsStep(p, autoArm, inputs, n - 1);
        EpisodeRuns.RunWellFormed(p, autoArm, inputs[..n - 1]);
        StepRequests(p, After(p, Initial(p, autoArm), inputs[..n - 1]), inputs[n - 1]);
      }
    }
  }

  /** Over any run: a fresh flying cycle requests what the controller answers to its sample, after exactly the fresh
      flying samples before; a flying cycle without one repeats the last such request while the sample is at most 8
      cycles old, and asks for zero from then on; any other cycle asks for zero. */
  lemma RequestMeans<F(!new)>(p: Policy<F>, autoArm: bool, inputs: seq<Inputs<F>>, n: nat)
    requires Stores(p) && ProperRun(inputs) && n < |inputs|
    ensures var out, i := OutputAt(p, autoArm, inputs, n), inputs[n];
            && (out.state.mode != FLYING ==> out.delta == p.zero)
            && (out.state.mode == FLYING && i.isFresh ==>
                  out.delta
                  == p.pid(Controlled(p, autoArm, inputs, n), i.held.value.theta, i.held.value.omega).0)
            && (out.state.mode == FLYING && !i.isFresh && i.staleness <= 8 ==>
                  out.delta == LastRequest(p, autoArm, inputs, n))
            && (out.state.mode == FLYING && !i.isFresh && i.staleness >= 9 ==> out.delta == p.zero)
  {
    hide Step, OutputAt, Controlled, LastRequest, Stores;
    PidFollows(p, autoArm, inputs, n);
    StoredIsLast(p, autoArm, inputs, n);
    OutputIsStep(p, autoArm, inputs, n);
    EpisodeRuns.RunWellFormed(p, autoArm, inputs[..n]);
    StepRequests(p, After(p, Initial(p, autoArm), inputs[..n]), inputs[n]);
  }

  // Reasons

  predicate Unknown(r: Option<u32>) { r.Some? && r != Some(1) && r != Some(2) && r != Some(3) }

  predicate OutOfRange<F>(p: Policy<F>, i: Inputs<F>)
    requires i.Admitted()
  {
    i.simReason == Some(2) || i.simReason == Some(3) || (i.isFresh && p.diverged(i.held.value.theta))
  }

  /** Neither an unknown reason of the simulator nor a stop request of the vehicle's own. */
  predicate Undisturbed<F>(i: Inputs<F>) { !Unknown(i.simReason) && i.stopReason.None? }

  predicate AtHorizon<F>(i: Inputs<F>) { i.horizonReached || i.simReason == Some(1) }

  function EndedFor<F>(out: Output<F>): Reason {
    if out.state.terminal.Some? then out.state.terminal.value.reason else NONE
  }

  /** Exactly when a live cycle ends the episode for each reason; the reasons exclude each other in this order. */
  lemma EndsExactlyFor<F>(p: Policy<F>, s: State<F>, i: Inputs<F>)
    requires WellFormed(s) && Proper(i) && s.mode != TERMINATED
    ensures var out := Step(p, s, i);
            var why, settled := EndedFor(out), out.state.settleCount == 1000;
            && (why == INTERNAL <==> Unknown(i.simReason) || i.stopReason == Some(INTERNAL))
            && (why == PEER_LOST <==> !Unknown(i.simReason) && i.stopReason == Some(PEER_LOST))
            && (why == SIGNAL <==> !Unknown(i.simReason) && i.stopReason == Some(SIGNAL))
            && (why == DIVERGED <==> Undisturbed(i) && OutOfRange(p, i))
            && (why == SENSOR_LOST <==> Undisturbed(i) && !OutOfRange(p, i) && i.staleness >= 21)
            && (why == STABILIZED <==>
                  Undisturbed(i) && !OutOfRange(p, i) && i.staleness < 21 && AtHorizon(i) && settled)
            && (why == NOT_SETTLED <==>
                  Undisturbed(i) && !OutOfRange(p, i) && i.staleness < 21 && AtHorizon(i) && !settled)
            && (out.state.terminal.Some? ==> out.state.terminal.value.tick == i.tick)
  {
    hide CommandPhase, SettleCount;
    CommandPhaseKeeps(s, i);
  }

  /** No reason to end the episode but a command. */
  predicate Continues<F>(p: Policy<F>, i: Inputs<F>)
    requires i.Admitted()
  {
    Undisturbed(i) && !OutOfRange(p, i) && i.staleness < 21 && !AtHorizon(i)
  }

  lemma ContinuesWithout<F>(p: Policy<F>, i: Inputs<F>, count: nat)
    requires i.Admitted() && Continues(p, i)
    ensures TerminalReason(p, i, count) == NONE
  {}

  // Commands

  /** Where an opcode leads from a mode. */
  function Leads(opcode: nat, mode: Mode): Option<Mode> {
    match mode
    case INIT => if opcode == ARM then Some(ARMED) else None
    case ARMED => if opcode == LAUNCH then Some(FLYING) else if opcode == ABORT then Some(TERMINATED) else None
    case FLYING => if opcode == ABORT then Some(TERMINATED) else None
    case TERMINATED => None
  }

  /** The sequence number `d` commands later. */
  function Later(a: u32, d: nat): u32 { (a + d) % TWO32 }

  /** Later than the last accepted command, by less than half the circle of serial numbers. */
  ghost predicate Ahead(c: Command, last: Option<Command>) {
    last.Some? ==> exists d: nat :: 1 <= d < 0x8000_0000 && c.cmdSeq == Later(last.value.cmdSeq, d)
  }

  lemma AheadByGap(c: Command, last: Option<Command>)
    ensures Ahead(c, last) <==> (last.Some? ==> 1 <= Gap(c.cmdSeq, last.value.cmdSeq) < 0x8000_0000)
  {
    hide Later;
    if last.Some? {
      var g := Gap(c.cmdSeq, last.value.cmdSeq);
      LaterByGap(last.value.cmdSeq, c.cmdSeq);
      assert c.cmdSeq == Later(last.value.cmdSeq, g);
      forall d: nat | 1 <= d < 0x8000_0000 && c.cmdSeq == Later(last.value.cmdSeq, d)
        ensures g == d
      {
        WrapBack(last.value.cmdSeq, d);
      }
    }
  }

  lemma LaterByGap(a: u32, b: u32)
    ensures Later(a, Gap(b, a)) == b
  {}

  lemma WrapBack(a: u32, d: nat)
    requires d < TWO32
    ensures Gap(Later(a, d), a) == d
  {
    assert Later(a, d) as int == if a + d < TWO32 then a + d else a + d - TWO32;
  }

  /** A command of a known kind, ahead of the last accepted one. */
  ghost predicate Acceptable(c: Command, last: Option<Command>) { c.opcode in {1, 2, 3} && Ahead(c, last) }

  /** The pending command gives way only to an abort, and only if it is none itself. */
  predicate Yields(pending: Option<Command>, c: Command) {
    pending.None? || (c.opcode == 3 && pending.value.opcode != 3)
  }

  /** Exactly which acknowledgement a command gets on arrival in a cycle that goes on. */
  lemma ArrivalMeans<F>(p: Policy<F>, s: State<F>, i: Inputs<F>)
    requires WellFormed(s) && i.Admitted() && s.mode != TERMINATED && Continues(p, i) && i.command.Some?
    ensures |Step(p, s, i).acks| > 0
    ensures var c, last, ack := i.command.value, s.lastAccepted, Step(p, s, i).acks[0];
            var taken := Acceptable(c, last) && Yields(s.pending, c);
            && ack.cmdSeq == c.cmdSeq
            && (ack.status == REJECTED_OPCODE <==> c.opcode !in {1, 2, 3})
            && (ack.status == DUPLICATE <==> c.opcode in {1, 2, 3} && last == Some(c))
            && (ack.status == REJECTED_IDENTITY <==>
                  c.opcode in {1, 2, 3} && last.Some? && last.value.cmdSeq == c.cmdSeq && last.value != c)
            && (ack.status == REJECTED_STALE <==>
                  c.opcode in {1, 2, 3} && last.Some? && last.value.cmdSeq != c.cmdSeq && !Ahead(c, last))
            && (ack.status == REJECTED_PENDING <==> Acceptable(c, last) && !Yields(s.pending, c))
            && (ack.status == QUEUED <==> taken && c.effectiveTick > i.tick)
            && (ack.status == APPLIED <==> taken && c.effectiveTick == i.tick && Leads(c.opcode, s.mode).Some?)
            && (ack.status == APPLIED_LATE <==> taken && c.effectiveTick < i.tick && Leads(c.opcode, s.mode).Some?)
            && (ack.status == REJECTED_STATE <==>
                  taken && c.effectiveTick <= i.tick && Leads(c.opcode, s.mode).None?)
  {
    hide TerminalReason, SettleCount, Ahead, Continues;
    ContinuesWithout(p, i, SettleCount(p, s.settleCount, i.held));
    AheadByGap(i.command.value, s.lastAccepted);
  }

  /** The command that takes effect in a cycle, if any: the one arriving when it is due and taken, else the pending
      one when it is due and not given up. */
  function Effective<F>(s: State<F>, i: Inputs<F>): Option<Command> {
    if i.command.Some? && Accepts(s, i.command.value) then
      if i.command.value.effectiveTick <= i.tick then i.command else None
    else if s.pending.Some? && s.pending.value.effectiveTick <= i.tick then s.pending
    else None
  }

  predicate Accepts<F>(s: State<F>, c: Command) {
    && c.opcode in {1, 2, 3} && Yields(s.pending, c)
    && (s.lastAccepted.Some? ==> 1 <= Gap(c.cmdSeq, s.lastAccepted.value.cmdSeq) < 0x8000_0000)
  }

  /** The mode after a cycle that goes on: where the command in effect leads, and into flight if the episode arms
      itself and the cycle is fresh; and what stays pending and last accepted. */
  lemma ModeMeans<F>(p: Policy<F>, s: State<F>, i: Inputs<F>)
    requires WellFormed(s) && i.Admitted() && s.mode != TERMINATED && Continues(p, i)
    ensures var t, c := Step(p, s, i).state, Effective(s, i);
            var led := if c.Some? && Leads(c.value.opcode, s.mode).Some? then Leads(c.value.opcode, s.mode).value
                       else s.mode;
            && t.mode == (if led != TERMINATED && s.autoArm && i.isFresh then FLYING else led)
            && (t.terminal.Some? <==> led == TERMINATED)
            && (t.terminal.Some? ==> t.terminal == Some(Terminal(GROUND_ABORT, i.tick)))
            && t.lastAccepted == (if i.command.Some? && Accepts(s, i.command.value) then i.command else s.lastAccepted)
            && t.pending == (if c.Some? then None
                             else if i.command.Some? && Accepts(s, i.command.value) then i.command else s.pending)
  {
    hide TerminalReason, SettleCount, Continues;
    ContinuesWithout(p, i, SettleCount(p, s.settleCount, i.held));
  }

  /** What becomes of the command that was pending, in a cycle that goes on: given up for an abort, resolved when due,
      or left alone. */
  lemma ResolutionMeans<F>(p: Policy<F>, s: State<F>, i: Inputs<F>)
    requires WellFormed(s) && i.Admitted() && s.mode != TERMINATED && Continues(p, i)
    ensures var acks, n := Step(p, s, i).acks, if i.command.Some? then 1 else 0;
            var givenUp := s.pending.Some? && i.command.Some? && Accepts(s, i.command.value);
            var due := s.pending.Some? && !givenUp && s.pending.value.effectiveTick <= i.tick;
            && |acks| == n + (if givenUp || due then 1 else 0)
            && (givenUp ==> acks[n] == Ack(s.pending.value.cmdSeq, PREEMPTED, 0, s.mode, NONE))
            && (due ==>
                  && acks[n].cmdSeq == s.pending.value.cmdSeq
                  && (acks[n].status == APPLIED <==>
                        s.pending.value.effectiveTick == i.tick && Leads(s.pending.value.opcode, s.mode).Some?)
                  && (acks[n].status == APPLIED_LATE <==>
                        s.pending.value.effectiveTick < i.tick && Leads(s.pending.value.opcode, s.mode).Some?)
                  && (acks[n].status == REJECTED_STATE <==> Leads(s.pending.value.opcode, s.mode).None?))
  {
    hide TerminalReason, SettleCount, Continues;
    ContinuesWithout(p, i, SettleCount(p, s.settleCount, i.held));
  }

  /** An applied command is acknowledged with this tick and the mode it led to; any other with neither. */
  predicate Truthful<F>(s: State<F>, i: Inputs<F>, a: Ack) {
    var c := Effective(s, i);
    if IsApplied(a) then
      && c.Some? && a.cmdSeq == c.value.cmdSeq && a.appliedTick == i.tick
      && Leads(c.value.opcode, s.mode) == Some(a.state)
      && a.reason == (if a.state == TERMINATED then GROUND_ABORT else NONE)
    else a.appliedTick == 0 && a.state == s.mode && a.reason == NONE
  }

  lemma PhaseTruthful<F>(s: State<F>, i: Inputs<F>)
    requires WellFormed(s) && s.mode != TERMINATED
    ensures var k := CommandPhase(s, i);
            && (k.arrivalAck.Some? ==> Truthful(s, i, k.arrivalAck.value))
            && (k.pendingAck.Some? ==> Truthful(s, i, k.pendingAck.value))
  {}

  lemma AcksTruthful<F>(p: Policy<F>, s: State<F>, i: Inputs<F>)
    requires WellFormed(s) && i.Admitted() && s.mode != TERMINATED && Continues(p, i)
    ensures forall a <- Step(p, s, i).acks :: Truthful(s, i, a)
  {
    hide TerminalReason, SettleCount, Continues, CommandPhase, Truthful;
    ContinuesWithout(p, i, SettleCount(p, s.settleCount, i.held));
    PhaseTruthful(s, i);
  }

  /** A cycle that ends the episode for another reason than a command applies none and refuses all. */
  lemma EndingRefuses<F>(p: Policy<F>, s: State<F>, i: Inputs<F>)
    requires WellFormed(s) && Proper(i) && s.mode != TERMINATED && EndedFor(Step(p, s, i)) !in {NONE, GROUND_ABORT}
    ensures var out := Step(p, s, i);
            && out.state.mode == TERMINATED && out.state.pending.None? && out.state.lastAccepted == s.lastAccepted
            && out.delta == p.zero && out.state.pid == s.pid
            && forall a <- out.acks :: a.status !in {APPLIED, APPLIED_LATE, QUEUED, PREEMPTED, REJECTED_PENDING}
  {
    hide CommandPhase, SettleCount;
    CommandPhaseKeeps(s, i);
  }
}
