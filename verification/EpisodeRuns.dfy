/** What every episode run keeps: order of modes, the settle counter and the command ledger. */
module EpisodeRuns {
  import opened Basics
  import opened Episode

  /** Every state of a run from the initial one is well formed. */
  lemma {:induction false} RunWellFormed<F>(p: Policy<F>, autoArm: bool, inputs: seq<Inputs<F>>)
    requires ProperRun(inputs)
    ensures WellFormed(After(p, Initial(p, autoArm), inputs))
    decreases |inputs|
  {
    hide Step;
    if inputs == [] {
      InitialWellFormed(p, autoArm);
    } else {
      var init := inputs[..|inputs| - 1];
      RunWellFormed(p, autoArm, init);
      StepKeeps(p, After(p, Initial(p, autoArm), init), inputs[|inputs| - 1]);
    }
  }

  /** Modes only move forward, and a terminated state never changes again. */
  lemma {:induction false} RunMovesForward<F>(p: Policy<F>, autoArm: bool, inputs: seq<Inputs<F>>, n: nat)
    requires ProperRun(inputs) && n <= |inputs|
    ensures var s, t := After(p, Initial(p, autoArm), inputs[..n]), After(p, Initial(p, autoArm), inputs);
            s.mode.Code() <= t.mode.Code() && (s.terminal.Some? ==> t == s)
    decreases |inputs|
  {
    hide Step;
    if n == |inputs| {
      assert inputs[..n] == inputs;
    } else {
      var init := inputs[..|inputs| - 1];
      assert init[..n] == inputs[..n];
      RunMovesForward(p, autoArm, init, n);
      RunWellFormed(p, autoArm, init);
      StepKeeps(p, After(p, Initial(p, autoArm), init), inputs[|inputs| - 1]);
    }
  }

  // The settle counter

  predicate HeldInBox<F>(p: Policy<F>, i: Inputs<F>) {
    i.held.Some? && p.inBox(i.held.value.theta, i.held.value.omega)
  }

  /** The length of the trailing run of in-box held samples. */
  function Trailing<F>(p: Policy<F>, inputs: seq<Inputs<F>>): nat
    decreases |inputs|
  {
    if inputs == [] || !HeldInBox(p, inputs[|inputs| - 1]) then 0
    else 1 + Trailing(p, inputs[..|inputs| - 1])
  }

  predicate LiveBefore<F>(p: Policy<F>, s: State<F>, inputs: seq<Inputs<F>>)
    requires ProperRun(inputs) && inputs != []
  {
    After(p, s, inputs[..|inputs| - 1]).mode != TERMINATED
  }

  lemma StepCounts<F>(p: Policy<F>, s: State<F>, inputs: Inputs<F>)
    requires inputs.Admitted() && s.mode != TERMINATED
    ensures Step(p, s, inputs).state.settleCount == SettleCount(p, s.settleCount, inputs.held)
  {}

  /** As long as the episode was live, the counter is the trailing run, capped at 1000. */
  lemma {:induction false} SettleIsTrailing<F>(p: Policy<F>, autoArm: bool, inputs: seq<Inputs<F>>)
    requires ProperRun(inputs)
    requires inputs == [] || LiveBefore(p, Initial(p, autoArm), inputs)
    ensures After(p, Initial(p, autoArm), inputs).settleCount == Min(1000, Trailing(p, inputs))
    decreases |inputs|
  {
    hide Step;
    if inputs != [] {
      var init := inputs[..|inputs| - 1];
      if init != [] {
        RunMovesForward(p, autoArm, init, |init| - 1);
        TerminatedCode(After(p, Initial(p, autoArm), init[..|init| - 1]).mode);
        TerminatedCode(After(p, Initial(p, autoArm), init).mode);
      }
      SettleIsTrailing(p, autoArm, init);
      StepCounts(p, After(p, Initial(p, autoArm), init), inputs[|inputs| - 1]);
    }
  }

  lemma TerminatedCode(m: Mode)
    ensures m == TERMINATED <==> m.Code() >= 3
  {}

  /** Every held sample from cycle `lo` up to cycle `hi` was in the box. */
  predicate WindowInBox<F>(p: Policy<F>, inputs: seq<Inputs<F>>, lo: int, hi: int) {
    0 <= lo <= hi <= |inputs| && forall j | lo <= j < hi :: HeldInBox(p, inputs[j])
  }

  /** The thousand held samples before cycle `n` were in the box. */
  predicate SettledAt<F>(p: Policy<F>, inputs: seq<Inputs<F>>, n: nat) { WindowInBox(p, inputs, n - 1000, n) }

  lemma {:induction false} TrailingInBox<F>(p: Policy<F>, inputs: seq<Inputs<F>>, n: nat)
    ensures Trailing(p, inputs) >= n <==> WindowInBox(p, inputs, |inputs| - n, |inputs|)
    decreases |inputs|
  {
    if inputs == [] || n == 0 {
    } else {
      var init := inputs[..|inputs| - 1];
      TrailingInBox(p, init, n - 1);
      if HeldInBox(p, inputs[|inputs| - 1]) {
        if WindowInBox(p, init, |inputs| - n, |init|) {
          assert forall j | |inputs| - n <= j < |init| :: inputs[j] == init[j];
        }
        if WindowInBox(p, inputs, |inputs| - n, |inputs|) {
          assert forall j | |inputs| - n <= j < |init| :: inputs[j] == init[j];
        }
      }
    }
  }

  lemma ReasonByCount<F>(p: Policy<F>, i: Inputs<F>, count: nat)
    requires Proper(i)
    ensures TerminalReason(p, i, count) == STABILIZED ==> count == 1000
    ensures TerminalReason(p, i, 1000) == STABILIZED ==>
              TerminalReason(p, i, count) == if count == 1000 then STABILIZED else NOT_SETTLED
  {}

  lemma StepTerminates<F>(p: Policy<F>, s: State<F>, i: Inputs<F>)
    requires WellFormed(s) && Proper(i) && s.mode != TERMINATED
    ensures var t, why := Step(p, s, i).state.terminal, TerminalReason(p, i, SettleCount(p, s.settleCount, i.held));
            && (why != NONE ==> t == Some(Terminal(why, i.tick)))
            && (why == NONE && t.Some? ==> t == Some(Terminal(GROUND_ABORT, i.tick)))
  {
    hide TerminalReason, CommandPhase;
    CommandPhaseKeeps(s, i);
  }

  /** An episode that reaches its horizon with nothing else wrong is STABILIZED exactly when the last thousand
      held samples were all in the box. */
  lemma StabilizedExactlyWhenSettled<F>(p: Policy<F>, autoArm: bool, inputs: seq<Inputs<F>>)
    requires ProperRun(inputs) && inputs != [] && LiveBefore(p, Initial(p, autoArm), inputs)
    requires TerminalReason(p, inputs[|inputs| - 1], 1000) == STABILIZED
    ensures var t := After(p, Initial(p, autoArm), inputs).terminal;
            && t.Some?
            && t.value.reason == if WindowInBox(p, inputs, |inputs| - 1000, |inputs|) then STABILIZED else NOT_SETTLED
  {
    hide Step, TerminalReason, SettleCount;
    var last := |inputs| - 1;
    var s := After(p, Initial(p, autoArm), inputs[..last]);
    RunWellFormed(p, autoArm, inputs[..last]);
    SettleIsTrailing(p, autoArm, inputs);
    StepCounts(p, s, inputs[last]);
    TrailingInBox(p, inputs, 1000);
    ReasonByCount(p, inputs[last], SettleCount(p, s.settleCount, inputs[last].held));
    StepTerminates(p, s, inputs[last]);
  }

  /** Whatever happens in a run, STABILIZED is only ever reported after a thousand consecutive in-box cycles. */
  lemma {:induction false} StabilizedImpliesSettled<F>(p: Policy<F>, autoArm: bool, inputs: seq<Inputs<F>>)
    requires ProperRun(inputs)
    requires var t := After(p, Initial(p, autoArm), inputs).terminal; t.Some? && t.value.reason == STABILIZED
    ensures exists n: nat :: SettledAt(p, inputs, n)
    decreases |inputs|
  {
    hide Step, TerminalReason, SettleCount;
    RunWellFormed(p, autoArm, inputs);
    assert inputs != [];
    var last := |inputs| - 1;
    var init := inputs[..last];
    var s := After(p, Initial(p, autoArm), init);
    RunWellFormed(p, autoArm, init);
    if LiveBefore(p, Initial(p, autoArm), inputs) {
      SettleIsTrailing(p, autoArm, inputs);
      StepCounts(p, s, inputs[last]);
      TrailingInBox(p, inputs, 1000);
      ReasonByCount(p, inputs[last], SettleCount(p, s.settleCount, inputs[last].held));
      StepTerminates(p, s, inputs[last]);
      assert SettledAt(p, inputs, |inputs|);
    } else {
      StepKeeps(p, s, inputs[last]);
      StabilizedImpliesSettled(p, autoArm, init);
      var n: nat :| SettledAt(p, init, n);
      assert forall j | n - 1000 <= j < n :: init[j] == inputs[j];
      assert SettledAt(p, inputs, n);
    }
  }

  // The command ledger

  function Arrivals<F>(s: State<F>, i: Inputs<F>): nat {
    if s.mode != TERMINATED && i.command.Some? then 1 else 0
  }

  /** The sequence number queued in a cycle, read off its acknowledgements. */
  function QueuedIn<F>(s: State<F>, i: Inputs<F>, acks: seq<Ack>): seq<u32> {
    if Arrivals(s, i) == 1 && acks != [] && acks[0].status == QUEUED then [acks[0].cmdSeq] else []
  }

  /** The sequence numbers resolved in a cycle: every acknowledgement after the arrival's. */
  function ResolvedIn<F>(s: State<F>, i: Inputs<F>, acks: seq<Ack>): seq<u32> {
    if |acks| > Arrivals(s, i) then [acks[|acks| - 1].cmdSeq] else []
  }

  function PendingSeq<F>(s: State<F>): seq<u32> {
    if s.pending.Some? then [s.pending.value.cmdSeq] else []
  }

  predicate Resolution(a: AckStatus) { a == APPLIED || a == APPLIED_LATE || a == REJECTED_STATE || a == PREEMPTED }

  /** One arrival acknowledgement for each command, and at most one resolution. */
  predicate Ledger<F>(s: State<F>, i: Inputs<F>, out: Output<F>) {
    var n := Arrivals(s, i);
    && n <= |out.acks| <= n + 1
    && (n == 1 ==> out.acks[0].cmdSeq == i.command.value.cmdSeq && out.acks[0].status != PREEMPTED)
    && (|out.acks| > n ==> Resolution(out.acks[n].status) && s.pending.Some?)
    && PendingSeq(s) + QueuedIn(s, i, out.acks) == ResolvedIn(s, i, out.acks) + PendingSeq(out.state)
  }

  lemma TerminateLedger<F>(p: Policy<F>, s: State<F>, i: Inputs<F>, count: nat, reason: Reason)
    requires s.mode != TERMINATED
    ensures Ledger(s, i, Terminate(p, s, i, count, reason))
  {}

  lemma CommandLedger<F>(s: State<F>, i: Inputs<F>)
    requires s.mode != TERMINATED
    ensures var k := CommandPhase(s, i);
            && (k.arrivalAck.Some? <==> i.command.Some?)
            && (k.arrivalAck.Some? ==> k.arrivalAck.value.cmdSeq == i.command.value.cmdSeq
                                       && k.arrivalAck.value.status != PREEMPTED)
            && (k.pendingAck.Some? ==> Resolution(k.pendingAck.value.status) && s.pending.Some?
                                       && k.pendingAck.value.cmdSeq == s.pending.value.cmdSeq)
            && (if k.arrivalAck.Some? && k.arrivalAck.value.status == QUEUED
                then k.pending == i.command && (k.pendingAck.Some? <==> s.pending.Some?)
                else if k.pendingAck.Some? then k.pending.None? else k.pending == s.pending)
  {}

  lemma FlyLedger<F>(p: Policy<F>, s: State<F>, i: Inputs<F>, count: nat)
    requires s.mode != TERMINATED && i.Admitted()
    ensures Ledger(s, i, Fly(p, s, i, count))
  {
    hide CommandPhase;
    CommandLedger(s, i);
  }

  lemma StepLedger<F>(p: Policy<F>, s: State<F>, i: Inputs<F>)
    requires WellFormed(s) && Proper(i)
    ensures Ledger(s, i, Step(p, s, i))
  {
    hide TerminalReason, SettleCount, Terminate, Fly, Ledger;
    var count := SettleCount(p, s.settleCount, i.held);
    if s.mode == TERMINATED {
      DeadLedger(p, s, i);
    } else {
      TerminateLedger(p, s, i, count, TerminalReason(p, i, count));
      FlyLedger(p, s, i, count);
    }
  }

  lemma DeadLedger<F>(p: Policy<F>, s: State<F>, i: Inputs<F>)
    requires WellFormed(s) && s.mode == TERMINATED
    ensures Ledger(s, i, Output(s, p.zero, []))
  {}

  function Queued<F>(p: Policy<F>, s: State<F>, inputs: seq<Inputs<F>>): seq<u32>
    requires ProperRun(inputs)
    decreases |inputs|
  {
    if inputs == [] then [] else
      var n := |inputs| - 1;
      Queued(p, s, inputs[..n]) + QueuedIn(After(p, s, inputs[..n]), inputs[n], LastOutput(p, s, inputs).acks)
  }

  function Resolved<F>(p: Policy<F>, s: State<F>, inputs: seq<Inputs<F>>): seq<u32>
    requires ProperRun(inputs)
    decreases |inputs|
  {
    if inputs == [] then [] else
      var n := |inputs| - 1;
      Resolved(p, s, inputs[..n]) + ResolvedIn(After(p, s, inputs[..n]), inputs[n], LastOutput(p, s, inputs).acks)
  }

  /** Every queued command is resolved exactly once, in order, or is the one still pending. */
  lemma {:induction false} QueuedAreResolvedOrPending<F>(p: Policy<F>, autoArm: bool, inputs: seq<Inputs<F>>)
    requires ProperRun(inputs)
    ensures var s0 := Initial(p, autoArm);
            && Queued(p, s0, inputs) == Resolved(p, s0, inputs) + PendingSeq(After(p, s0, inputs))
            && (After(p, s0, inputs).mode == TERMINATED ==> Queued(p, s0, inputs) == Resolved(p, s0, inputs))
    decreases |inputs|
  {
    hide Step, QueuedIn, ResolvedIn;
    RunWellFormed(p, autoArm, inputs);
    if inputs != [] {
      var s0, n := Initial(p, autoArm), |inputs| - 1;
      var init := inputs[..n];
      var s, t := After(p, s0, init), After(p, s0, inputs);
      var acks := LastOutput(p, s0, inputs).acks;
      QueuedAreResolvedOrPending(p, autoArm, init);
      RunWellFormed(p, autoArm, init);
      StepLedger(p, s, inputs[n]);
      var before := Resolved(p, s0, init);
      assert (before + PendingSeq(s)) + QueuedIn(s, inputs[n], acks)
          == before + (PendingSeq(s) + QueuedIn(s, inputs[n], acks));
      assert (before + ResolvedIn(s, inputs[n], acks)) + PendingSeq(t)
          == before + (ResolvedIn(s, inputs[n], acks) + PendingSeq(t));
    }
  }

  // Serial numbers

  /** `c` is at most 2^31 behind the last accepted command, or is that command. */
  predicate Behind(c: Command, last: Option<Command>) {
    last.Some? && Gap(last.value.cmdSeq, c.cmdSeq) <= 0x8000_0000
  }

  /** Such a command changes nothing: the cycle ends in the state it would have reached without it. */
  lemma BehindIsInert<F>(p: Policy<F>, s: State<F>, i: Inputs<F>)
    requires Proper(i) && s.mode != TERMINATED && i.command.Some? && Behind(i.command.value, s.lastAccepted)
    ensures var out, quiet := Step(p, s, i), Step(p, s, i.(command := None));
            && out.state == quiet.state && out.delta == quiet.delta && |out.acks| > 0
            && out.acks[1..] == quiet.acks
            && out.acks[0].status in {DUPLICATE, REJECTED_IDENTITY, REJECTED_STALE, REJECTED_OPCODE}
  {
    hide TerminalReason, Prefix;
    ReasonIgnoresCommand(p, i, SettleCount(p, s.settleCount, i.held));
    BehindRefused(i.command.value, s.lastAccepted);
  }

  lemma ReasonIgnoresCommand<F>(p: Policy<F>, i: Inputs<F>, count: nat)
    requires i.Admitted()
    ensures TerminalReason(p, i, count) == TerminalReason(p, i.(command := None), count)
  {}

  lemma BehindRefused(c: Command, last: Option<Command>)
    requires Behind(c, last)
    ensures Prefix(c, last).Some?
    ensures Prefix(c, last).value in {DUPLICATE, REJECTED_IDENTITY, REJECTED_STALE, REJECTED_OPCODE}
  {}

  /** The commands a run accepted, in order. */
  function Accepted<F>(p: Policy<F>, autoArm: bool, inputs: seq<Inputs<F>>): seq<Command>
    requires ProperRun(inputs)
    decreases |inputs|
  {
    if inputs == [] then [] else
      Accepted(p, autoArm, inputs[..|inputs| - 1]) +
        AcceptedIn(After(p, Initial(p, autoArm), inputs[..|inputs| - 1]), After(p, Initial(p, autoArm), inputs))
  }

  function AcceptedIn<F>(s: State<F>, t: State<F>): (cs: seq<Command>)
    ensures |cs| <= 1
  {
    if t.lastAccepted.Some? && t.lastAccepted != s.lastAccepted then [t.lastAccepted.value] else []
  }

  function AppliedIn(acks: seq<Ack>): seq<u32> {
    if acks == [] then []
    else (if IsApplied(acks[0]) then [acks[0].cmdSeq] else []) + AppliedIn(acks[1..])
  }

  /** The sequence numbers a run applied, in order. */
  function Applied<F>(p: Policy<F>, autoArm: bool, inputs: seq<Inputs<F>>): seq<u32>
    requires ProperRun(inputs)
    decreases |inputs|
  {
    if inputs == [] then [] else
      Applied(p, autoArm, inputs[..|inputs| - 1]) + AppliedIn(LastOutput(p, Initial(p, autoArm), inputs).acks)
  }

  /** `small` is what is left of the sequence numbers of `all` after deleting some. */
  predicate PickedFrom(small: seq<u32>, all: seq<Command>)
    decreases |all|
  {
    if small == [] then true
    else if all == [] then false
    else if small[|small| - 1] == all[|all| - 1].cmdSeq && PickedFrom(small[..|small| - 1], all[..|all| - 1]) then true
    else PickedFrom(small, all[..|all| - 1])
  }

  predicate Serial(cs: seq<Command>) {
    forall k | 1 <= k < |cs| :: 1 <= Gap(cs[k].cmdSeq, cs[k - 1].cmdSeq) < 0x8000_0000
  }

  function LastOf(cs: seq<Command>): Option<Command> {
    if cs == [] then None else Some(cs[|cs| - 1])
  }

  function AppliedSeq(a: Option<Ack>): seq<u32> {
    if a.Some? && IsApplied(a.value) then [a.value.cmdSeq] else []
  }

  lemma AppliedInSome2(a: Option<Ack>, b: Option<Ack>)
    ensures AppliedIn(Some2(a, b)) == AppliedSeq(a) + AppliedSeq(b)
  {
    var acks := Some2(a, b);
    if a.Some? && b.Some? {
      assert acks == [a.value, b.value] && acks[1..] == [b.value] && acks[1..][1..] == [];
      assert AppliedIn(acks[1..]) == AppliedSeq(b) + [];
    } else if |acks| == 1 {
      assert acks[1..] == [];
    }
  }

  /** At most one command is applied in a cycle: the pending one, or the one accepted now. */
  lemma CommandsSerial<F>(s: State<F>, i: Inputs<F>)
    requires WellFormed(s) && s.mode != TERMINATED
    ensures var k := CommandPhase(s, i);
            && (k.last != s.lastAccepted ==> k.last == i.command && i.command.Some?)
            && (k.last != s.lastAccepted && s.lastAccepted.Some? ==>
                  1 <= Gap(k.last.value.cmdSeq, s.lastAccepted.value.cmdSeq) < 0x8000_0000)
            && (AppliedSeq(k.arrivalAck) != [] ==>
                  && k.last != s.lastAccepted && k.pending.None? && AppliedSeq(k.pendingAck) == []
                  && AppliedSeq(k.arrivalAck) == [k.last.value.cmdSeq])
            && (AppliedSeq(k.pendingAck) != [] ==>
                  && AppliedSeq(k.pendingAck) == PendingSeq(s) && k.pending.None? && k.last == s.lastAccepted)
            && (k.pending.Some? && k.last == s.lastAccepted ==> k.pending == s.pending)
  {}

  lemma TerminateAppliesNothing<F>(p: Policy<F>, s: State<F>, i: Inputs<F>, count: nat, reason: Reason)
    ensures AppliedIn(Terminate(p, s, i, count, reason).acks) == []
  {
    hide AppliedIn;
    var arrival := if i.command.None? then None else
      var refusal := Prefix(i.command.value, s.lastAccepted);
      Some(Ack(i.command.value.cmdSeq, if refusal.Some? then refusal.value else REJECTED_STATE, 0,
               TERMINATED, reason));
    var dropped := if s.pending.None? then None else
      Some(Ack(s.pending.value.cmdSeq, REJECTED_STATE, 0, TERMINATED, reason));
    AppliedInSome2(arrival, dropped);
  }

  /** What a cycle adds to the accepted and applied lists. */
  lemma StepSerial<F>(p: Policy<F>, s: State<F>, i: Inputs<F>)
    requires WellFormed(s) && Proper(i)
    ensures var out := Step(p, s, i);
            var now, entering := AppliedIn(out.acks), AcceptedIn(s, out.state);
            && out.state.lastAccepted == (if entering == [] then s.lastAccepted else Some(entering[0]))
            && (entering != [] && s.lastAccepted.Some? ==>
                  1 <= Gap(entering[0].cmdSeq, s.lastAccepted.value.cmdSeq) < 0x8000_0000)
            && (now == []
                || (entering == [] && now == PendingSeq(s) && |now| == 1 && out.state.pending.None?)
                || (entering != [] && now == [entering[0].cmdSeq] && out.state.pending.None?))
            && (out.state.pending.Some? && entering == [] ==> out.state.pending == s.pending)
  {
    hide TerminalReason, SettleCount, CommandPhase, Terminate, AppliedIn, Gap;
    if s.mode == TERMINATED {
      AppliedInSome2(None, None);
    } else {
      var count := SettleCount(p, s.settleCount, i.held);
      var reason := TerminalReason(p, i, count);
      if reason != NONE {
        TerminateAppliesNothing(p, s, i, count, reason);
        TerminateKeepsAccepted(p, s, i, count, reason);
      } else {
        var k := CommandPhase(s, i);
        CommandsSerial(s, i);
        AppliedInSome2(k.arrivalAck, k.pendingAck);
      }
    }
  }

  lemma TerminateKeepsAccepted<F>(p: Policy<F>, s: State<F>, i: Inputs<F>, count: nat, reason: Reason)
    ensures var t := Terminate(p, s, i, count, reason).state; t.lastAccepted == s.lastAccepted && t.pending.None?
  {}

  /** Accepted commands advance by less than 2^31 each; each is applied at most once, in order. */
  lemma {:induction false} AppliedAreAccepted<F>(p: Policy<F>, autoArm: bool, inputs: seq<Inputs<F>>)
    requires ProperRun(inputs)
    ensures var cs, t := Accepted(p, autoArm, inputs), After(p, Initial(p, autoArm), inputs);
            && Serial(cs) && LastOf(cs) == t.lastAccepted
            && PickedFrom(Applied(p, autoArm, inputs), cs)
            && (t.pending.Some? ==> cs != [] && PickedFrom(Applied(p, autoArm, inputs), cs[..|cs| - 1]))
    decreases |inputs|
  {
    hide Step, AppliedIn, Gap, PickedFrom, AcceptedIn, Serial, WellFormed;
    if inputs == [] {
      PickNothing();
    } else {
      var n := |inputs| - 1;
      var s, out := After(p, Initial(p, autoArm), inputs[..n]), LastOutput(p, Initial(p, autoArm), inputs);
      AppliedAreAccepted(p, autoArm, inputs[..n]);
      RunWellFormed(p, autoArm, inputs[..n]);
      RunWellFormed(p, autoArm, inputs);
      StepSerial(p, s, inputs[n]);
      PendingIsLast(s);
      PendingIsLast(out.state);
      var done, cs := Applied(p, autoArm, inputs[..n]), Accepted(p, autoArm, inputs[..n]);
      var now, entering := AppliedIn(out.acks), AcceptedIn(s, out.state);
      LedgerStep(done, cs, now, entering, PendingSeq(s));
    }
  }

  lemma LedgerStep(done: seq<u32>, cs: seq<Command>, now: seq<u32>, entering: seq<Command>, pending: seq<u32>)
    requires |entering| <= 1 && Serial(cs) && PickedFrom(done, cs)
    requires entering != [] && cs != [] ==> 1 <= Gap(entering[0].cmdSeq, cs[|cs| - 1].cmdSeq) < 0x8000_0000
    requires pending != [] ==> cs != [] && pending == [cs[|cs| - 1].cmdSeq] && PickedFrom(done, cs[..|cs| - 1])
    requires now == [] || (entering == [] && now == pending) || (entering != [] && now == [entering[0].cmdSeq])
    ensures Serial(cs + entering) && PickedFrom(done + now, cs + entering)
    ensures LastOf(cs + entering) == if entering == [] then LastOf(cs) else Some(entering[0])
    ensures now == [] && entering == [] && pending != []
            ==> PickedFrom(done + now, (cs + entering)[..|cs + entering| - 1])
    ensures now == [] && entering != [] ==> PickedFrom(done + now, (cs + entering)[..|cs + entering| - 1])
  {
    hide PickedFrom, Gap, Serial, LastOf;
    assert done + [] == done && cs + [] == cs;
    if entering != [] {
      assert entering == [entering[0]];
      PickAccepted(done, cs, entering[0]);
      SerialExtends(cs, entering[0]);
    } else if now != [] {
      PickAccepted(done, cs[..|cs| - 1], cs[|cs| - 1]);
      assert cs[..|cs| - 1] + [cs[|cs| - 1]] == cs;
    }
  }

  lemma SerialExtends(cs: seq<Command>, c: Command)
    requires Serial(cs)
    requires cs != [] ==> 1 <= Gap(c.cmdSeq, cs[|cs| - 1].cmdSeq) < 0x8000_0000
    ensures Serial(cs + [c]) && LastOf(cs + [c]) == Some(c)
  {
    hide Gap;
  }

  lemma PendingIsLast<F>(s: State<F>)
    requires WellFormed(s)
    ensures s.pending.Some? ==> s.pending == s.lastAccepted
  {}

  lemma PickNothing()
    ensures PickedFrom([], []) && Serial([])
  {}

  lemma PickAccepted(done: seq<u32>, all: seq<Command>, c: Command)
    requires PickedFrom(done, all)
    ensures PickedFrom(done, all + [c]) && PickedFrom(done + [c.cmdSeq], all + [c])
    ensures (all + [c])[..|all|] == all
  {
    assert (all + [c])[..|all|] == all && (done + [c.cmdSeq])[..|done|] == done;
  }

  /** Total serial advance over a list of accepted commands. */
  function Advance(cs: seq<Command>): nat
    decreases |cs|
  {
    if |cs| < 2 then 0
    else Advance(cs[..|cs| - 1]) + Gap(cs[|cs| - 1].cmdSeq, cs[|cs| - 2].cmdSeq)
  }

  lemma {:induction false} AdvanceIsDistance(cs: seq<Command>)
    requires cs != []
    ensures (cs[0].cmdSeq + Advance(cs)) % TWO32 == cs[|cs| - 1].cmdSeq
    ensures Serial(cs) ==> Advance(cs) >= |cs| - 1
    decreases |cs|
  {
    if |cs| >= 2 {
      AdvanceIsDistance(cs[..|cs| - 1]);
      AddGap(cs[0].cmdSeq + Advance(cs[..|cs| - 1]), cs[|cs| - 2].cmdSeq, cs[|cs| - 1].cmdSeq);
    }
  }

  lemma AddGap(x: nat, a: u32, b: u32)
    requires x % TWO32 == a
    ensures (x + Gap(b, a)) % TWO32 == b
  {}

  /** A sequence number can come back only after the accepted numbers have gone all the way round. */
  lemma ReuseNeedsFullCircle(cs: seq<Command>, i: nat, j: nat)
    requires Serial(cs) && i < j < |cs| && cs[i].cmdSeq == cs[j].cmdSeq
    ensures Advance(cs[i..j + 1]) >= TWO32
  {
    var w := cs[i..j + 1];
    assert Serial(w) by {
      forall k | 1 <= k < |w|
        ensures 1 <= Gap(w[k].cmdSeq, w[k - 1].cmdSeq) < 0x8000_0000
      {
        assert w[k] == cs[i + k] && w[k - 1] == cs[i + k - 1];
      }
    }
    AdvanceIsDistance(w);
    FullCircle(w[0].cmdSeq, Advance(w));
  }

  lemma FullCircle(a: u32, d: nat)
    requires d >= 1 && (a + d) % TWO32 == a
    ensures d >= TWO32
  {}

  lemma {:induction false} PickedOnce(small: seq<u32>, all: seq<Command>, a: nat) returns (i: nat)
    requires PickedFrom(small, all) && a < |small|
    ensures i < |all| && all[i].cmdSeq == small[a]
    decreases |all|
  {
    var s0, a0 := small[..|small| - 1], all[..|all| - 1];
    if small[|small| - 1] == all[|all| - 1].cmdSeq && PickedFrom(s0, a0) {
      if a == |small| - 1 {
        i := |all| - 1;
      } else {
        i := PickedOnce(s0, a0, a);
      }
    } else {
      i := PickedOnce(small, a0, a);
    }
  }

  lemma {:induction false} PickedInOrder(small: seq<u32>, all: seq<Command>, a: nat, b: nat) returns (i: nat, j: nat)
    requires PickedFrom(small, all) && a < b < |small|
    ensures i < j < |all| && all[i].cmdSeq == small[a] && all[j].cmdSeq == small[b]
    decreases |all|
  {
    var s0, a0 := small[..|small| - 1], all[..|all| - 1];
    if small[|small| - 1] == all[|all| - 1].cmdSeq && PickedFrom(s0, a0) {
      if b == |small| - 1 {
        i := PickedOnce(s0, a0, a);
        j := |all| - 1;
      } else {
        i, j := PickedInOrder(s0, a0, a, b);
      }
    } else {
      i, j := PickedInOrder(small, a0, a, b);
    }
  }

  /** Over any run, applying one sequence number twice takes a full circle of accepted commands in between. */
  lemma ReplayNeedsFullCircle<F>(p: Policy<F>, autoArm: bool, inputs: seq<Inputs<F>>, a: nat, b: nat)
    returns (i: nat, j: nat)
    requires ProperRun(inputs)
    requires var done := Applied(p, autoArm, inputs); a < b < |done| && done[a] == done[b]
    ensures var cs, done := Accepted(p, autoArm, inputs), Applied(p, autoArm, inputs);
            i < j < |cs| && cs[i].cmdSeq == cs[j].cmdSeq == done[a] && Advance(cs[i..j + 1]) >= TWO32
  {
    AppliedAreAccepted(p, autoArm, inputs);
    i, j := PickedInOrder(Applied(p, autoArm, inputs), Accepted(p, autoArm, inputs), a, b);
    ReuseNeedsFullCircle(Accepted(p, autoArm, inputs), i, j);
  }
}
