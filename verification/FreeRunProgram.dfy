/** The free-run loop as the control thread runs it, over one admission object. */
module FreeRunProgram {
  import opened Basics
  import opened Episode
  import opened Payload
  import A = Admission
  import opened AdmissionRuns
  import opened AdmissionSlots
  import AdmissionClass
  import opened FreeRun

  /** Begin, receive the batch, finish. */
  method AdmitCycle(admission: AdmissionClass.AdmissionControl, tick: u64, packets: seq<A.Packet>)
    requires admission.Valid() && Kept(admission.cfg, admission.Value())
    modifies admission, admission.future
    ensures admission.Valid() && (admission.future == old(admission.future) || fresh(admission.future))
    ensures admission.Value() == CycleOf(admission.cfg, old(admission.Value()), tick, packets)
  {
    hide Kept, A.BeginCycle, A.Received, A.Finished, A.CanBegin;
    ghost var cfg, s := admission.cfg, admission.Value();
    KeptSlots(cfg, s);
    BegunKeeps(cfg, s, tick);
    var ok := admission.BeginCycle(tick);
    ghost var o := admission.Value();
    for k := 0 to |packets|
      invariant admission.Valid() && (admission.future == old(admission.future) || fresh(admission.future))
      invariant Kept(cfg, o) && admission.Value() == Batch(cfg, o, packets[..k])
    {
      assert packets[..k + 1][..k] == packets[..k];
      var kind := admission.Receive(packets[k]);
    }
    assert packets[..|packets|] == packets;
    admission.FinishCycle();
  }

  method CountSend(before: Runtime, terminal: bool, success: bool) returns (r: Runtime)
    ensures r == before.(
      terminalCycle := if terminal then 1 else before.terminalCycle,
      firstTerminalTxOk := if terminal then success else before.firstTerminalTxOk,
      termAttempts := if terminal then 1 else before.termAttempts,
      termSent := before.termSent + if terminal && success then 1 else 0,
      termFailed := before.termFailed + if terminal && !success then 1 else 0,
      normalSent := before.normalSent + if !terminal && success then 1 else 0,
      normalFailed := before.normalFailed + if !terminal && !success then 1 else 0)
  {
    r := before;
    if terminal {
      r := r.(firstTerminalTxOk := success, terminalCycle := 1, termAttempts := 1);
      if success { r := r.(termSent := r.termSent + 1); } else { r := r.(termFailed := r.termFailed + 1); }
    } else if success {
      r := r.(normalSent := r.normalSent + 1);
    } else {
      r := r.(normalFailed := r.normalFailed + 1);
    }
  }

  method CountReceive(before: Runtime, i: CycleInput, a: A.State, simSeen: Option<u32>, inWindow: bool)
    returns (r: Runtime)
    requires a.terminals.receivedRaw >= before.admission.terminals.receivedRaw
    ensures r == before.(
      receiveBatches := before.receiveBatches + 1, admission := a, simSeen := simSeen,
      receiveErrors := before.receiveErrors + if i.batch.None? then 1 else 0,
      terminalReceivedRecorded := before.terminalReceivedRecorded
        + if inWindow then a.terminals.receivedRaw - before.admission.terminals.receivedRaw else 0)
  {
    r := before.(receiveBatches := before.receiveBatches + 1, admission := a, simSeen := simSeen);
    if i.batch.None? { r := r.(receiveErrors := r.receiveErrors + 1); }
    if inWindow {
      r := r.(terminalReceivedRecorded :=
                r.terminalReceivedRecorded + a.terminals.receivedRaw - before.admission.terminals.receivedRaw);
    }
  }

  method CountDecision(before: Runtime, state: State<word>, isFresh: bool) returns (r: Runtime)
    ensures r == before.(state := state, cycles := before.cycles + 1,
                         pidCalls := before.pidCalls + if isFresh && state.mode == FLYING then 1 else 0)
  {
    r := before.(state := state, cycles := before.cycles + 1);
    if isFresh && r.state.mode == FLYING { r := r.(pidCalls := r.pidCalls + 1); }
  }

  method CountRecord(before: Runtime, pushed: bool, rec: Control) returns (r: Runtime)
    ensures r == before.(pushed := before.pushed + (if pushed then 1 else 0),
                         drops := before.drops + (if pushed then 0 else 1),
                         records := if pushed then before.records + [rec] else before.records)
  {
    if pushed {
      r := before.(pushed := before.pushed + 1, records := before.records + [rec]);
    } else {
      r := before.(drops := before.drops + 1);
    }
  }

  /** The counting of a cycle, in program order. */
  method Account(before: Runtime, i: CycleInput, a: A.State, out: Output<word>, rec: Control, simSeen: Option<u32>,
                 inWindow: bool) returns (r: Runtime)
    requires a.terminals.receivedRaw >= before.admission.terminals.receivedRaw
    ensures r == Counted(before, i, a, out, rec, simSeen, inWindow)
  {
    hide Window.Record, Rung;
    var isFresh, terminal := a.cycle.admitted.Some?, out.state.mode == TERMINATED;
    r := CountReceive(before, i, a, simSeen, inWindow);
    r := CountDecision(r, out.state, isFresh);
    r := CountSend(r, terminal, i.success);
    r := CountRecord(r, i.pushed, rec);
    r := r.(episodeWindow := r.episodeWindow.Record(Rung(a.cycle.staleness, isFresh), terminal, i.success, isFresh));
  }

  /** One scheduled cycle. */
  method CycleInPlace(cfg: Config, r: Runtime, carry: A.Packet, i: CycleInput,
                      admission: AdmissionClass.AdmissionControl)
    returns (t: Runtime)
    requires cfg.Valid() && Between(cfg, r) && r.cycles < cfg.Total() && i.Valid()
    requires admission.Valid() && admission.cfg == cfg.Admission() && admission.Value() == r.admission
    modifies admission, admission.future
    ensures admission.Valid() && (admission.future == old(admission.future) || fresh(admission.future))
    ensures t == Cycle(cfg, r, carry, i) && admission.Value() == t.admission
  {
    hide Kept, CycleOf, RecordOf, Step, Counted, Accounted;
    var n := r.cycles;
    NoticesGrow(cfg, r, carry, i);
    AdmitCycle(admission, cfg.tickBase + n, Packets(n, carry, i));
    var a := admission.Value();
    assert a == AdmissionOf(cfg, r, carry, i);
    var simSeen := if a.cycle.terminal.Some? then Some(a.cycle.terminal.value.reason) else r.simSeen;
    var inputs := InputsOf(cfg, n, a, simSeen, i.stopping);
    var out := Step(cfg.policy, r.state, inputs);
    var rec := RecordOf(cfg, n, a, out, i, r.drops);
    t := Account(r, i, a, out, rec, simSeen, n >= cfg.warmup);
    if n >= cfg.warmup { t := Accounted(t, cfg, n, a, i, rec, out.state.mode == TERMINATED); }
    t := t.(previousWoke := i.woke);
    CycleAdmission(cfg, r, carry, i);
  }

  /** The loop over the scheduled cycles, until the terminal cycle, a failed sleep or the last cycle. */
  method RunFreerun(cfg: Config, carry: A.Packet, inputs: seq<CycleInput>, admission: AdmissionClass.AdmissionControl)
    returns (r: Runtime)
    requires cfg.Valid() && ValidInputs(inputs)
    requires admission.Valid() && admission.cfg == cfg.Admission() && admission.Value() == A.Initial(cfg.Admission())
    modifies admission, admission.future
    ensures r == Loop(cfg, carry, inputs) && admission.Valid() && admission.Value() == r.admission
  {
    hide Cycle, Kept, Loop, A.Initial;
    r := BeginRun(cfg);
    LoopNothing(cfg, carry, inputs);
    for k := 0 to |inputs|
      invariant r == Loop(cfg, carry, inputs[..k]) && admission.Valid() && admission.Value() == r.admission
      invariant admission.future == old(admission.future) || fresh(admission.future)
    {
      LoopNext(cfg, carry, inputs, k);
      if r.cycles >= cfg.Total() || r.terminalCycle > 0 || r.failure != NONE {
        LoopOver(cfg, carry, inputs, k);
        return;
      }
      if inputs[k].sleepFailed {
        r := r.(failure := INTERNAL);
      } else {
        r := CycleInPlace(cfg, r, carry, inputs[k], admission);
      }
    }
    assert inputs[..|inputs|] == inputs;
  }

  lemma LoopNothing(cfg: Config, carry: A.Packet, inputs: seq<CycleInput>)
    requires cfg.Valid() && ValidInputs(inputs)
    ensures Loop(cfg, carry, inputs[..0]) == BeginRun(cfg)
  {
    hide Cycle, BeginRun;
  }

  lemma LoopNext(cfg: Config, carry: A.Packet, inputs: seq<CycleInput>, k: nat)
    requires cfg.Valid() && ValidInputs(inputs) && k < |inputs|
    ensures inputs[k].Valid() && Kept(cfg.Admission(), Loop(cfg, carry, inputs[..k]).admission)
    ensures var r, i := Loop(cfg, carry, inputs[..k]), inputs[k];
            Loop(cfg, carry, inputs[..k + 1])
            == if Over(cfg, r) then r else if i.sleepFailed then r.(failure := INTERNAL) else Cycle(cfg, r, carry, i)
  {
    hide Cycle, Kept;
    assert inputs[k] in inputs && inputs[..k + 1][..k] == inputs[..k];
  }

  lemma {:induction false} LoopOver(cfg: Config, carry: A.Packet, inputs: seq<CycleInput>, k: nat)
    requires cfg.Valid() && ValidInputs(inputs) && k <= |inputs| && Over(cfg, Loop(cfg, carry, inputs[..k]))
    ensures Loop(cfg, carry, inputs) == Loop(cfg, carry, inputs[..k])
    decreases |inputs| - k
  {
    hide Cycle, Kept, Loop, Over;
    if k == |inputs| {
      assert inputs[..k] == inputs;
    } else {
      LoopNext(cfg, carry, inputs, k);
      LoopOver(cfg, carry, inputs, k + 1);
    }
  }

  /** Further copies of the terminal reply; the loop stops early when the schedule or a stop request ends it. */
  method ResendTerminal(cfg: Config, before: Runtime, successes: seq<bool>) returns (r: Runtime)
    requires before.terminalCycle > 0
    ensures r == FinishRun(cfg, before, successes)
  {
    r := before;
    var copy := 1;
    ghost var n := Min(|successes|, Max(0, cfg.terminalCopies - 1));
    while copy < cfg.terminalCopies && copy - 1 < |successes|
      invariant 1 <= copy && copy - 1 <= n && r == Resend(before, successes[..copy - 1])
      decreases cfg.terminalCopies - copy
    {
      assert successes[..copy][..copy - 1] == successes[..copy - 1];
      r := r.(termAttempts := r.termAttempts + 1);
      if successes[copy - 1] { r := r.(termSent := r.termSent + 1); } else { r := r.(termFailed := r.termFailed + 1); }
      copy := copy + 1;
    }
  }
}
