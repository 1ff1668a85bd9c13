/** The logical episode policy: one transition function, and the vehicle's step-by-step form of it.
    Generic in the scalar type, so that runs can be read over binary64 words or over the reals. */
module Episode {
  import opened Basics

  datatype Mode = INIT | ARMED | FLYING | TERMINATED {
    function Code(): byte { match this case INIT => 0 case ARMED => 1 case FLYING => 2 case TERMINATED => 3 }
  }

  datatype Reason =
    NONE | STABILIZED | DIVERGED | GROUND_ABORT | SENSOR_LOST | PEER_LOST | SIGNAL | NOT_SETTLED | INTERNAL
  {
    function Code(): byte {
      match this
      case NONE => 0
      case STABILIZED => 1
      case DIVERGED => 2
      case GROUND_ABORT => 3
      case SENSOR_LOST => 4
      case PEER_LOST => 5
      case SIGNAL => 6
      case NOT_SETTLED => 7
      case INTERNAL => 8
    }
  }

  const ARM := 1
  const LAUNCH := 2
  const ABORT := 3

  datatype AckStatus =
    | QUEUED | APPLIED | APPLIED_LATE | DUPLICATE | REJECTED_PENDING | REJECTED_STATE | REJECTED_IDENTITY
    | REJECTED_OPCODE | REJECTED_STALE | PREEMPTED
  {
    function Code(): byte {
      match this
      case QUEUED => 0
      case APPLIED => 1
      case APPLIED_LATE => 2
      case DUPLICATE => 3
      case REJECTED_PENDING => 4
      case REJECTED_STATE => 5
      case REJECTED_IDENTITY => 6
      case REJECTED_OPCODE => 7
      case REJECTED_STALE => 8
      case PREEMPTED => 9
    }
  }

  const SIM_HORIZON: u32 := 1
  const SIM_LOC_ANGLE: u32 := 2
  const SIM_LOC_NONFINITE: u32 := 3

  datatype Command = Command(cmdSeq: u32, opcode: nat, effectiveTick: nat)
  datatype Ack = Ack(cmdSeq: u32, status: AckStatus, appliedTick: nat, state: Mode, reason: Reason)
  datatype Terminal = Terminal(reason: Reason, tick: nat)
  datatype Obs<F> = Obs(tick: nat, theta: F, omega: F, valid: bool)
  datatype Pid<F> = Pid(iState: F, dPrev: F, lastDelta: F)

  datatype State<F> = State(mode: Mode, pid: Pid<F>, settleCount: nat, pending: Option<Command>,
                            lastAccepted: Option<Command>, terminal: Option<Terminal>, autoArm: bool)

  datatype Inputs<F> = Inputs(tick: nat, held: Option<Obs<F>>, isFresh: bool, staleness: nat,
                              command: Option<Command>, horizonReached: bool, simReason: Option<u32>,
                              stopReason: Option<Reason>)
  {
    /** A fresh cycle holds an observation. */
    predicate Admitted() { isFresh ==> held.Some? }
  }

  datatype Output<F> = Output(state: State<F>, delta: F, acks: seq<Ack>)

  /** What the policy needs of its scalars. */
  datatype Policy<!F> = Policy(zero: F, inBox: (F, F) -> bool, diverged: F -> bool,
                               pid: (Pid<F>, F, F) -> (F, Pid<F>))

  function Initial<F>(p: Policy<F>, autoArm: bool): State<F> {
    State(INIT, Pid(p.zero, p.zero, p.zero), 0, None, None, None, autoArm)
  }

  predicate IsApplied(a: Ack) { a.status == APPLIED || a.status == APPLIED_LATE }

  predicate KnownOpcode(opcode: nat) { opcode == ARM || opcode == LAUNCH || opcode == ABORT }

  /** How far `a` is ahead of `b` in 32-bit serial arithmetic. */
  function Gap(a: u32, b: u32): u32 { (a - b) % TWO32 }

  /** Why a command is refused before the pending slot is considered. */
  function Prefix(c: Command, last: Option<Command>): Option<AckStatus> {
    if !KnownOpcode(c.opcode) then Some(REJECTED_OPCODE)
    else if last.None? then None
    else if c.cmdSeq == last.value.cmdSeq then
      Some(if c.opcode == last.value.opcode && c.effectiveTick == last.value.effectiveTick
           then DUPLICATE else REJECTED_IDENTITY)
    else if 1 <= Gap(c.cmdSeq, last.value.cmdSeq) < 0x8000_0000 then None
    else Some(REJECTED_STALE)
  }

  function Apply(mode: Mode, c: Command, tick: nat): (Mode, Option<Terminal>, Ack) {
    var status := if c.effectiveTick == tick then APPLIED else APPLIED_LATE;
    if c.opcode == ARM && mode == INIT then
      (ARMED, None, Ack(c.cmdSeq, status, tick, ARMED, NONE))
    else if c.opcode == LAUNCH && mode == ARMED then
      (FLYING, None, Ack(c.cmdSeq, status, tick, FLYING, NONE))
    else if c.opcode == ABORT && (mode == ARMED || mode == FLYING) then
      (TERMINATED, Some(Terminal(GROUND_ABORT, tick)), Ack(c.cmdSeq, status, tick, TERMINATED, GROUND_ABORT))
    else
      (mode, None, Ack(c.cmdSeq, REJECTED_STATE, 0, mode, NONE))
  }

  function SettleCount<F>(p: Policy<F>, count: nat, held: Option<Obs<F>>): nat {
    if held.Some? && p.inBox(held.value.theta, held.value.omega) then Min(count + 1, 1000) else 0
  }

  predicate KnownSimReason(r: u32) { r == SIM_HORIZON || r == SIM_LOC_ANGLE || r == SIM_LOC_NONFINITE }

  /** Terminal reasons in priority order; `NONE` keeps the episode live. */
  function TerminalReason<F>(p: Policy<F>, inputs: Inputs<F>, count: nat): Reason
    requires inputs.Admitted()
  {
    var sim := inputs.simReason;
    if sim.Some? && !KnownSimReason(sim.value) then INTERNAL
    else if inputs.stopReason.Some? then inputs.stopReason.value
    else if sim == Some(SIM_LOC_ANGLE) || sim == Some(SIM_LOC_NONFINITE) then DIVERGED
    else if inputs.isFresh && p.diverged(inputs.held.value.theta) then DIVERGED
    else if inputs.staleness >= 21 then SENSOR_LOST
    else if inputs.horizonReached || sim == Some(SIM_HORIZON) then
      if count == 1000 then STABILIZED else NOT_SETTLED
    else NONE
  }

  function Some2(a: Option<Ack>, b: Option<Ack>): seq<Ack> {
    (if a.Some? then [a.value] else []) + if b.Some? then [b.value] else []
  }

  /** The command phase of a live cycle. */
  datatype Commands = Commands(mode: Mode, terminal: Option<Terminal>, pending: Option<Command>,
                               last: Option<Command>, arrivalAck: Option<Ack>, pendingAck: Option<Ack>)

  /** The arriving command against the pending slot. */
  function Arrive(mode: Mode, pending: Option<Command>, last: Option<Command>, c: Command, tick: nat): Commands {
    var refusal := Prefix(c, last);
    var preempts := refusal.None? && pending.Some? && c.opcode == ABORT && pending.value.opcode != ABORT;
    var blocked := refusal.None? && pending.Some? && !preempts;
    if refusal.Some? || blocked then
      var status := if refusal.Some? then refusal.value else REJECTED_PENDING;
      Commands(mode, None, pending, last, Some(Ack(c.cmdSeq, status, 0, mode, NONE)), None)
    else
      var cancelled := if preempts then Some(Ack(pending.value.cmdSeq, PREEMPTED, 0, mode, NONE)) else None;
      if c.effectiveTick > tick then
        Commands(mode, None, Some(c), Some(c), Some(Ack(c.cmdSeq, QUEUED, 0, mode, NONE)), cancelled)
      else
        var (m, t, ack) := Apply(mode, c, tick);
        Commands(m, t, None, Some(c), Some(ack), cancelled)
  }

  /** A pending command whose tick has come. */
  function Due(k: Commands, tick: nat): Commands {
    if k.pending.Some? && k.pending.value.effectiveTick <= tick then
      var (m, t, ack) := Apply(k.mode, k.pending.value, tick);
      Commands(m, t, None, k.last, k.arrivalAck, Some(ack))
    else k
  }

  function CommandPhase<F>(s: State<F>, inputs: Inputs<F>): Commands {
    Due(if inputs.command.Some? then Arrive(s.mode, s.pending, s.lastAccepted, inputs.command.value, inputs.tick)
        else Commands(s.mode, None, s.pending, s.lastAccepted, None, None),
        inputs.tick)
  }

  /** A cycle that ends the episode: no command is applied, everything outstanding is refused. */
  function Terminate<F>(p: Policy<F>, s: State<F>, inputs: Inputs<F>, count: nat, reason: Reason): Output<F> {
    var arrival := if inputs.command.None? then None else
      var refusal := Prefix(inputs.command.value, s.lastAccepted);
      Some(Ack(inputs.command.value.cmdSeq, if refusal.Some? then refusal.value else REJECTED_STATE, 0,
               TERMINATED, reason));
    var dropped := if s.pending.None? then None else
      Some(Ack(s.pending.value.cmdSeq, REJECTED_STATE, 0, TERMINATED, reason));
    Output(State(TERMINATED, s.pid, count, None, s.lastAccepted, Some(Terminal(reason, inputs.tick)), s.autoArm),
           p.zero, Some2(arrival, dropped))
  }

  function Fly<F>(p: Policy<F>, s: State<F>, inputs: Inputs<F>, count: nat): Output<F>
    requires inputs.Admitted()
  {
    var k := CommandPhase(s, inputs);
    var mode := if k.terminal.None? && s.autoArm && inputs.isFresh && (k.mode == INIT || k.mode == ARMED)
                then FLYING else k.mode;
    var (delta, pid) :=
      if k.terminal.Some? || mode != FLYING then (p.zero, s.pid)
      else if inputs.isFresh then p.pid(s.pid, inputs.held.value.theta, inputs.held.value.omega)
      else if inputs.staleness <= 8 then (s.pid.lastDelta, s.pid)
      else (p.zero, s.pid);
    Output(State(mode, pid, count, k.pending, k.last, k.terminal, s.autoArm), delta,
           Some2(k.arrivalAck, k.pendingAck))
  }

  function Step<F>(p: Policy<F>, s: State<F>, inputs: Inputs<F>): Output<F>
    requires inputs.Admitted()
  {
    if s.mode == TERMINATED then Output(s, p.zero, [])
    else
      var count := SettleCount(p, s.settleCount, inputs.held);
      var reason := TerminalReason(p, inputs, count);
      if reason != NONE then Terminate(p, s, inputs, count, reason) else Fly(p, s, inputs, count)
  }

  // The vehicle's form: a working copy updated in place

  method PrefixInPlace(c: Command, last: Option<Command>) returns (r: Option<AckStatus>)
    ensures r == Prefix(c, last)
  {
    if c.opcode != ARM && c.opcode != LAUNCH && c.opcode != ABORT { return Some(REJECTED_OPCODE); }
    if last.Some? {
      if c.cmdSeq == last.value.cmdSeq {
        if c.opcode == last.value.opcode && c.effectiveTick == last.value.effectiveTick { return Some(DUPLICATE); }
        return Some(REJECTED_IDENTITY);
      }
      var gap := (c.cmdSeq - last.value.cmdSeq) % TWO32;
      if gap == 0 || gap >= 0x8000_0000 { return Some(REJECTED_STALE); }
    }
    return None;
  }

  method ApplyInPlace<F>(state: State<F>, c: Command, tick: nat) returns (next: State<F>, ack: Ack)
    ensures var (m, t, a) := Apply(state.mode, c, tick);
            ack == a && next == state.(mode := m, terminal := if t.Some? then t else state.terminal)
  {
    var reason := NONE;
    next := state;
    if c.opcode == ARM && next.mode == INIT {
      next := next.(mode := ARMED);
    } else if c.opcode == LAUNCH && next.mode == ARMED {
      next := next.(mode := FLYING);
    } else if c.opcode == ABORT && (next.mode == ARMED || next.mode == FLYING) {
      next := next.(mode := TERMINATED);
      reason := GROUND_ABORT;
      next := next.(terminal := Some(Terminal(reason, tick)));
    } else {
      ack := Ack(c.cmdSeq, REJECTED_STATE, 0, next.mode, reason);
      return;
    }
    var status := if c.effectiveTick == tick then APPLIED else APPLIED_LATE;
    ack := Ack(c.cmdSeq, status, tick, next.mode, reason);
  }

  method SettleInPlace<F>(p: Policy<F>, state: State<F>, held: Option<Obs<F>>) returns (next: State<F>)
    requires state.settleCount <= 1000
    ensures next == state.(settleCount := SettleCount(p, state.settleCount, held))
  {
    next := state;
    if held.None? {
      next := next.(settleCount := 0);
    } else if p.inBox(held.value.theta, held.value.omega) {
      if next.settleCount < 1000 { next := next.(settleCount := next.settleCount + 1); }
    } else {
      next := next.(settleCount := 0);
    }
  }

  method ReasonInPlace<F>(p: Policy<F>, inputs: Inputs<F>, settleCount: nat) returns (reason: Reason)
    requires inputs.Admitted()
    ensures reason == TerminalReason(p, inputs, settleCount)
  {
    var sim := inputs.simReason;
    reason := NONE;
    if sim.Some? && sim.value != 1 && sim.value != 2 && sim.value != 3 {
      reason := INTERNAL;
    } else if inputs.stopReason.Some? {
      reason := inputs.stopReason.value;
    } else if sim == Some(2) || sim == Some(3) {
      reason := DIVERGED;
    } else if inputs.isFresh && p.diverged(inputs.held.value.theta) {
      reason := DIVERGED;
    } else if inputs.staleness >= 21 {
      reason := SENSOR_LOST;
    } else if inputs.horizonReached || sim == Some(1) {
      reason := if settleCount == 1000 then STABILIZED else NOT_SETTLED;
    }
  }

  method CommandsInPlace<F>(state: State<F>, inputs: Inputs<F>)
    returns (next: State<F>, arrivalAck: Option<Ack>, pendingAck: Option<Ack>)
    requires state.terminal.None?
    ensures var k := CommandPhase(state, inputs);
            && next == state.(mode := k.mode, terminal := k.terminal, pending := k.pending, lastAccepted := k.last)
            && arrivalAck == k.arrivalAck && pendingAck == k.pendingAck
  {
    next := state;
    arrivalAck, pendingAck := None, None;
    var command := inputs.command;
    if command.Some? {
      var status := PrefixInPlace(command.value, next.lastAccepted);
      if status.None? && next.pending.Some? {
        if command.value.opcode == ABORT && next.pending.value.opcode != ABORT {
          pendingAck := Some(Ack(next.pending.value.cmdSeq, PREEMPTED, 0, next.mode, NONE));
          next := next.(pending := None);
        } else {
          status := Some(REJECTED_PENDING);
        }
      }
      if status.Some? {
        arrivalAck := Some(Ack(command.value.cmdSeq, status.value, 0, next.mode, NONE));
      } else {
        next := next.(lastAccepted := command);
        if command.value.effectiveTick > inputs.tick {
          next := next.(pending := command);
          arrivalAck := Some(Ack(command.value.cmdSeq, QUEUED, 0, next.mode, NONE));
        } else {
          var ack;
          next, ack := ApplyInPlace(next, command.value, inputs.tick);
          arrivalAck := Some(ack);
        }
      }
    }
    if next.pending.Some? && next.pending.value.effectiveTick <= inputs.tick {
      var due := next.pending.value;
      var ack;
      next := next.(pending := None);
      next, ack := ApplyInPlace(next, due, inputs.tick);
      pendingAck := Some(ack);
    }
  }

  /** The vehicle increments only below the cap where the reference takes a minimum;
      the two agree because no state ever holds more than the cap. */
  method StepInPlace<F>(p: Policy<F>, state: State<F>, inputs: Inputs<F>) returns (out: Output<F>)
    requires inputs.Admitted() && state.settleCount <= 1000
    ensures out == Step(p, state, inputs)
  {
    hide SettleCount, TerminalReason, CommandPhase, Prefix;
    if state.mode == TERMINATED { return Output(state, p.zero, []); }
    var next := SettleInPlace(p, state, inputs.held);
    var reason := ReasonInPlace(p, inputs, next.settleCount);
    var arrivalAck: Option<Ack>, pendingAck: Option<Ack> := None, None;
    if reason != NONE {
      next := next.(mode := TERMINATED, terminal := Some(Terminal(reason, inputs.tick)));
      if inputs.command.Some? {
        var status := PrefixInPlace(inputs.command.value, next.lastAccepted);
        arrivalAck := Some(Ack(inputs.command.value.cmdSeq, if status.Some? then status.value else REJECTED_STATE,
                               0, next.mode, reason));
      }
      if next.pending.Some? {
        pendingAck := Some(Ack(next.pending.value.cmdSeq, REJECTED_STATE, 0, next.mode, reason));
        next := next.(pending := None);
      }
      return Output(next, p.zero, Some2(arrivalAck, pendingAck));
    }

    next := next.(terminal := None);
    SameCommands(state, next, inputs);
    next, arrivalAck, pendingAck := CommandsInPlace(next, inputs);
    var delta := p.zero;
    if next.terminal.None? {
      if state.autoArm && inputs.isFresh {
        if next.mode == INIT { next := next.(mode := ARMED); }
        if next.mode == ARMED { next := next.(mode := FLYING); }
      }
      if next.mode == FLYING {
        if inputs.isFresh {
          var (d, pid) := p.pid(next.pid, inputs.held.value.theta, inputs.held.value.omega);
          delta, next := d, next.(pid := pid);
        } else if inputs.staleness <= 8 {
          delta := next.pid.lastDelta;
        }
      }
    }
    out := Output(next, delta, Some2(arrivalAck, pendingAck));
  }

  /** The command phase reads only the mode, the pending slot and the last accepted command. */
  lemma SameCommands<F>(s: State<F>, t: State<F>, inputs: Inputs<F>)
    requires s.mode == t.mode && s.pending == t.pending && s.lastAccepted == t.lastAccepted
    ensures CommandPhase(s, inputs) == CommandPhase(t, inputs)
  {}

  // Runs

  /** States a run can reach. */
  ghost predicate WellFormed<F>(s: State<F>) {
    && s.settleCount <= 1000
    && (s.terminal.Some? <==> s.mode == TERMINATED)
    && (s.terminal.Some? ==> s.terminal.value.reason != NONE)
    && (s.pending.Some? ==> s.pending == s.lastAccepted)
    && (s.mode == TERMINATED ==> s.pending.None?)
    && (s.lastAccepted.Some? ==> KnownOpcode(s.lastAccepted.value.opcode))
  }

  /** The caller's contract: a fresh cycle holds an observation, and a stop request is one of three reasons. */
  predicate Proper<F>(inputs: Inputs<F>) {
    inputs.Admitted() && (inputs.stopReason.Some? ==> inputs.stopReason.value in {PEER_LOST, SIGNAL, INTERNAL})
  }

  lemma CommandPhaseKeeps<F>(s: State<F>, inputs: Inputs<F>)
    requires WellFormed(s) && s.mode != TERMINATED
    ensures var k := CommandPhase(s, inputs);
            && s.mode.Code() <= k.mode.Code()
            && (k.terminal.Some? <==> k.mode == TERMINATED)
            && (k.terminal.Some? ==> k.terminal == Some(Terminal(GROUND_ABORT, inputs.tick)))
            && (k.pending.Some? ==> k.pending == k.last && k.mode != TERMINATED)
            && (k.last.Some? ==> KnownOpcode(k.last.value.opcode))
  {}

  /** One transition keeps the state well formed, moves the mode only forward and never revises a termination. */
  lemma StepKeeps<F>(p: Policy<F>, s: State<F>, inputs: Inputs<F>)
    requires WellFormed(s) && Proper(inputs)
    ensures var t := Step(p, s, inputs).state;
            && WellFormed(t) && s.mode.Code() <= t.mode.Code() && t.autoArm == s.autoArm
            && (s.terminal.Some? ==> t == s)
            && (s.mode == TERMINATED ==> Step(p, s, inputs).acks == [] && Step(p, s, inputs).delta == p.zero)
  {
    hide CommandPhase, TerminalReason;
    if s.mode != TERMINATED {
      CommandPhaseKeeps(s, inputs);
    }
  }

  lemma InitialWellFormed<F>(p: Policy<F>, autoArm: bool)
    ensures WellFormed(Initial(p, autoArm))
  {}

  predicate ProperRun<F>(inputs: seq<Inputs<F>>) { forall i | 0 <= i < |inputs| :: Proper(inputs[i]) }

  /** The state after a run of inputs. */
  function After<F>(p: Policy<F>, s: State<F>, inputs: seq<Inputs<F>>): State<F>
    requires ProperRun(inputs)
    decreases |inputs|, 1
  {
    if inputs == [] then s else LastOutput(p, s, inputs).state
  }

  /** The output of the last input of a run. */
  function LastOutput<F>(p: Policy<F>, s: State<F>, inputs: seq<Inputs<F>>): Output<F>
    requires ProperRun(inputs) && inputs != []
    decreases |inputs|, 0
  {
    Step(p, After(p, s, inputs[..|inputs| - 1]), inputs[|inputs| - 1])
  }
}
