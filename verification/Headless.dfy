/** The in-process reference run: plant, lossy links, delay line and episode, one tick at a time. */
module Headless {
  import opened Basics
  import opened Episode
  import Rng

  datatype Truth = Truth(theta: word, omega: word)

  /** A resolved scenario together with the arithmetic the model leaves open: the plant and the PID step. */
  datatype Scenario = Scenario(ticks: nat, initial: Truth, lossUp: real, lossDown: real, autoArm: bool,
                               forcedUp: nat -> Option<bool>, forcedDown: nat -> Option<bool>,
                               commandAt: nat -> Option<nat>, plant: (nat, Truth, word) -> Truth,
                               pid: (Pid<word>, word, word) -> (word, Pid<word>))

  /** What loading promises: some ticks, known opcodes. */
  ghost predicate Runnable(sc: Scenario) {
    0 < sc.ticks && forall t: nat :: sc.commandAt(t).Some? ==> KnownOpcode(sc.commandAt(t).value)
  }

  /** And ticks that fit the wire with their command lead. */
  ghost predicate Loaded(sc: Scenario) { Runnable(sc) && sc.ticks + 50 <= TWO64 }

  // 0.02, 0.30 and 0.12 as binary64 words
  const BOX: word := 0x3f94_7ae1_47ae_147b
  const LOSS_OF_CONTROL: word := 0x3fd3_3333_3333_3333
  const DELTA_MAX: word := 0x3fbe_b851_eb85_1eb8

  predicate InBox(theta: word, omega: word) { AbsAtMost(theta, BOX) && AbsAtMost(omega, BOX) }

  function PolicyOf(sc: Scenario): Policy<word> {
    Policy(0, (theta, omega) => InBox(theta, omega), theta => AbsExceeds(theta, LOSS_OF_CONTROL), sc.pid)
  }

  /** The actuator holds on a missing command and clamps otherwise; NaN passes both comparisons. */
  function ActuatorStep(applied: word, arriving: Option<word>): word {
    if arriving.None? then applied
    else if AbsExceeds(arriving.value, DELTA_MAX) then
      if Negative(arriving.value) then TWO63 + DELTA_MAX else DELTA_MAX
    else arriving.value
  }

  function Observe(tick: nat, truth: Truth, dropped: bool): Obs<word> {
    if dropped then Obs(tick, 0, 0, false) else Obs(tick, truth.theta, truth.omega, true)
  }

  predicate IsFresh(o: Obs<word>) { o.valid && IsFinite(o.theta) && IsFinite(o.omega) }

  function Age(tick: nat, held: Option<Obs<word>>): int {
    Min(if held.Some? then tick - held.value.tick else tick + 1, MAX32)
  }

  function Decide(raw: bool, forced: Option<bool>): bool { if forced.Some? then forced.value else raw }

  /** Loss of control seen in a new truth, or the reason already pending. */
  function PendingReason(truth: Truth, pending: Option<u32>): Option<u32> {
    if !IsFinite(truth.theta) || !IsFinite(truth.omega) then Some(SIM_LOC_NONFINITE)
    else if AbsExceeds(truth.theta, LOSS_OF_CONTROL) then Some(SIM_LOC_ANGLE)
    else pending
  }

  function SimReason(sc: Scenario, tick: nat, pending: Option<u32>): Option<u32> {
    if pending.None? && tick + 1 == sc.ticks then Some(SIM_HORIZON) else pending
  }

  datatype Row = Row(tick: nat, truth: Truth, observation: Obs<word>, inputs: Inputs<word>, output: Output<word>,
                     arriving: Option<word>, applied: word, upDrop: bool, downDrop: bool)

  datatype Run = Run(tick: nat, up: u64, down: u64, delay: seq<Option<word>>, truth: Truth, applied: word,
                     episode: State<word>, held: Option<Obs<word>>, pending: Option<u32>, cmdSeq: u32,
                     rows: seq<Row>, finalReason: Option<u32>)

  const VEHICLE_TERMINAL: u32 := 4

  function EmptyLine(depth: nat): seq<Option<word>> { seq(depth, _ => None) }

  function Start(sc: Scenario, seed: u64, delayTicks: nat): Run {
    Run(0, Rng.StreamState(seed, 0), Rng.StreamState(seed, 1), EmptyLine(delayTicks), sc.initial, 0,
        Initial(PolicyOf(sc), sc.autoArm), None, None, 0, [], None)
  }

  function UpDrop(sc: Scenario, r: Run): bool { Decide(Rng.DrawDrop(r.up, sc.lossUp).0, sc.forcedUp(r.tick)) }

  function DownDrop(sc: Scenario, r: Run): bool { Decide(Rng.DrawDrop(r.down, sc.lossDown).0, sc.forcedDown(r.tick)) }

  function Observed(sc: Scenario, r: Run): Obs<word> { Observe(r.tick, r.truth, UpDrop(sc, r)) }

  function HeldNow(o: Obs<word>, held: Option<Obs<word>>): Option<Obs<word>> {
    if IsFresh(o) then Some(o) else held
  }

  function NextSeq(sc: Scenario, r: Run): u32 {
    if sc.commandAt(r.tick).Some? then (r.cmdSeq + 1) % TWO32 else r.cmdSeq
  }

  function CommandNow(sc: Scenario, r: Run): Option<Command> {
    if sc.commandAt(r.tick).Some? then Some(Command(NextSeq(sc, r), sc.commandAt(r.tick).value, r.tick + 50))
    else None
  }

  predicate HeldInPast(r: Run) { r.held.Some? ==> r.held.value.tick < r.tick }

  /** What the episode is given at this tick. */
  function InputsNow(sc: Scenario, r: Run): (i: Inputs<word>)
    requires HeldInPast(r)
    ensures i.Admitted()
  {
    var held := HeldNow(Observed(sc, r), r.held);
    Inputs(r.tick, held, IsFresh(Observed(sc, r)), Age(r.tick, held), CommandNow(sc, r), false,
           SimReason(sc, r.tick, r.pending), None)
  }

  function OutputNow(sc: Scenario, r: Run): Output<word>
    requires HeldInPast(r)
  {
    Step(PolicyOf(sc), r.episode, InputsNow(sc, r))
  }

  /** What the delay line releases when this tick's request, or its loss, goes in. */
  function Released(delay: seq<Option<word>>, request: Option<word>): (Option<word>, seq<Option<word>>) {
    var line := delay + [request];
    (line[0], line[1..])
  }

  /** One tick of a run that has not ended. */
  function Tick(sc: Scenario, r: Run): Run
    requires HeldInPast(r)
  {
    var up, down := Rng.DrawDrop(r.up, sc.lossUp).1, Rng.DrawDrop(r.down, sc.lossDown).1;
    var inputs, out := InputsNow(sc, r), OutputNow(sc, r);
    var (arriving, delay) := Released(r.delay, if DownDrop(sc, r) then None else Some(out.delta));
    var applied := ActuatorStep(r.applied, arriving);
    var row := Row(r.tick, r.truth, Observed(sc, r), inputs, out, arriving, applied, UpDrop(sc, r), DownDrop(sc, r));
    var final :=
      if inputs.simReason.Some? then inputs.simReason
      else if out.state.terminal.Some? then Some(VEHICLE_TERMINAL) else None;
    var truth := if final.Some? then r.truth else sc.plant(r.tick, r.truth, applied);
    Run(r.tick + 1, up, down, delay, truth, applied, out.state, inputs.held,
        if final.Some? then r.pending else PendingReason(truth, r.pending), NextSeq(sc, r), r.rows + [row], final)
  }

  /** The run after at most `n` ticks. */
  function RunFor(sc: Scenario, seed: u64, delayTicks: nat, n: nat): (r: Run)
    ensures HeldInPast(r) && r.tick <= n
    ensures r.finalReason.None? ==> r.tick == n
  {
    if n == 0 then Start(sc, seed, delayTicks)
    else
      var r := RunFor(sc, seed, delayTicks, n - 1);
      if r.finalReason.Some? then r else Tick(sc, r)
  }

  class Delay {
    var values: seq<Option<word>>

    constructor (depth: nat)
      ensures values == EmptyLine(depth)
    {
      values := EmptyLine(depth);
    }

    method PushPop(arriving: Option<word>) returns (released: Option<word>)
      modifies this
      ensures (released, values) == Released(old(values), arriving)
    {
      values := values + [arriving];
      released := values[0];
      values := values[1..];
    }
  }

  lemma StartsAtZero(sc: Scenario, seed: u64, delayTicks: nat)
    ensures RunFor(sc, seed, delayTicks, 0) == Start(sc, seed, delayTicks)
  {}

  lemma RunForNext(sc: Scenario, seed: u64, delayTicks: nat, n: nat)
    requires RunFor(sc, seed, delayTicks, n).finalReason.None?
    ensures RunFor(sc, seed, delayTicks, n + 1) == Tick(sc, RunFor(sc, seed, delayTicks, n))
  {}

  lemma TickFields(sc: Scenario, r: Run)
    requires HeldInPast(r)
    ensures var t, i, o := Tick(sc, r), InputsNow(sc, r), OutputNow(sc, r);
            var arriving, delay := Released(r.delay, if DownDrop(sc, r) then None else Some(o.delta)).0,
                                   Released(r.delay, if DownDrop(sc, r) then None else Some(o.delta)).1;
            && t.tick == r.tick + 1
            && t.up == Rng.DrawDrop(r.up, sc.lossUp).1 && t.down == Rng.DrawDrop(r.down, sc.lossDown).1
            && t.delay == delay && t.applied == ActuatorStep(r.applied, arriving)
            && t.episode == o.state && t.held == i.held && t.cmdSeq == NextSeq(sc, r)
            && t.rows == r.rows + [Row(r.tick, r.truth, Observed(sc, r), i, o, arriving, t.applied,
                                       UpDrop(sc, r), DownDrop(sc, r))]
            && t.finalReason == (if i.simReason.Some? then i.simReason
                                 else if o.state.terminal.Some? then Some(VEHICLE_TERMINAL) else None)
            && t.truth == (if t.finalReason.Some? then r.truth else sc.plant(r.tick, r.truth, t.applied))
            && t.pending == (if t.finalReason.Some? then r.pending else PendingReason(t.truth, r.pending))
  {
    hide Rng.DrawDrop, Step, ActuatorStep, PendingReason, Observed, InputsNow;
  }

  /** The reference program. */
  method RunHeadless(sc: Scenario, seed: u64, delayTicks: nat)
    returns (rows: seq<Row>, up: u64, down: u64, simReason: Option<u32>)
    requires Runnable(sc) && delayTicks <= 1
    ensures var end := RunFor(sc, seed, delayTicks, sc.ticks);
            && rows == end.rows && up == end.up && down == end.down && simReason == end.finalReason
            && simReason.Some? && 0 < |rows| <= sc.ticks
  {
    hide Rng.DrawDrop, Step, Rng.Mix, Rng.StreamState, IsFinite, AbsExceeds, Initial, PolicyOf, RunFor, Tick,
         ActuatorStep, Released;
    hide Observe, IsFresh, HeldNow, Age;
    StartsAtZero(sc, seed, delayTicks);
    var upStream := new Rng.SplitMix64(Rng.StreamState(seed, 0));
    var downStream := new Rng.SplitMix64(Rng.StreamState(seed, 1));
    var delay := new Delay(delayTicks);
    var truth, applied, state := sc.initial, 0, Initial(PolicyOf(sc), sc.autoArm);
    var held: Option<Obs<word>>, pendingReason: Option<u32>, commandSeq: u32 := None, None, 0;
    rows, simReason := [], None;
    var tick := 0;
    while tick < sc.ticks
      invariant tick < sc.ticks && simReason.None?
      invariant RunFor(sc, seed, delayTicks, tick)
             == Run(tick, upStream.state, downStream.state, delay.values, truth, applied, state, held, pendingReason,
                    commandSeq, rows, None)
      invariant |rows| == tick
    {
      ghost var r := RunFor(sc, seed, delayTicks, tick);
      RunForNext(sc, seed, delayTicks, tick);
      TickFields(sc, r);
      var upDrop, downDrop := Lose(sc, r, tick, upStream, downStream);
      var observation, isFresh, age;
      observation, held, isFresh, age := Sense(tick, truth, upDrop, held);
      var command;
      command, commandSeq := Request(sc, tick, commandSeq);
      simReason := pendingReason;
      if simReason.None? && tick == sc.ticks - 1 { simReason := Some(SIM_HORIZON); }
      var inputs := Inputs(tick, held, isFresh, age, command, false, simReason, None);
      assert inputs == InputsNow(sc, r);
      hide InputsNow, Observed, CommandNow, UpDrop, DownDrop, NextSeq, PendingReason, SimReason;
      var output := Step(PolicyOf(sc), state, inputs);
      state := output.state;
      var arriving := delay.PushPop(if downDrop then None else Some(output.delta));
      applied := ActuatorStep(applied, arriving);
      rows := rows + [Row(tick, truth, observation, inputs, output, arriving, applied, upDrop, downDrop)];
      tick := tick + 1;
      if simReason.Some? { break; }
      if state.terminal.Some? {
        simReason := Some(VEHICLE_TERMINAL);
        break;
      }
      truth, pendingReason := Move(sc, tick - 1, truth, applied, pendingReason);
    }
    EndedStays(sc, seed, delayTicks, tick, sc.ticks);
    up, down := upStream.state, downStream.state;
  }

  /** One draw, whatever overrides it. */
  method DecideInPlace(stream: Rng.SplitMix64, p: real, forced: Option<bool>) returns (drop: bool)
    modifies stream
    ensures drop == Decide(Rng.DrawDrop(old(stream.state), p).0, forced)
    ensures stream.state == Rng.DrawDrop(old(stream.state), p).1
  {
    hide Rng.DrawDrop;
    var raw := DrawFrom(stream, p);
    drop := if forced.None? then raw else forced.value;
  }

  /** The tick's two loss decisions. */
  method Lose(sc: Scenario, ghost r: Run, tick: nat, upStream: Rng.SplitMix64, downStream: Rng.SplitMix64)
    returns (upDrop: bool, downDrop: bool)
    requires upStream != downStream && r.up == upStream.state && r.down == downStream.state && r.tick == tick
    modifies upStream, downStream
    ensures upDrop == UpDrop(sc, r) && upStream.state == Rng.DrawDrop(r.up, sc.lossUp).1
    ensures downDrop == DownDrop(sc, r) && downStream.state == Rng.DrawDrop(r.down, sc.lossDown).1
  {
    hide Rng.DrawDrop, Decide;
    upDrop := DecideInPlace(upStream, sc.lossUp, sc.forcedUp(tick));
    downDrop := DecideInPlace(downStream, sc.lossDown, sc.forcedDown(tick));
  }

  method Request(sc: Scenario, tick: nat, before: u32) returns (command: Option<Command>, commandSeq: u32)
    ensures commandSeq == if sc.commandAt(tick).Some? then (before + 1) % TWO32 else before
    ensures command == if sc.commandAt(tick).None? then None
                       else Some(Command(commandSeq, sc.commandAt(tick).value, tick + 50))
  {
    command, commandSeq := None, before;
    var opcode := sc.commandAt(tick);
    if opcode.Some? {
      commandSeq := (commandSeq + 1) % TWO32;
      command := Some(Command(commandSeq, opcode.value, tick + 50));
    }
  }

  /** The plant moves on; what it comes to may end the run at the next tick. */
  method Move(sc: Scenario, tick: nat, before: Truth, applied: word, pending: Option<u32>)
    returns (truth: Truth, pendingReason: Option<u32>)
    ensures truth == sc.plant(tick, before, applied) && pendingReason == PendingReason(truth, pending)
  {
    hide IsFinite, AbsExceeds;
    truth, pendingReason := sc.plant(tick, before, applied), pending;
    if !IsFinite(truth.theta) || !IsFinite(truth.omega) {
      pendingReason := Some(SIM_LOC_NONFINITE);
    } else if AbsExceeds(truth.theta, LOSS_OF_CONTROL) {
      pendingReason := Some(SIM_LOC_ANGLE);
    }
  }

  method Sense(tick: nat, truth: Truth, dropped: bool, heldBefore: Option<Obs<word>>)
    returns (observation: Obs<word>, held: Option<Obs<word>>, isFresh: bool, age: nat)
    requires heldBefore.Some? ==> heldBefore.value.tick < tick
    ensures observation == Observe(tick, truth, dropped) && isFresh == IsFresh(observation)
    ensures held == HeldNow(observation, heldBefore) && age == Age(tick, held)
  {
    observation, held := Obs(tick, truth.theta, truth.omega, true), heldBefore;
    if dropped { observation := Obs(tick, 0, 0, false); }
    isFresh := observation.valid && IsFinite(observation.theta) && IsFinite(observation.omega);
    if isFresh { held := Some(observation); }
    age := Min(if held.Some? then tick - held.value.tick else tick + 1, 0xffff_ffff);
  }

  method DrawFrom(stream: Rng.SplitMix64, p: real) returns (drop: bool)
    modifies stream
    ensures (drop, stream.state) == Rng.DrawDrop(old(stream.state), p)
  {
    var u := stream.NextU64();
    drop := Rng.Shr(u, 11) as real / 9007199254740992.0 < p;
  }

  lemma {:induction false} EndedStays(sc: Scenario, seed: u64, delayTicks: nat, m: nat, n: nat)
    requires m <= n && RunFor(sc, seed, delayTicks, m).finalReason.Some?
    ensures RunFor(sc, seed, delayTicks, n) == RunFor(sc, seed, delayTicks, m)
    decreases n
  {
    hide Tick;
    if m < n {
      EndedStays(sc, seed, delayTicks, m, n - 1);
    }
  }
}
