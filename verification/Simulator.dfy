/** The simulator's lockstep process: one model step per tick, retried physically until its reply arrives. */
module Simulator {
  import opened Basics
  import opened Episode
  import opened Frames
  import opened Payload
  import opened Reconcile
  import opened Headless
  import Rng

  const ATTEMPTS := 26
  const PEER_LOST_REASON: u32 := 6

  datatype SimRow = SimRow(tick: nat, hasSample: bool, applied: bool, theta: word, omega: word, command: word)

  /** The part of the run that must not depend on the network. */
  datatype Core = Core(tick: nat, up: u64, down: u64, delay: seq<Option<word>>, truth: Truth, applied: word,
                       pending: Option<u32>, cmdSeq: u32, rows: seq<SimRow>)

  /** What is fixed at the start of a tick. */
  datatype Opening = Opening(frame: seq<byte>, upDrop: bool, downDrop: bool, simReason: Option<u32>)

  datatype Transmission = Transmission(counts: SendCounts, modeledSampleLoss: nat, firstTick: Option<nat>,
                                       lastTick: Option<nat>)

  datatype Receipt = Receipt(counts: ReceiveCounts, modeledCommandLoss: int, forwardedToDelay: int,
                             testDiscarded: int, discardedOld: int)
  {
    /** The counters as the audit reads them. */
    function Audited(): ReceiveCounts { counts.(parts := [modeledCommandLoss, forwardedToDelay, 0]) }
  }

  datatype Phase = Sending(attempt: nat) | Listening(attempt: nat) | Ended(code: nat)

  datatype Sim = Sim(core: Core, now: Opening, phase: Phase, logged: bool, inputs: seq<seq<byte>>, up: Transmission,
                     down: Receipt, replies: seq<Actuator>, lastReply: Option<seq<byte>>, finalReason: u32,
                     vehicleSeen: Option<byte>)

  /** A resolved run: scenario, seed, delay depth and the test hook that discards one receipt. */
  datatype World = World(sc: Scenario, seed: u64, delayTicks: nat, dropActuator: Option<nat>) {
    /** The reference run after `n` ticks. */
    function At(n: nat): Run { RunFor(sc, seed, delayTicks, n) }
  }

  /** The outcome of one kernel call: a send succeeds only on `Sent(true)`; a receive that returns neither data
      nor an error times out. */
  datatype Outcome = Sent(ok: bool) | Got(data: seq<byte>) | Silence | Broken

  const NO_RECEIPTS := ReceiveCounts(0, 0, 0, 0, 0, 0, 0, 0, [])

  // One tick: what is sent, and what a reply makes of it

  function SensorFlags(upDrop: bool, opcode: Option<nat>, simReason: Option<u32>): u32
  {
    (if upDrop then 0 else 1) + (if simReason.Some? then 2 else 0) +
      if opcode.Some? then 4 + 256 * (opcode.value % 256) else 0
  }

  function SensorNow(sc: Scenario, c: Core): Sensor {
    var upDrop := Decide(Rng.DrawDrop(c.up, sc.lossUp).0, sc.forcedUp(c.tick));
    var opcode, simReason := sc.commandAt(c.tick), SimReason(sc, c.tick, c.pending);
    Sensor(c.tick % TWO64, 0, if upDrop then 0 else c.truth.theta, if upDrop then 0 else c.truth.omega,
           SensorFlags(upDrop, opcode, simReason), if opcode.Some? then (c.cmdSeq + 1) % TWO32 else 0,
           if simReason.Some? then simReason.value else 0)
  }

  function FrameNow(sc: Scenario, c: Core): seq<byte> {
    EncodeFrame(SENSOR, c.tick % TWO32, EncodeSensor(SensorNow(sc, c)))
  }

  function OpeningOf(sc: Scenario, c: Core): Opening {
    Opening(FrameNow(sc, c), Decide(Rng.DrawDrop(c.up, sc.lossUp).0, sc.forcedUp(c.tick)),
            Decide(Rng.DrawDrop(c.down, sc.lossDown).0, sc.forcedDown(c.tick)), SimReason(sc, c.tick, c.pending))
  }

  /** The random streams and the command sequence advance once, when the tick opens. */
  function Opened(sc: Scenario, c: Core): Core {
    c.(up := Rng.DrawDrop(c.up, sc.lossUp).1, down := Rng.DrawDrop(c.down, sc.lossDown).1,
       cmdSeq := if sc.commandAt(c.tick).Some? then (c.cmdSeq + 1) % TWO32 else c.cmdSeq)
  }

  /** A tick's accepted reply: delay line, actuator, row, end of run, plant. */
  function Close(sc: Scenario, c: Core, now: Opening, delta: word, state: byte): (Core, Option<u32>) {
    var (arriving, delay) := Released(c.delay, if now.downDrop then None else Some(delta));
    var applied := ActuatorStep(c.applied, arriving);
    var row := SimRow(c.tick, !now.upDrop && IsFinite(c.truth.theta) && IsFinite(c.truth.omega), arriving.Some?,
                      c.truth.theta, c.truth.omega, applied);
    var final := if now.simReason.Some? then now.simReason
                 else if state == TERMINATED.Code() then Some(VEHICLE_TERMINAL) else None;
    var truth := if final.Some? then c.truth else sc.plant(c.tick, c.truth, applied);
    (c.(tick := c.tick + 1, delay := delay, truth := truth, applied := applied, rows := c.rows + [row],
        pending := if final.Some? then c.pending else PendingReason(truth, c.pending)), final)
  }

  // The process, one kernel call at a time

  function OpenedUp(up: Transmission, tick: nat, upDrop: bool): Transmission {
    up.(counts := Generate(up.counts), modeledSampleLoss := up.modeledSampleLoss + if upDrop then 1 else 0,
        firstTick := if up.firstTick.None? then Some(tick) else up.firstTick, lastTick := Some(tick))
  }

  function OpenTick(sc: Scenario, s: Sim): Sim {
    var now := OpeningOf(sc, s.core);
    s.(core := Opened(sc, s.core), now := now, up := OpenedUp(s.up, s.core.tick, now.upDrop), logged := false,
       phase := Sending(0))
  }

  function StartCore(w: World): Core {
    Core(0, Rng.StreamState(w.seed, 0), Rng.StreamState(w.seed, 1), EmptyLine(w.delayTicks), w.sc.initial, 0, None, 0,
         [])
  }

  /** What a tick's transaction changes: the counters, the recorded inputs, whether a copy went out. */
  datatype Traffic = Traffic(up: Transmission, down: Receipt, inputs: seq<seq<byte>>, logged: bool)

  const NO_TRAFFIC := Traffic(Transmission(NOTHING_SENT, 0, None, None), Receipt(NO_RECEIPTS, 0, 0, 0, 0), [], false)

  /** Between two ticks, while the run goes on. */
  function Between(c: Core, x: Traffic, replies: seq<Actuator>, lastReply: Option<seq<byte>>, seen: Option<byte>): Sim {
    Sim(c, Opening([], false, false, None), Sending(0), false, x.inputs, x.up, x.down, replies, lastReply,
        PEER_LOST_REASON, seen)
  }

  function Begin(w: World): Sim { OpenTick(w.sc, Between(StartCore(w), NO_TRAFFIC, [], None, None)) }

  function AfterSend(s: Sim, ok: bool): Sim
    requires s.phase.Sending?
  {
    var a := s.phase.attempt;
    s.(up := s.up.(counts := FinishSend(BeginSend(s.up.counts, a == 0), s.logged, ok)), logged := s.logged || ok,
       inputs := if ok && !s.logged then s.inputs + [s.now.frame] else s.inputs, phase := Listening(a))
  }

  function Count(r: Receipt, malformed: int, received: int, duplicate: int, rejected: int, logical: int): Receipt {
    r.(counts := r.counts.(receivedRaw := r.counts.receivedRaw + 1, malformed := r.counts.malformed + malformed,
                           received := r.counts.received + received,
                           discardedDuplicate := r.counts.discardedDuplicate + duplicate,
                           rejectedReceived := r.counts.rejectedReceived + rejected,
                           logicalReceived := r.counts.logicalReceived + logical))
  }

  /** The tick's reply has been accepted. */
  function Accept(sc: Scenario, s: Sim, data: seq<byte>, value: Actuator): Sim {
    var (core, final) := Close(sc, s.core, s.now, value.delta, value.status % 256);
    var down := Count(s.down, 0, 1, 0, 0, 1);
    var t := s.(core := core, replies := s.replies + [value], lastReply := Some(data),
                down := if s.now.downDrop then down.(modeledCommandLoss := down.modeledCommandLoss + 1)
                        else down.(forwardedToDelay := down.forwardedToDelay + 1),
                vehicleSeen := if value.status % 256 == TERMINATED.Code() then Some(value.status / 256 % 256)
                               else s.vehicleSeen);
    if final.Some? then t.(finalReason := final.value, phase := Ended(0))
    else if core.tick < sc.ticks then OpenTick(sc, t) else t.(phase := Ended(0))
  }

  function OnData(w: World, s: Sim, data: seq<byte>): Sim {
    var value := ReplyIn(data);
    if value.None? then s.(down := Count(s.down, 1, 0, 0, 0, 0))
    else if Some(s.down.counts.receivedRaw + 1) == w.dropActuator then
      s.(down := Count(s.down, 0, 1, 0, 1, 0).(testDiscarded := s.down.testDiscarded + 1))
    else if value.value.tick != s.core.tick then
      if Some(data) == s.lastReply then s.(down := Count(s.down, 0, 1, 1, 0, 0))
      else s.(down := Count(s.down, 0, 1, 0, 1, 0).(discardedOld := s.down.discardedOld + 1))
    else if value.value.vehTick != s.core.tick || !IsFinite(value.value.delta)
            || value.value.sensorSendNs != 0 || value.value.vehSendNs != 0 then
      s.(down := Count(s.down, 0, 1, 0, 1, 0), phase := Ended(1))
    else Accept(w.sc, s, data, value.value)
  }

  /** The process after one more kernel call. */
  function Next(w: World, s: Sim, e: Outcome): Sim {
    match s.phase
    case Sending(_) => AfterSend(s, e.Sent? && e.ok)
    case Listening(a) =>
      if e.Got? then OnData(w, s, e.data)
      else if e.Broken? || a + 1 == ATTEMPTS then s.(phase := Ended(1))
      else s.(phase := Sending(a + 1))
    case Ended(_) => s
  }

  function Played(w: World, outcomes: seq<Outcome>): Sim
    decreases |outcomes|
  {
    if outcomes == [] then Begin(w)
    else Next(w, Played(w, outcomes[..|outcomes| - 1]), outcomes[|outcomes| - 1])
  }

  lemma PlayedNext(w: World, outcomes: seq<Outcome>, n: nat)
    requires n < |outcomes|
    ensures Played(w, outcomes[..n + 1]) == Next(w, Played(w, outcomes[..n]), outcomes[n])
  {
    hide Next, Begin;
    assert outcomes[..n + 1][..n] == outcomes[..n];
  }

  // The program itself; the process may be killed at any kernel call, when `env` has no more outcomes

  datatype Verdict = Answered(data: seq<byte>, value: Actuator) | Failed | Killed

  function WithTraffic(s: Sim, x: Traffic, phase: Phase): Sim {
    s.(up := x.up, down := x.down, inputs := x.inputs, logged := x.logged, phase := phase)
  }

  method SendOnce(original: bool, frame: seq<byte>, ok: bool, before: Traffic) returns (x: Traffic)
    ensures x == before.(up := before.up.(counts := FinishSend(BeginSend(before.up.counts, original),
                                                               before.logged, ok)),
                         logged := before.logged || ok,
                         inputs := if ok && !before.logged then before.inputs + [frame] else before.inputs)
  {
    var c, logged, inputs := before.up.counts, before.logged, before.inputs;
    c := c.(sendAttempts := c.sendAttempts + 1, sendPending := c.sendPending + 1);
    if original {
      c := c.(originalAttempts := c.originalAttempts + 1, notAttempted := c.notAttempted - 1);
    } else {
      c := c.(retryAttempts := c.retryAttempts + 1);
    }
    if !ok {
      c := c.(txFail := c.txFail + 1);
    } else {
      c := c.(transmitted := c.transmitted + 1);
      if logged {
        c := c.(additionalCopies := c.additionalCopies + 1);
      } else {
        c := c.(firstTransmitted := c.firstTransmitted + 1, neverTransmitted := c.neverTransmitted - 1);
        inputs, logged := inputs + [frame], true;
      }
    }
    c := c.(sendPending := c.sendPending - 1);
    x := Traffic(before.up.(counts := c), before.down, inputs, logged);
  }

  /** One datagram: counted, and either dropped, fatal or the answer. */
  method Examine(w: World, tick: nat, lastReply: Option<seq<byte>>, data: seq<byte>, before: Receipt, ghost s: Sim)
    returns (down: Receipt, verdict: Option<Verdict>)
    requires s.core.tick == tick && s.lastReply == lastReply && s.down == before
    ensures var n := OnData(w, s, data);
            if verdict.None? then n == s.(down := down)
            else if verdict.value.Answered? then
              && verdict.value.data == data && n == Accept(w.sc, s, data, verdict.value.value)
              && down == Count(before, 0, 1, 0, 0, 1)
            else verdict.value.Failed? && n == s.(down := down, phase := Ended(1))
  {
    hide ReplyIn, Accept, IsFinite;
    down, verdict := before.(counts := before.counts.(receivedRaw := before.counts.receivedRaw + 1)), None;
    var read := ReplyIn(data);
    if read.None? {
      down := down.(counts := down.counts.(malformed := down.counts.malformed + 1));
      return;
    }
    down := down.(counts := down.counts.(received := down.counts.received + 1));
    var value := read.value;
    if Some(down.counts.receivedRaw) == w.dropActuator {
      down := down.(testDiscarded := down.testDiscarded + 1,
                    counts := down.counts.(rejectedReceived := down.counts.rejectedReceived + 1));
    } else if value.tick != tick {
      if Some(data) == lastReply {
        down := down.(counts := down.counts.(discardedDuplicate := down.counts.discardedDuplicate + 1));
      } else {
        down := down.(discardedOld := down.discardedOld + 1,
                      counts := down.counts.(rejectedReceived := down.counts.rejectedReceived + 1));
      }
    } else if value.vehTick != tick || !IsFinite(value.delta) || value.sensorSendNs != 0 || value.vehSendNs != 0 {
      down := down.(counts := down.counts.(rejectedReceived := down.counts.rejectedReceived + 1));
      verdict := Some(Failed);
    } else {
      down := down.(counts := down.counts.(logicalReceived := down.counts.logicalReceived + 1));
      verdict := Some(Answered(data, value));
    }
  }

  /** The retry loop of one tick. */
  method Transact(w: World, env: seq<Outcome>, from: nat, tick: nat, frame: seq<byte>, lastReply: Option<seq<byte>>,
                  before: Traffic, ghost s: Sim)
    returns (calls: nat, x: Traffic, verdict: Verdict, phase: Phase)
    requires from <= |env| && s == Played(w, env[..from]) && s.phase == Sending(0)
    requires s.core.tick == tick && s.now.frame == frame && s.lastReply == lastReply
    requires s == WithTraffic(s, before, s.phase)
    ensures from <= calls <= |env|
    ensures verdict == Killed ==> calls == |env| && Played(w, env[..calls]) == WithTraffic(s, x, phase)
    ensures verdict == Failed ==> Played(w, env[..calls]) == WithTraffic(s, x, Ended(1))
    ensures verdict.Answered? ==>
              exists b: Receipt ::
                && x.down == Count(b, 0, 1, 0, 0, 1)
                && Played(w, env[..calls])
                   == Accept(w.sc, WithTraffic(s, x.(down := b), phase), verdict.data, verdict.value)
  {
    hide Played, OnData, Accept, FinishSend, BeginSend, Count;
    calls, x := from, before;
    for attempt := 0 to ATTEMPTS
      invariant from <= calls <= |env|
      invariant Played(w, env[..calls])
             == WithTraffic(s, x, if attempt == ATTEMPTS then Ended(1) else Sending(attempt))
    {
      phase := Sending(attempt);
      if calls == |env| { return calls, x, Killed, phase; }
      PlayedNext(w, env, calls);
      x := SendOnce(attempt == 0, frame, env[calls] == Sent(true), x);
      calls := calls + 1;
      phase := Listening(attempt);
      while true
        invariant from <= calls <= |env| && phase == Listening(attempt)
        invariant Played(w, env[..calls]) == WithTraffic(s, x, phase)
        decreases |env| - calls
      {
        if calls == |env| { return calls, x, Killed, phase; }
        PlayedNext(w, env, calls);
        var o := env[calls];
        calls := calls + 1;
        if o.Broken? { return calls, x, Failed, phase; }
        if !o.Got? { break; }
        ghost var listening := WithTraffic(s, x, phase);
        ghost var b := x.down;
        var down, outcome := Examine(w, tick, lastReply, o.data, x.down, listening);
        x := x.(down := down);
        if outcome.Some? {
          assert x.(down := b) == x.(down := listening.down);
          return calls, x, outcome.value, phase;
        }
      }
    }
    return calls, x, Failed, Ended(1);
  }

  method FlagsFor(upDrop: bool, opcode: Option<nat>, simReason: Option<u32>, before: u32)
    returns (flags: u32, commandSeq: u32)
    ensures flags == SensorFlags(upDrop, opcode, simReason)
    ensures commandSeq == if opcode.Some? then (before + 1) % TWO32 else before
  {
    flags, commandSeq := if upDrop then 0 else 1, before;
    if opcode.Some? {
      commandSeq := (commandSeq + 1) % TWO32;
      flags := flags + (4 + 256 * (opcode.value % 256));
    }
    if simReason.Some? { flags := flags + 2; }
  }

  method OpenInPlace(sc: Scenario, ghost c: Core, upStream: Rng.SplitMix64, downStream: Rng.SplitMix64, tick: nat,
                     truth: Truth, pendingReason: Option<u32>, seqBefore: u32, before: Transmission)
    returns (now: Opening, commandSeq: u32, up: Transmission)
    requires upStream != downStream && c.up == upStream.state && c.down == downStream.state
    requires c.tick == tick && c.truth == truth && c.pending == pendingReason && c.cmdSeq == seqBefore
    modifies upStream, downStream
    ensures now == OpeningOf(sc, c) && (now.simReason.None? ==> tick + 1 != sc.ticks)
    ensures Opened(sc, c) == c.(up := upStream.state, down := downStream.state, cmdSeq := commandSeq)
    ensures up == OpenedUp(before, tick, now.upDrop)
  {
    hide Rng.DrawDrop, EncodeFrame, EncodeSensor, SensorFlags, Decide;
    var upDrop := DecideInPlace(upStream, sc.lossUp, sc.forcedUp(tick));
    var downDrop := DecideInPlace(downStream, sc.lossDown, sc.forcedDown(tick));
    var simReason := pendingReason;
    if simReason.None? && tick == sc.ticks - 1 { simReason := Some(SIM_HORIZON); }
    var opcode := sc.commandAt(tick);
    var flags;
    flags, commandSeq := FlagsFor(upDrop, opcode, simReason, seqBefore);
    var sensor := Sensor(tick % TWO64, 0, if upDrop then 0 else truth.theta, if upDrop then 0 else truth.omega, flags,
                         if opcode.Some? then commandSeq else 0, if simReason.Some? then simReason.value else 0);
    assert sensor == SensorNow(sc, c);
    now := Opening(EncodeFrame(SENSOR, tick % TWO32, EncodeSensor(sensor)), upDrop, downDrop, simReason);
    var counts := before.counts;
    counts := counts.(generated := counts.generated + 1, notAttempted := counts.notAttempted + 1,
                      neverTransmitted := counts.neverTransmitted + 1);
    up := Transmission(counts, before.modeledSampleLoss + if upDrop then 1 else 0,
                       if before.firstTick.None? then Some(tick) else before.firstTick, Some(tick));
  }

  method CloseInPlace(sc: Scenario, ghost c: Core, delay: Delay, tick: nat, truthBefore: Truth, appliedBefore: word,
                      pendingBefore: Option<u32>, now: Opening, value: Actuator)
    returns (truth: Truth, applied: word, pendingReason: Option<u32>, row: SimRow, final: Option<u32>)
    requires c.delay == delay.values && c.tick == tick && c.truth == truthBefore && c.applied == appliedBefore
    requires c.pending == pendingBefore
    modifies delay
    ensures now.simReason.Some? ==> final.Some?
    ensures Close(sc, c, now, value.delta, value.status % 256)
         == (c.(tick := tick + 1, delay := delay.values, truth := truth, applied := applied, rows := c.rows + [row],
                pending := pendingReason), final)
  {
    hide IsFinite, AbsExceeds, Released, ActuatorStep;
    truth, pendingReason, final := truthBefore, pendingBefore, None;
    var arriving := delay.PushPop(if now.downDrop then None else Some(value.delta));
    applied := ActuatorStep(appliedBefore, arriving);
    row := SimRow(tick, !now.upDrop && IsFinite(truth.theta) && IsFinite(truth.omega), arriving.Some?, truth.theta,
                  truth.omega, applied);
    if now.simReason.Some? { return truth, applied, pendingReason, row, now.simReason; }
    if value.status % 256 == 3 { return truth, applied, pendingReason, row, Some(VEHICLE_TERMINAL); }
    truth := sc.plant(tick, truth, applied);
    if !IsFinite(truth.theta) || !IsFinite(truth.omega) {
      pendingReason := Some(SIM_LOC_NONFINITE);
    } else if AbsExceeds(truth.theta, LOSS_OF_CONTROL) {
      pendingReason := Some(SIM_LOC_ANGLE);
    }
  }

  lemma PlayedNothing(w: World, env: seq<Outcome>)
    ensures Played(w, env[..0]) == Begin(w)
  {
    hide Begin;
  }

  lemma OpenedBetween(sc: Scenario, c: Core, x: Traffic, replies: seq<Actuator>, lastReply: Option<seq<byte>>,
                      seen: Option<byte>)
    ensures var now := OpeningOf(sc, c);
            OpenTick(sc, Between(c, x, replies, lastReply, seen))
            == Sim(Opened(sc, c), now, Sending(0), false, x.inputs, OpenedUp(x.up, c.tick, now.upDrop), x.down, replies,
                   lastReply, PEER_LOST_REASON, seen)
  {
    hide OpeningOf, Opened, OpenedUp;
  }

  function Resolved(r: Receipt, dropped: bool): Receipt {
    if dropped then r.(modeledCommandLoss := r.modeledCommandLoss + 1)
    else r.(forwardedToDelay := r.forwardedToDelay + 1)
  }

  lemma AcceptedBetween(w: World, s: Sim, x: Traffic, b: Receipt, phase: Phase, data: seq<byte>, value: Actuator)
    requires s.finalReason == PEER_LOST_REASON && x.down == Count(b, 0, 1, 0, 0, 1)
    ensures var (c, final) := Close(w.sc, s.core, s.now, value.delta, value.status % 256);
            var replies, down := s.replies + [value], Resolved(x.down, s.now.downDrop);
            var seen := if value.status % 256 == 3 then Some(value.status / 256 % 256) else s.vehicleSeen;
            var n := Accept(w.sc, WithTraffic(s, x.(down := b), phase), data, value);
            && (final.Some? ==> n == Sim(c, s.now, Ended(0), x.logged, x.inputs, x.up, down, replies, Some(data),
                                         final.value, seen))
            && (final.None? && c.tick < w.sc.ticks ==>
                  n == OpenTick(w.sc, Between(c, x.(down := down), replies, Some(data), seen)))
  {
    hide OpeningOf, Opened, Count, Close;
  }

  /** The simulator process: the state it leaves behind is the one its kernel calls add up to. */
  method Execute(w: World, env: seq<Outcome>) returns (s: Sim, calls: nat)
    requires 0 < w.sc.ticks
    ensures calls <= |env| && s == Played(w, env[..calls]) && (s.phase.Ended? || calls == |env|)
  {
    hide Played, OpeningOf, Opened, OpenTick, OpenedUp, Accept, Close, Rng.StreamState, Generate, Count, EmptyLine;
    var upStream := new Rng.SplitMix64(Rng.StreamState(w.seed, 0));
    var downStream := new Rng.SplitMix64(Rng.StreamState(w.seed, 1));
    var delay := new Delay(w.delayTicks);
    var truth, applied, pendingReason, commandSeq: u32 := w.sc.initial, 0, None, 0;
    var x, rows, replies, lastReply, vehicleSeen: Option<byte> := NO_TRAFFIC, [], [], None, None;
    var tick := 0;
    calls := 0;
    PlayedNothing(w, env);
    while tick < w.sc.ticks
      invariant tick < w.sc.ticks && calls <= |env|
      invariant OpenTick(w.sc, Between(Core(tick, upStream.state, downStream.state, delay.values, truth, applied,
                                            pendingReason, commandSeq, rows), x, replies, lastReply, vehicleSeen))
             == Played(w, env[..calls])
    {
      ghost var c := Core(tick, upStream.state, downStream.state, delay.values, truth, applied, pendingReason,
                          commandSeq, rows);
      OpenedBetween(w.sc, c, x, replies, lastReply, vehicleSeen);
      var now, up;
      now, commandSeq, up := OpenInPlace(w.sc, c, upStream, downStream, tick, truth, pendingReason, commandSeq, x.up);
      var core := Core(tick, upStream.state, downStream.state, delay.values, truth, applied, pendingReason, commandSeq,
                       rows);
      x := Traffic(up, x.down, x.inputs, false);
      s := Sim(core, now, Sending(0), false, x.inputs, up, x.down, replies, lastReply, PEER_LOST_REASON, vehicleSeen);
      var verdict, phase;
      calls, x, verdict, phase := Transact(w, env, calls, tick, now.frame, lastReply, x, s);
      if !verdict.Answered? {
        s := WithTraffic(s, x, if verdict.Killed? then phase else Ended(1));
        break;
      }
      var data, value := verdict.data, verdict.value;
      ghost var b: Receipt :| x.down == Count(b, 0, 1, 0, 0, 1)
                              && Played(w, env[..calls])
                                 == Accept(w.sc, WithTraffic(s, x.(down := b), phase), data, value);
      AcceptedBetween(w, s, x, b, phase, data, value);
      replies, lastReply, x := replies + [value], Some(data), x.(down := Resolved(x.down, now.downDrop));
      var row, final;
      truth, applied, pendingReason, row, final :=
        CloseInPlace(w.sc, core, delay, tick, truth, applied, pendingReason, now, value);
      rows := rows + [row];
      if value.status % 256 == 3 { vehicleSeen := Some(value.status / 256 % 256); }
      tick := tick + 1;
      if final.Some? {
        core := Core(tick, upStream.state, downStream.state, delay.values, truth, applied, pendingReason, commandSeq,
                     rows);
        s := Sim(core, now, Ended(0), x.logged, x.inputs, x.up, x.down, replies, lastReply, final.value, vehicleSeen);
        break;
      }
    }
  }
}
