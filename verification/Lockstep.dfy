/** Simulator and vehicle over a network that loses, repeats, delays and reorders, or garbles detectably:
    the logical run is the reference run. */
module Lockstep {
  import opened Basics
  import opened Episode
  import opened Frames
  import opened Payload
  import opened Reconcile
  import opened Headless
  import opened Session
  import opened Simulator
  import EpisodeRuns
  import HeadlessRuns
  import Rng

  // The reference run, seen from the two sides

  function SimRowOf(row: Row): SimRow {
    SimRow(row.tick, !row.upDrop && IsFinite(row.truth.theta) && IsFinite(row.truth.omega), row.arriving.Some?,
           row.truth.theta, row.truth.omega, row.applied)
  }

  function SimRows(rows: seq<Row>): (s: seq<SimRow>)
    ensures |s| == |rows| && forall i | 0 <= i < |rows| :: s[i] == SimRowOf(rows[i])
  {
    seq(|rows|, i requires 0 <= i < |rows| => SimRowOf(rows[i]))
  }

  function CoreOf(r: Run): Core {
    Core(r.tick, r.up, r.down, r.delay, r.truth, r.applied, r.pending, r.cmdSeq, SimRows(r.rows))
  }

  /** The sensor frame of tick `k` of the reference run, and the reply to it. */
  function SensorAt(w: World, k: nat): Sensor { SensorNow(w.sc, CoreOf(w.At(k))) }

  function FrameAt(w: World, k: nat): seq<byte> { FrameNow(w.sc, CoreOf(w.At(k))) }

  function ReplyAt(w: World, k: nat): seq<byte> {
    StalenessBounded(w.sc, w.At(k));
    ReplyOf(SensorAt(w, k), k % TWO64, InputsNow(w.sc, w.At(k)), OutputNow(w.sc, w.At(k)))
  }

  function StatusAt(w: World, k: nat): u32 {
    var i, o := InputsNow(w.sc, w.At(k)), OutputNow(w.sc, w.At(k));
    Status(o.state, Rung(i.staleness, i.isFresh), o.acks)
  }

  predicate Live(w: World, k: nat) { w.At(k).finalReason.None? }

  lemma StalenessBounded(sc: Scenario, r: Run)
    requires HeldInPast(r)
    ensures InputsNow(sc, r).staleness <= MAX32
  {
    hide UpDrop;
  }

  /** A live tick fits the wire with room for the command lead. */
  lemma LiveTick(w: World, k: nat)
    requires Loaded(w.sc) && Live(w, k)
    ensures w.At(k).tick == k < w.sc.ticks && k + 50 < TWO64
    ensures WellFormed(w.At(k).episode) && w.At(k).episode.mode != TERMINATED
  {
    hide RunFor, After, Initial;
    var r := w.At(k);
    HeadlessRuns.RunConsistent(w.sc, w.seed, w.delayTicks, k);
    EpisodeRuns.RunWellFormed(PolicyOf(w.sc), w.sc.autoArm, HeadlessRuns.InputsOf(r.rows));
  }

  lemma ReferenceConsistent(w: World, k: nat)
    requires Loaded(w.sc)
    ensures HeadlessRuns.Consistent(w.sc, w.At(k))
  {
    hide RunFor, HeadlessRuns.Consistent;
    HeadlessRuns.RunConsistent(w.sc, w.seed, w.delayTicks, k);
  }

  // What a frame says to the vehicle

  lemma FlagArithmetic(f: nat, a: nat, b: nat, c: nat, o: nat)
    requires a <= 1 && b <= 1 && c <= 1 && o < 256
    requires f == a + 2 * b + 4 * c + 256 * o
    ensures f % 2 == a && f / 2 % 2 == b && f / 4 % 2 == c && f / 256 % 256 == o
    ensures MaskFF07(f) == f
  {
    assert f / 2 == b + 2 * c + 128 * o;
    assert f / 4 == c + 64 * o;
    assert f / 256 == o;
  }

  lemma FlagBits(upDrop: bool, opcode: Option<nat>, simReason: Option<u32>)
    ensures Flag(SensorFlags(upDrop, opcode, simReason), 1) == !upDrop
    ensures Flag(SensorFlags(upDrop, opcode, simReason), 2) == simReason.Some?
    ensures Flag(SensorFlags(upDrop, opcode, simReason), 4) == opcode.Some?
    ensures opcode.Some? ==> SensorFlags(upDrop, opcode, simReason) / 256 % 256 == opcode.value % 256
    ensures MaskFF07(SensorFlags(upDrop, opcode, simReason)) == SensorFlags(upDrop, opcode, simReason)
  {
    hide MaskFF07;
    var o := if opcode.Some? then opcode.value % 256 else 0;
    FlagArithmetic(SensorFlags(upDrop, opcode, simReason), if upDrop then 0 else 1, if simReason.Some? then 1 else 0,
                   if opcode.Some? then 1 else 0, o);
  }

  lemma SensorFlagsKept(sc: Scenario, c: Core)
    ensures MaskFF07(SensorNow(sc, c).flags) == SensorNow(sc, c).flags
  {
    hide Rng.DrawDrop, SensorFlags, MaskFF07;
    FlagBits(Decide(Rng.DrawDrop(c.up, sc.lossUp).0, sc.forcedUp(c.tick)), sc.commandAt(c.tick),
             SimReason(sc, c.tick, c.pending));
  }

  lemma FrameRead(w: World, k: nat)
    ensures var d := Decode(Datagram(FrameAt(w, k), false));
            d.Good? && d.payload == EncodeSensor(SensorAt(w, k)) && DecodeSensor(d.payload) == SensorAt(w, k)
  {
    hide DecodeDatagram, EncodeFrame, EncodeSensor, DecodeSensor, SensorNow, RunFor, PayloadSize, SensorFlags;
    SensorFlagsKept(w.sc, CoreOf(w.At(k)));
    SensorRoundTrip(SensorAt(w, k));
    SensorSize();
    DecodeInvertsEncode(SENSOR, CoreOf(w.At(k)).tick % TWO32, EncodeSensor(SensorAt(w, k)), {SENSOR});
  }

  lemma SensorSize()
    ensures PayloadSize(SENSOR) == 44 && PayloadSize(ACTUATOR) == 48
  {}

  lemma SameHeld(sc: Scenario, r: Run)
    requires r.tick < TWO64
    ensures var s := SensorNow(sc, CoreOf(r));
            && SampleFresh(s) == IsFresh(Observed(sc, r)) && SampleHeld(s, r.held) == HeldNow(Observed(sc, r), r.held)
            && s.tick == r.tick
  {
    hide Rng.DrawDrop, SensorFlags, Flag, IsFinite;
    FlagBits(UpDrop(sc, r), sc.commandAt(r.tick), SimReason(sc, r.tick, r.pending));
    assert IsFinite(0) by { FiniteZero(); }
  }

  lemma FiniteZero()
    ensures IsFinite(0)
  {}

  lemma SameCommand(sc: Scenario, r: Run)
    requires Loaded(sc) && r.tick + 50 < TWO64
    ensures var s := SensorNow(sc, CoreOf(r));
            && (if Flag(s.flags, 4) then Some(Command(s.cmdSeq, s.flags / 256 % 256, (s.tick + 50) % TWO64)) else None)
               == CommandNow(sc, r)
            && (if Flag(s.flags, 2) then Some(s.reason) else None) == SimReason(sc, r.tick, r.pending)
  {
    hide Rng.DrawDrop, SensorFlags, Flag, IsFinite, SensorNow, SimReason;
    SensorFields(sc, r);
    FlagBits(UpDrop(sc, r), sc.commandAt(r.tick), SimReason(sc, r.tick, r.pending));
  }

  lemma SensorFields(sc: Scenario, r: Run)
    requires r.tick + 50 < TWO64
    ensures var s := SensorNow(sc, CoreOf(r));
            && s.tick == r.tick && (s.tick + 50) % TWO64 == r.tick + 50
            && s.flags == SensorFlags(UpDrop(sc, r), sc.commandAt(r.tick), SimReason(sc, r.tick, r.pending))
            && (sc.commandAt(r.tick).Some? ==> s.cmdSeq == NextSeq(sc, r))
            && (SimReason(sc, r.tick, r.pending).Some? ==> s.reason == SimReason(sc, r.tick, r.pending).value)
  {
    hide Rng.DrawDrop, SensorFlags, SimReason;
  }

  lemma SameAge(tick: u64, held: Option<Obs<word>>)
    requires held.Some? ==> held.value.tick <= tick
    ensures SampleAge(tick, held, tick) == Age(tick, held)
  {}

  /** The vehicle rebuilds from the frame exactly the inputs of the reference episode. */
  lemma SameInputs(w: World, k: nat)
    requires Loaded(w.sc) && Live(w, k)
    ensures SampleInputs(SensorAt(w, k), w.At(k).held, k) == InputsNow(w.sc, w.At(k))
  {
    hide RunFor, SensorNow, Flag, IsFresh, SampleFresh, SampleHeld, HeldNow, SampleAge, Age, CommandNow, SimReason,
         Loaded, Observed;
    var r := w.At(k);
    LiveTick(w, k);
    SameHeld(w.sc, r);
    SameCommand(w.sc, r);
    HeadlessRuns.HeldNowInPast(w.sc, r);
    SameAge(r.tick, HeldNow(Observed(w.sc, r), r.held));
  }

  // The vehicle after `a` answered ticks

  predicate VehicleAt(w: World, v: View, a: nat) {
    && Sane(v) && v.up.counts.logicalReceived == a && v.state == w.At(a).episode && v.held == w.At(a).held
    && v.answered == (a > 0)
    && (a > 0 ==>
          && v.newest == a - 1 && v.lastPayload == EncodeSensor(SensorAt(w, a - 1))
          && v.reply == ReplyAt(w, a - 1))
    && v.up.skippedTick == 0 && v.up.discardedTickConflict == 0
  }

  lemma VehicleStarts(w: World)
    ensures VehicleAt(w, Fresh(PolicyOf(w.sc), w.sc.autoArm), 0)
  {}

  lemma SensorTick(w: World, k: nat)
    requires Loaded(w.sc) && Live(w, k)
    ensures SensorAt(w, k).tick == k
  {
    hide RunFor, SensorFlags, Rng.DrawDrop, Loaded;
    LiveTick(w, k);
  }

  lemma NextRun(w: World, k: nat)
    requires Live(w, k)
    ensures w.At(k + 1) == Tick(w.sc, w.At(k))
    ensures w.At(k + 1).episode == OutputNow(w.sc, w.At(k)).state && w.At(k + 1).held == InputsNow(w.sc, w.At(k)).held
  {
    hide RunFor, Tick;
    RunForNext(w.sc, w.seed, w.delayTicks, k);
    TickFields(w.sc, w.At(k));
  }

  lemma SmallMod(a: nat)
    requires a < TWO64
    ensures a % TWO64 == a
  {}

  lemma CycleReply(w: World, v: View, a: nat)
    requires Loaded(w.sc) && Live(w, a) && VehicleAt(w, v, a)
    ensures var n := NewCycle(PolicyOf(w.sc), v, EncodeSensor(SensorAt(w, a)));
            && n.reply == ReplyAt(w, a) && n.held == w.At(a + 1).held && n.state == w.At(a + 1).episode
            && n.up == CountSample(v.up, SensorAt(w, a)) && n.fault == v.fault && n.newest == a
            && n.lastPayload == EncodeSensor(SensorAt(w, a)) && n.answered
  {
    hide RunFor, FrameAt, SensorAt, DecodeSensor, EncodeSensor, PolicyOf, NewCycle, SampleInputs, InputsNow,
         ReplyOf, RecordOf, Loaded, Stepped, Flag, Step, Decode, CountSample;
    FrameRead(w, a);
    SensorTick(w, a);
    LiveTick(w, a);
    SameInputs(w, a);
    NextRun(w, a);
    NewCycleFields(PolicyOf(w.sc), v, EncodeSensor(SensorAt(w, a)));
    SmallMod(a);
  }

  lemma CycleRuns(w: World, v: View, a: nat)
    requires Loaded(w.sc) && Live(w, a) && VehicleAt(w, v, a)
    ensures VehicleAt(w, NewCycle(PolicyOf(w.sc), v, EncodeSensor(SensorAt(w, a))), a + 1)
    ensures NewCycle(PolicyOf(w.sc), v, EncodeSensor(SensorAt(w, a))).fault == v.fault
  {
    hide RunFor, SensorAt, EncodeSensor, PolicyOf, NewCycle, Loaded, SampleFresh, Flag, ReplyAt;
    CycleReply(w, v, a);
  }

  /** The frame of the next tick runs the next cycle of the reference episode. */
  lemma VehicleAnswers(w: World, v: View, a: nat)
    requires Loaded(w.sc) && Live(w, a) && VehicleAt(w, v, a)
    ensures var (n, kind) := Received(PolicyOf(w.sc), v, Datagram(FrameAt(w, a), false));
            kind == New && VehicleAt(w, n, a + 1) && n.fault == v.fault
  {
    hide RunFor, FrameAt, SensorAt, Decode, DecodeSensor, EncodeSensor, PolicyOf, NewCycle, ReplyAt, Loaded;
    FrameRead(w, a);
    SensorTick(w, a);
    LiveTick(w, a);
    CycleRuns(w, v.(up := CountReceived(v.up)), a);
  }

  /** The frame of an answered tick is answered from the cache if it is the latest, and else dropped. */
  lemma VehicleRepeats(w: World, v: View, a: nat, k: nat)
    requires Loaded(w.sc) && Live(w, k) && VehicleAt(w, v, a) && k < a
    ensures var (n, kind) := Received(PolicyOf(w.sc), v, Datagram(FrameAt(w, k), false));
            kind == (if k + 1 == a then Cached else Discard) && VehicleAt(w, n, a) && n.fault == v.fault
  {
    hide RunFor, FrameAt, SensorAt, Decode, DecodeSensor, EncodeSensor, PolicyOf, NewCycle, ReplyAt, Loaded;
    FrameRead(w, k);
    SensorTick(w, k);
  }

  lemma VehicleIgnores(w: World, v: View, a: nat, packet: Datagram)
    requires VehicleAt(w, v, a) && Decode(packet).Bad?
    ensures var (n, kind) := Received(PolicyOf(w.sc), v, packet);
            kind == Discard && VehicleAt(w, n, a) && n.fault == v.fault
  {
    hide RunFor, SensorAt, Decode, EncodeSensor, PolicyOf, NewCycle, ReplyAt;
  }

  /** A frame of a live tick below `n`. */
  ghost predicate IsFrame(w: World, x: seq<byte>, n: nat) { exists k: nat :: k < n && Live(w, k) && x == FrameAt(w, k) }

  /** What the network may hand the vehicle. */
  ghost predicate Arrives(w: World, packet: Datagram, n: nat) {
    Decode(packet).Bad? || (!packet.truncated && IsFrame(w, packet.bytes, n))
  }

  lemma SendingKeeps(w: World, v: View, a: nat, original: bool, sent: bool, pushed: bool)
    requires VehicleAt(w, v, a)
    ensures var m := SendFinished(SendBegun(v, original), original, sent);
            && VehicleAt(w, m, a) && m.fault == v.fault
            && VehicleAt(w, RecordNoted(m, pushed), a) && RecordNoted(m, pushed).fault == v.fault
  {
    hide RunFor, SensorAt, EncodeSensor, ReplyAt, BeginSend, FinishSend, WithTransmitted;
  }

  /** One pass of the receive loop: the answered ticks grow by the next one or not at all, no frame is ever a
      conflict or ahead of time, and a reply goes out only for the latest answered tick. */
  lemma VehicleHandles(w: World, v: View, a: nat, n: nat, packet: Datagram, sent: bool, pushed: bool)
    returns (b: nat)
    requires Loaded(w.sc) && VehicleAt(w, v, a) && n <= a + 1 && Arrives(w, packet, n)
    ensures Sane(v)
    ensures var r := Handle(PolicyOf(w.sc), v, packet, sent, pushed);
            && VehicleAt(w, r.view, b) && r.view.fault == v.fault
            && (b == a || (b == a + 1 == n && Live(w, a)))
            && (r.replied ==> sent && b > 0 && Live(w, b - 1) && r.view.reply == ReplyAt(w, b - 1))
    ensures Received(PolicyOf(w.sc), v, packet).1 != Fatal
  {
    hide RunFor, SensorAt, EncodeSensor, ReplyAt, Decode, VehicleAt, Received, FrameAt, SendBegun, SendFinished,
         RecordNoted, PolicyOf, Loaded;
    VehicleSane(w, v, a);
    var (v1, kind) := Received(PolicyOf(w.sc), v, packet);
    b := a;
    if Decode(packet).Bad? {
      VehicleIgnores(w, v, a, packet);
    } else {
      var k: nat :| k < n && Live(w, k) && packet.bytes == FrameAt(w, k);
      assert packet == Datagram(FrameAt(w, k), false);
      if k == a {
        VehicleAnswers(w, v, a);
        b := a + 1;
      } else {
        VehicleRepeats(w, v, a, k);
      }
      SendingKeeps(w, v1, b, kind == New, sent, pushed);
      CachedReply(w, Handle(PolicyOf(w.sc), v, packet, sent, pushed).view, b);
    }
  }

  lemma VehicleSane(w: World, v: View, a: nat)
    requires VehicleAt(w, v, a)
    ensures Sane(v)
  {}

  lemma CachedReply(w: World, v: View, a: nat)
    requires VehicleAt(w, v, a) && a > 0
    ensures v.reply == ReplyAt(w, a - 1)
  {}

  // The simulator at tick `t`

  predicate SimulatorAt(w: World, s: Sim, t: nat) {
    if s.phase == Ended(0) then
      s.core == CoreOf(w.At(t)) && w.At(t).finalReason == Some(s.finalReason)
    else
      && Live(w, t) && s.core == Opened(w.sc, CoreOf(w.At(t))) && s.now == OpeningOf(w.sc, CoreOf(w.At(t)))
      && s.finalReason == PEER_LOST_REASON
  }

  lemma SimulatorStarts(w: World)
    ensures SimulatorAt(w, Begin(w), 0) && Begin(w).phase == Sending(0)
  {
    hide Rng.StreamState, Rng.DrawDrop, FrameNow;
  }

  lemma SimRowsNext(rows: seq<Row>, row: Row)
    ensures SimRows(rows + [row]) == SimRows(rows) + [SimRowOf(row)]
  {}

  lemma TerminalCode(s: State<word>)
    requires WellFormed(s)
    ensures s.terminal.Some? <==> s.mode.Code() == TERMINATED.Code()
  {}

  /** Closing a tick on the reference delta is one tick of the reference run. */
  lemma ClosesLikeTick(w: World, t: nat)
    requires Loaded(w.sc) && Live(w, t)
    ensures var r, o := w.At(t), OutputNow(w.sc, w.At(t));
            Close(w.sc, Opened(w.sc, CoreOf(r)), OpeningOf(w.sc, CoreOf(r)), o.delta, o.state.mode.Code())
            == (CoreOf(w.At(t + 1)), w.At(t + 1).finalReason)
  {
    hide RunFor, Rng.DrawDrop, Tick, Step, IsFinite, PendingReason, ActuatorStep, FrameNow, SimRows, Released,
         Observed, Loaded;
    var r := w.At(t);
    LiveTick(w, t);
    RunForNext(w.sc, w.seed, w.delayTicks, t);
    TickFields(w.sc, r);
    SimRowsNext(r.rows, w.At(t + 1).rows[|r.rows|]);
    StepKeeps(PolicyOf(w.sc), r.episode, InputsNow(w.sc, r));
    TerminalCode(OutputNow(w.sc, r).state);
  }

  /** What the simulator reads in the reply to tick `k`. */
  lemma ReplyRead(w: World, k: nat)
    requires Loaded(w.sc) && Live(w, k)
    ensures ReplyIn(ReplyAt(w, k)).Some?
    ensures var v, o := ReplyIn(ReplyAt(w, k)).value, OutputNow(w.sc, w.At(k));
            && v.tick == k && v.vehTick == k && v.sensorSendNs == 0 && v.vehSendNs == 0 && v.delta == o.delta
            && v.status % 256 == o.state.mode.Code() && v.status == StatusAt(w, k)
            && v.staleness == InputsNow(w.sc, w.At(k)).staleness
  {
    hide RunFor, DecodeDatagram, EncodeFrame, EncodeActuator, DecodeActuator, PayloadSize, InputsNow, OutputNow, Rung,
         AckByte, SensorAt, Loaded;
    LiveTick(w, k);
    SensorTick(w, k);
    SmallMod(k);
    SensorSize();
    var i, o := InputsNow(w.sc, w.At(k)), OutputNow(w.sc, w.At(k));
    StalenessBounded(w.sc, w.At(k));
    var status := Status(o.state, Rung(i.staleness, i.isFresh), o.acks);
    StatusMode(o.state, Rung(i.staleness, i.isFresh), o.acks);
    var a := Actuator(k, k, 0, 0, o.delta, status, i.staleness);
    ActuatorRoundTrip(a);
    DecodeInvertsEncode(ACTUATOR, k % TWO32, EncodeActuator(a), {ACTUATOR});
    assert ReplyAt(w, k) == EncodeFrame(ACTUATOR, k % TWO32, EncodeActuator(a));
  }

  lemma StatusMode(state: State<word>, rung: nat, acks: seq<Ack>)
    requires rung <= 3
    ensures Status(state, rung, acks) % 256 == state.mode.Code()
  {
    hide AckByte, ReasonOf;
  }

  lemma SimulatorAccepts(w: World, s: Sim, t: nat, data: seq<byte>, v: Actuator)
    requires Loaded(w.sc) && SimulatorAt(w, s, t) && s.phase.Listening?
    requires v.delta == OutputNow(w.sc, w.At(t)).delta
    requires v.status % 256 == OutputNow(w.sc, w.At(t)).state.mode.Code()
    ensures SimulatorAt(w, Accept(w.sc, s, data, v), t + 1)
  {
    hide RunFor, Close, Opened, OpeningOf, Loaded, OutputNow, Count, SimRows;
    ClosesLikeTick(w, t);
    if Live(w, t + 1) {
      LiveTick(w, t + 1);
    }
  }

  lemma SimulatorTick(w: World, s: Sim, t: nat)
    requires Loaded(w.sc) && SimulatorAt(w, s, t) && s.phase != Ended(0)
    ensures s.core.tick == t
  {
    hide RunFor, Loaded;
    LiveTick(w, t);
  }

  /** A reply of an answered tick, or a frame of a live tick below `n`. */
  ghost predicate IsReply(w: World, x: seq<byte>, n: nat) { exists k: nat :: k < n && Live(w, k) && x == ReplyAt(w, k) }

  /** The model, as far as `SimulatorAt` looks at it, is where it was. */
  predicate SameModel(s: Sim, n: Sim) {
    n.core == s.core && n.now == s.now && n.finalReason == s.finalReason && n.phase != Ended(0) && s.phase != Ended(0)
  }

  lemma SameModelStays(w: World, s: Sim, n: Sim, t: nat)
    requires SimulatorAt(w, s, t) && SameModel(s, n)
    ensures SimulatorAt(w, n, t)
  {
    hide RunFor, Opened, OpeningOf, CoreOf;
  }

  /** Only the acceptance of a reply moves the model: not a send, a retry, a timeout, a duplicate or a bad datagram. */
  lemma OnlyAcceptanceMoves(w: World, s: Sim, o: Outcome)
    requires s.phase != Ended(0)
    ensures var n := Next(w, s, o);
            || SameModel(s, n)
            || (s.phase.Listening? && o.Got? && ReplyIn(o.data).Some?
                && n == Accept(w.sc, s, o.data, ReplyIn(o.data).value)
                && ReplyIn(o.data).value.tick == s.core.tick && IsFinite(ReplyIn(o.data).value.delta))
  {
    hide ReplyIn, Accept, Count, IsFinite;
  }

  /** The reply to the current tick closes it; anything else leaves the model where it is. */
  lemma CallMoves(w: World, s: Sim, t: nat, a: nat, o: Outcome) returns (u: nat)
    requires Loaded(w.sc) && SimulatorAt(w, s, t) && s.phase != Ended(0) && a <= t + 1
    requires o.Got? ==> IsReply(w, o.data, a) || DecodeDatagram(o.data, {ACTUATOR}).Bad?
    ensures SimulatorAt(w, Next(w, s, o), u)
    ensures (u == t && SameModel(s, Next(w, s, o))) || u == t + 1 == a
  {
    hide RunFor, DecodeDatagram, ReplyAt, ReplyIn, Next, SimulatorAt, Accept, Loaded, SameModel, StatusAt, InputsNow,
         OutputNow, IsFinite, FrameAt;
    u := t;
    OnlyAcceptanceMoves(w, s, o);
    if SameModel(s, Next(w, s, o)) {
      SameModelStays(w, s, Next(w, s, o), t);
    } else {
      BadUnread(o.data);
      var k: nat :| k < a && Live(w, k) && o.data == ReplyAt(w, k);
      ReplyRead(w, k);
      SimulatorTick(w, s, t);
      SimulatorAccepts(w, s, t, o.data, ReplyIn(o.data).value);
      u := t + 1;
    }
  }

  lemma BadUnread(data: seq<byte>)
    ensures ReplyIn(data).None? <==> DecodeDatagram(data, {ACTUATOR}).Bad?
  {}
}
