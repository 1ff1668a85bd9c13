/** A completed lockstep run passes the offline audit of its recordings. */
module HistoryRuns {
  import opened Basics
  import opened Episode
  import opened Frames
  import opened Payload
  import opened Headless
  import opened Session
  import opened Simulator
  import opened Lockstep
  import opened Refinement
  import HeadlessRuns
  import Counters
  import Lossless
  import Reconcile
  import Rng
  import H = History

  // What the reference run says about each recording

  /** The record of tick `k`, `sent` being what became of its reply. */
  function RecordAt(w: World, k: nat, sent: bool): Control
    requires Loaded(w.sc) && Live(w, k)
  {
    InputsBounded(w, k);
    var c := RecordOf(SensorAt(w, k), InputsNow(w.sc, w.At(k)), OutputNow(w.sc, w.At(k)));
    if sent then WithTransmitted(c) else c
  }

  lemma InputsBounded(w: World, k: nat)
    requires Loaded(w.sc) && Live(w, k)
    ensures var i := InputsNow(w.sc, w.At(k));
            i.staleness <= MAX32 && i.tick == k && (i.held.Some? ==> i.held.value.tick < TWO64)
  {
    hide RunFor, Loaded, UpDrop;
    LiveTick(w, k);
    StalenessBounded(w.sc, w.At(k));
    HeadlessRuns.HeldNowInPast(w.sc, w.At(k));
  }

  lemma FlagDigits(f: nat, a: nat, b: nat, low: nat, c: nat, d: nat)
    requires a <= 1 && b <= 1 && low < 8 && c <= 1 && d <= 1 && f == a + 2 * b + 4 * low + 64 * c + 128 * d
    ensures f % 2 == a && f / 2 % 2 == b && f / 32 % 2 == 0 && f / 64 % 2 == c && f < 256
  {
    assert f / 2 == b + 2 * (low + 16 * c + 32 * d);
    assert f / 32 == 2 * (c + 2 * d);
    assert f / 64 == c + 2 * d;
  }

  /** Bits of the flag byte. */
  lemma ControlFlags(f: nat, isFresh: bool, sent: bool, applied: bool, coast: bool, neutral: bool, ack: bool,
                     other: bool)
    requires f == Bit(isFresh, 1) + Bit(sent, 2) + Bit(applied, 4) + Bit(coast, 8) + Bit(neutral, 16) + Bit(ack, 64)
                  + Bit(other, 128)
    ensures f < 256 && Flag(f, 1) == isFresh && Flag(f, 2) == sent && !Flag(f, 32) && Flag(f, 64) == ack
  {
    FlagDigits(f, Bit(isFresh, 1), Bit(sent, 1), Bit(applied, 1) + Bit(coast, 2) + Bit(neutral, 4), Bit(ack, 1),
               Bit(other, 1));
  }

  /** The four bytes of a reply's status word. */
  lemma StatusBytes(state: State<word>, rung: nat, acks: seq<Ack>)
    requires rung <= 3
    ensures var s := Status(state, rung, acks);
            && s % 256 == state.mode.Code() && s / 256 % 256 == ReasonOf(state).Code()
            && s / 0x100_0000 == AckByte(acks)
  {
    hide AckByte, ReasonOf;
    var s, a := Status(state, rung, acks), AckByte(acks) as int;
    var m, r := state.mode.Code() as int, ReasonOf(state).Code() as int;
    assert s / 256 == r + 256 * rung + 0x1_0000 * a;
    assert s / 0x100_0000 == a;
  }

  lemma RecordFlags(s: Sensor, i: Inputs<word>, out: Output<word>, sent: bool)
    requires i.staleness <= MAX32 && (i.held.Some? ==> i.held.value.tick < TWO64)
    ensures var c := RecordOf(s, i, out);
            var d := if sent then WithTransmitted(c) else c;
            && d == c.(flags := d.flags)
            && Flag(d.flags, 1) == i.isFresh && Flag(d.flags, 2) == sent && !Flag(d.flags, 32)
            && H.AckShown(d) == AckByte(out.acks)
  {
    hide Flag, Projected;
    var c, ack, rung := RecordOf(s, i, out), Projected(out.acks), Rung(i.staleness, i.isFresh);
    ControlFlags(c.flags, i.isFresh, false, ack.Some? && IsApplied(ack.value), rung == 1, rung == 2, ack.Some?,
                 Flag(s.flags, 1) && !i.isFresh);
    if sent {
      ControlFlags(c.flags + 2, i.isFresh, true, ack.Some? && IsApplied(ack.value), rung == 1, rung == 2, ack.Some?,
                   Flag(s.flags, 1) && !i.isFresh);
    }
  }

  /** A record and a reply made from one episode step agree with the sample it was given. */
  lemma StepAgrees(k: nat, s: Sensor, i: Inputs<word>, out: Output<word>, sent: bool, drops: u64, a: Actuator,
                   row: SimRow)
    requires i.staleness <= MAX32 && (i.held.Some? ==> i.held.value.tick < TWO64)
    requires s.tick == a.tick == a.vehTick == row.tick == k && s.sendNs == 0
    requires i.isFresh == SampleFresh(s) && i.staleness == a.staleness == Age(k, i.held)
    requires a.delta == out.delta && a.status == Status(out.state, Rung(i.staleness, i.isFresh), out.acks)
    ensures var c := RecordOf(s, i, out);
            H.TickAgrees(k, i.held, s, (if sent then WithTransmitted(c) else c).(drops := drops), a, row)
  {
    hide Flag, Status, AckByte, SampleFresh, Projected, Rung;
    RecordFlags(s, i, out, sent);
    StatusBytes(out.state, Rung(i.staleness, i.isFresh), out.acks);
    hide WithTransmitted;
  }

  /** At every tick the reference artifacts agree. */
  lemma ReferenceAgrees(w: World, k: nat, sent: bool, drops: u64, a: Actuator, row: SimRow)
    requires Loaded(w.sc) && Live(w, k) && ReplyIn(ReplyAt(w, k)) == Some(a)
    requires row.tick == k
    ensures H.TickAgrees(k, w.At(k + 1).held, SensorAt(w, k), RecordAt(w, k, sent).(drops := drops), a, row)
  {
    hide RunFor, Loaded, Status, ReplyIn, ReplyAt, SensorAt, InputsNow, OutputNow, SampleFresh, Tick, RecordOf, Rung,
         H.TickAgrees, WithTransmitted, SampleHeld;
    var i, o := InputsNow(w.sc, w.At(k)), OutputNow(w.sc, w.At(k));
    InputsBounded(w, k);
    LiveTick(w, k);
    SensorTick(w, k);
    NextRun(w, k);
    RowTick(w, k);
    ReplyRead(w, k);
    FreshSent(w, k);
    StepAgrees(k, SensorAt(w, k), i, o, sent, drops, a, row);
  }

  lemma RowTick(w: World, k: nat)
    requires Loaded(w.sc) && Live(w, k)
    ensures |w.At(k + 1).rows| == k + 1 && w.At(k + 1).rows[k].tick == k
  {
    hide RunFor, Loaded, Tick, InputsNow, OutputNow;
    LiveTick(w, k);
    ReferenceConsistent(w, k);
    RunForNext(w.sc, w.seed, w.delayTicks, k);
    TickFields(w.sc, w.At(k));
  }

  /** What was sent is what the episode admitted. */
  lemma FreshSent(w: World, k: nat)
    requires Loaded(w.sc) && Live(w, k)
    ensures var i := InputsNow(w.sc, w.At(k));
            && i.isFresh == SampleFresh(SensorAt(w, k)) && i.held == SampleHeld(SensorAt(w, k), w.At(k).held)
            && i.staleness == Age(k, i.held) && SensorAt(w, k).sendNs == 0
  {
    hide RunFor, Loaded, Flag, SampleFresh, SampleHeld, SensorFlags, UpDrop;
    LiveTick(w, k);
    SameHeld(w.sc, w.At(k));
  }

  // What the vehicle keeps

  function TallyOf(up: Uplink): H.Tally { H.Tally(up.admitted, up.sampleInvalid, up.sampleNonfinite) }

  function SensorsTo(w: World, n: nat): (s: seq<Sensor>)
    ensures |s| == n && forall k | 0 <= k < n :: s[k] == SensorAt(w, k)
  {
    seq(n, k requires 0 <= k < n => SensorAt(w, k))
  }

  /** The new cycle's record, tally and observed reason. */
  lemma CycleFacts(w: World, v: View, a: nat)
    requires Loaded(w.sc) && Live(w, a) && VehicleAt(w, v, a)
    ensures var n := NewCycle(PolicyOf(w.sc), v, EncodeSensor(SensorAt(w, a)));
            && n.record == RecordAt(w, a, false) && TallyOf(n.up) == TallyOf(v.up).Add(SensorAt(w, a))
            && n.simSeen == (if InputsNow(w.sc, w.At(a)).simReason.Some? then InputsNow(w.sc, w.At(a)).simReason
                             else v.simSeen)
            && n.originalTxFail == v.originalTxFail && n.events.ringDrops == v.events.ringDrops
            && n.up.counts.logicalReceived == v.up.counts.logicalReceived + 1
  {
    hide RunFor, FrameAt, SensorAt, DecodeSensor, EncodeSensor, PolicyOf, NewCycle, SampleInputs, InputsNow, ReplyOf,
         RecordOf, Loaded, Flag, Step, SampleFresh, Decode, ReplyAt;
    FrameRead(w, a);
    LiveTick(w, a);
    SameInputs(w, a);
    InputsBounded(w, a);
    SmallMod(a);
    SensorReason(w, a);
    NewCycleFields(PolicyOf(w.sc), v, EncodeSensor(SensorAt(w, a)));
  }

  lemma SensorReason(w: World, a: nat)
    requires Loaded(w.sc) && Live(w, a)
    ensures (if Flag(SensorAt(w, a).flags, 2) then Some(SensorAt(w, a).reason) else None)
         == InputsNow(w.sc, w.At(a)).simReason
  {
    hide RunFor, Loaded, Flag, SensorFlags;
    LiveTick(w, a);
    SameCommand(w.sc, w.At(a));
  }

  /** A pass over the next tick's frame. */
  lemma NewPass(w: World, v: View, a: nat, sent: bool, pushed: bool)
    requires Loaded(w.sc) && Live(w, a) && VehicleAt(w, v, a)
    ensures Received(PolicyOf(w.sc), v, Datagram(FrameAt(w, a), false)).1 == New
    ensures var n := Handle(PolicyOf(w.sc), v, Datagram(FrameAt(w, a), false), sent, pushed).view;
            && n.record == RecordAt(w, a, sent) && TallyOf(n.up) == TallyOf(v.up).Add(SensorAt(w, a))
            && n.simSeen == (if InputsNow(w.sc, w.At(a)).simReason.Some? then InputsNow(w.sc, w.At(a)).simReason
                             else v.simSeen)
            && n.originalTxFail == v.originalTxFail + (if sent then 0 else 1)
            && n.events.ringDrops == v.events.ringDrops + (if pushed then 0 else 1)
            && n.up.counts.logicalReceived == v.up.counts.logicalReceived + 1
  {
    hide RunFor, FrameAt, SensorAt, Decode, DecodeSensor, EncodeSensor, PolicyOf, NewCycle, InputsNow, Loaded, ReplyAt,
         RecordAt, WithTransmitted, H.Tally.Add;
    FrameRead(w, a);
    SensorTick(w, a);
    LiveTick(w, a);
    CycleFacts(w, v.(up := CountReceived(v.up)), a);
    RecordSent(w, a);
  }

  lemma RecordSent(w: World, a: nat)
    requires Loaded(w.sc) && Live(w, a)
    ensures RecordAt(w, a, true) == WithTransmitted(RecordAt(w, a, false))
  {
    hide RunFor, Loaded, RecordOf, WithTransmitted;
  }

  /** Any other pass leaves the log, the tally and the reasons alone. */
  lemma OldPass(p: Policy<word>, v: View, packet: Datagram, sent: bool, pushed: bool)
    requires Sane(v) && Received(p, v, packet).1 != New && Received(p, v, packet).1 != Fatal
    ensures var n := Handle(p, v, packet, sent, pushed).view;
            && TallyOf(n.up) == TallyOf(v.up) && n.simSeen == v.simSeen && n.originalTxFail == v.originalTxFail
            && n.events == v.events && n.state == v.state
            && n.up.counts.logicalReceived == v.up.counts.logicalReceived
  {
    hide Received, SendBegun, SendFinished, CurrentReason;
    OldReceipt(p, v, packet);
    RepeatSent(Received(p, v, packet).0, sent);
  }

  lemma OldReceipt(p: Policy<word>, v: View, packet: Datagram)
    requires Sane(v) && Received(p, v, packet).1 != New
    ensures var n := Received(p, v, packet).0;
            && TallyOf(n.up) == TallyOf(v.up) && n.simSeen == v.simSeen && n.originalTxFail == v.originalTxFail
            && n.events == v.events && n.state == v.state
            && n.up.counts.logicalReceived == v.up.counts.logicalReceived
  {
    hide Decode, DecodeSensor, NewCycle, CountBad;
    if Decode(packet).Bad? {
      BadTally(v.up, Decode(packet).error);
    }
  }

  lemma BadTally(up: Uplink, e: DatagramError)
    ensures TallyOf(CountBad(up, e)) == TallyOf(up)
    ensures CountBad(up, e).counts.logicalReceived == up.counts.logicalReceived
  {}

  lemma RepeatSent(v: View, sent: bool)
    ensures var m := SendFinished(SendBegun(v, false), false, sent);
            && m.up == v.up && m.simSeen == v.simSeen && m.originalTxFail == v.originalTxFail && m.events == v.events
            && m.state == v.state
  {}

  /** What the simulator had told the vehicle once `a` ticks were answered. */
  function ReasonGiven(w: World, a: nat): Option<u32> {
    if a == 0 then None else InputsNow(w.sc, w.At(a - 1)).simReason
  }

  lemma NoReasonYet(w: World, a: nat)
    requires Live(w, a)
    ensures ReasonGiven(w, a).None?
  {
    hide RunFor, Tick, InputsNow, OutputNow;
    if a > 0 {
      LiveBefore(w, a);
      RunForNext(w.sc, w.seed, w.delayTicks, a - 1);
      TickFields(w.sc, w.At(a - 1));
    }
  }

  lemma LiveBefore(w: World, a: nat)
    requires Live(w, a) && a > 0
    ensures Live(w, a - 1)
  {
    hide RunFor, Tick;
    if !Live(w, a - 1) {
      EndedStays(w.sc, w.seed, w.delayTicks, a - 1, a);
    }
  }

  ghost predicate IsRecord(w: World, c: Control, k: nat)
    requires Loaded(w.sc)
  {
    Live(w, k) && c == RecordAt(w, k, Flag(c.flags, 2)).(drops := c.drops)
  }

  ghost predicate RecordsMatch(w: World, log: seq<Control>, a: nat)
    requires Loaded(w.sc)
  {
    |log| == a && forall k: nat | k < a :: IsRecord(w, log[k], k)
  }

  /** The vehicle's recording and report after `a` answered ticks. */
  ghost predicate VehicleLogged(w: World, v: View, log: seq<Control>, a: nat)
    requires Loaded(w.sc)
  {
    && TallyOf(v.up) == H.Tallied(SensorsTo(w, a)) && v.simSeen == ReasonGiven(w, a)
    && 0 <= v.events.ringDrops
    && (v.events.ringDrops == 0 ==> RecordsMatch(w, log, a) && H.Unsent(log) == v.originalTxFail)
    && (v.fault.Some? ==> v.state.terminal.None?)
  }

  /** The record a pass puts in the ring. */
  function PushedBy(p: Policy<word>, v: View, packet: Datagram, sent: bool, pushed: bool): seq<Control>
    requires Sane(v)
  {
    if Received(p, v, packet).1 == New && pushed then
      [Handle(p, v, packet, sent, pushed).view.record.(drops := v.events.ringDrops % TWO64)]
    else []
  }

  lemma SensorsNext(w: World, a: nat)
    ensures H.Tallied(SensorsTo(w, a + 1)) == H.Tallied(SensorsTo(w, a)).Add(SensorAt(w, a))
  {
    hide SensorAt, H.Tally.Add;
    assert SensorsTo(w, a + 1)[..a] == SensorsTo(w, a);
  }

  lemma RecordsNext(w: World, log: seq<Control>, a: nat, sent: bool, drops: u64)
    requires Loaded(w.sc) && RecordsMatch(w, log, a) && Live(w, a)
    ensures var more := log + [RecordAt(w, a, sent).(drops := drops)];
            RecordsMatch(w, more, a + 1) && H.Unsent(more) == H.Unsent(log) + if sent then 0 else 1
  {
    hide RunFor, Loaded, RecordAt;
    var c := RecordAt(w, a, sent).(drops := drops);
    SentFlag(w, a, sent);
    assert (log + [c])[..a] == log;
  }

  lemma SentFlag(w: World, a: nat, sent: bool)
    requires Loaded(w.sc) && Live(w, a)
    ensures Flag(RecordAt(w, a, sent).flags, 2) == sent
  {
    hide RunFor, Loaded, RecordOf, Flag;
    InputsBounded(w, a);
    RecordFlags(SensorAt(w, a), InputsNow(w.sc, w.At(a)), OutputNow(w.sc, w.At(a)), sent);
  }

  lemma NewPassLogs(w: World, v: View, log: seq<Control>, a: nat, sent: bool, pushed: bool)
    requires Loaded(w.sc) && Live(w, a) && VehicleAt(w, v, a) && VehicleLogged(w, v, log, a) && v.fault.None?
    ensures var packet := Datagram(FrameAt(w, a), false);
            var n := Handle(PolicyOf(w.sc), v, packet, sent, pushed).view;
            && (n.fault.None? ==> VehicleLogged(w, n, log + PushedBy(PolicyOf(w.sc), v, packet, sent, pushed), a + 1))
            && n.up.counts.logicalReceived == a + 1
  {
    hide RunFor, Loaded, FrameAt, SensorAt, Handle, Received, PolicyOf, RecordAt, InputsNow, H.Tallied, H.Tally.Add,
         RecordsMatch, H.Unsent, EncodeSensor, ReplyAt;
    NewPass(w, v, a, sent, pushed);
    NoReasonYet(w, a);
    SensorsNext(w, a);
    if v.events.ringDrops == 0 && pushed {
      RecordsNext(w, log, a, sent, 0);
    }
  }

  /** Only the frame of the next tick starts a new cycle. */
  lemma NewFrame(w: World, v: View, a: nat, n: nat, packet: Datagram)
    requires Loaded(w.sc) && VehicleAt(w, v, a) && n <= a + 1 && Arrives(w, packet, n)
    requires Received(PolicyOf(w.sc), v, packet).1 == New
    ensures packet == Datagram(FrameAt(w, a), false) && Live(w, a) && n == a + 1
  {
    hide RunFor, Loaded, FrameAt, Received, PolicyOf, Decode, VehicleAt;
    if Decode(packet).Bad? {
      VehicleIgnores(w, v, a, packet);
    } else {
      var k: nat :| k < n && Live(w, k) && packet.bytes == FrameAt(w, k);
      assert packet == Datagram(FrameAt(w, k), false);
      if k != a {
        VehicleRepeats(w, v, a, k);
      }
    }
  }

  lemma OldPassLogs(w: World, v: View, n: View, log: seq<Control>, a: nat)
    requires Loaded(w.sc) && VehicleLogged(w, v, log, a)
    requires TallyOf(n.up) == TallyOf(v.up) && n.simSeen == v.simSeen && n.originalTxFail == v.originalTxFail
    requires n.events == v.events && n.fault == v.fault && n.state == v.state
    ensures VehicleLogged(w, n, log, a)
  {
    hide RunFor, Loaded, RecordsMatch, H.Unsent, ReasonGiven, H.Tallied;
  }

  lemma NothingPushed(p: Policy<word>, v: View, packet: Datagram, sent: bool, pushed: bool)
    requires Sane(v) && Received(p, v, packet).1 != New
    ensures PushedBy(p, v, packet, sent, pushed) == []
  {
    hide Received;
  }

  lemma AnsweredCount(w: World, v: View, a: nat)
    requires VehicleAt(w, v, a)
    ensures v.up.counts.logicalReceived == a && Sane(v)
  {
    hide RunFor, SensorAt, ReplyAt, EncodeSensor;
  }

  /** Whatever it pushed, a vehicle whose session is now `m` has kept recording and report in step. */
  ghost predicate StillLogged(w: World, m: View, log: seq<Control>)
    requires Loaded(w.sc)
  {
    0 <= m.up.counts.logicalReceived && VehicleLogged(w, m, log, m.up.counts.logicalReceived)
  }

  /** Any pass keeps recording and report in step with the reference. */
  lemma PassLogs(w: World, v: View, log: seq<Control>, a: nat, n: nat, packet: Datagram, sent: bool, pushed: bool)
    requires Sane(v) && Loaded(w.sc)
    requires VehicleAt(w, v, a) && VehicleLogged(w, v, log, a) && v.fault.None? && n <= a + 1 && Arrives(w, packet, n)
    ensures StillLogged(w, Handle(PolicyOf(w.sc), v, packet, sent, pushed).view,
                        log + PushedBy(PolicyOf(w.sc), v, packet, sent, pushed))
    ensures Handle(PolicyOf(w.sc), v, packet, sent, pushed).view.up.counts.logicalReceived in {a, n}
  {
    hide RunFor, Loaded, FrameAt, SensorAt, Handle, Received, PolicyOf, RecordAt, InputsNow, VehicleLogged, PushedBy,
         Decode, VehicleAt;
    AnsweredCount(w, v, a);
    var b := VehicleHandles(w, v, a, n, packet, sent, pushed);
    if Received(PolicyOf(w.sc), v, packet).1 == New {
      NewFrame(w, v, a, n, packet);
      NewPassLogs(w, v, log, a, sent, pushed);
    } else {
      OldPass(PolicyOf(w.sc), v, packet, sent, pushed);
      OldPassLogs(w, v, Handle(PolicyOf(w.sc), v, packet, sent, pushed).view, log, a);
      NothingPushed(PolicyOf(w.sc), v, packet, sent, pushed);
      assert log + [] == log;
    }
  }

  // What the simulator keeps

  /** How many frames have gone out at least once. */
  function SentSoFar(s: Sim): nat { s.core.tick + if s.phase != Ended(0) && s.logged then 1 else 0 }

  ghost predicate InputsMatch(w: World, inputs: seq<seq<byte>>, n: nat) {
    |inputs| == n && forall k: nat | k < n :: inputs[k] == FrameAt(w, k)
  }

  ghost predicate RepliesMatch(w: World, replies: seq<Actuator>, n: nat) {
    |replies| == n && forall k: nat | k < n :: ReplyIn(ReplyAt(w, k)) == Some(replies[k])
  }

  /** The simulator's input recording and report. */
  ghost predicate SimulatorLogged(w: World, s: Sim) {
    && InputsMatch(w, s.inputs, SentSoFar(s)) && RepliesMatch(w, s.replies, s.core.tick)
    && (s.phase == Ended(0) ==>
          s.core.tick > 0 && s.vehicleSeen == Some(ReasonOf(w.At(s.core.tick).episode).Code()))
  }

  lemma StartLogged(w: World)
    ensures SimulatorLogged(w, Begin(w)) && SentSoFar(Begin(w)) == 0
  {
    hide Rng.StreamState, Rng.DrawDrop, FrameNow, FrameAt, ReplyAt;
  }

  /** A call that leaves the model alone at most records the first copy of the tick's frame. */
  lemma QuietCall(w: World, s: Sim, o: Outcome)
    requires s.phase != Ended(0) && SameModel(s, Next(w, s, o))
    ensures var n, first := Next(w, s, o), s.phase.Sending? && o == Sent(true) && !s.logged;
            && n.replies == s.replies && n.logged == (s.logged || first)
            && n.inputs == if first then s.inputs + [s.now.frame] else s.inputs
  {
    hide ReplyIn, Accept, Count, IsFinite;
    if s.phase.Listening? && o.Got? && ReplyIn(o.data).Some? {
      AcceptLogs(w, s, o.data, ReplyIn(o.data).value);
    }
  }

  lemma AcceptLogs(w: World, s: Sim, data: seq<byte>, v: Actuator)
    ensures var n := Accept(w.sc, s, data, v);
            && n.inputs == s.inputs && n.replies == s.replies + [v] && n.core.tick == s.core.tick + 1
            && (n.phase == Ended(0) || !n.logged)
            && (v.status % 256 == TERMINATED.Code() ==> n.vehicleSeen == Some(v.status / 256 % 256))
  {
    hide OpeningOf, Rng.DrawDrop, Count, IsFinite, ActuatorStep, Released;
  }

  lemma QuietLogs(w: World, s: Sim, t: nat, o: Outcome)
    requires SimulatorAt(w, s, t) && s.phase != Ended(0) && s.core.tick == t && SimulatorLogged(w, s)
    requires SameModel(s, Next(w, s, o))
    ensures SimulatorLogged(w, Next(w, s, o)) && SentSoFar(s) <= SentSoFar(Next(w, s, o))
    ensures s.phase.Sending? && o == Sent(true) ==> SentSoFar(Next(w, s, o)) == t + 1
  {
    hide RunFor, Next, FrameAt, ReplyAt, ReplyIn, SimulatorAt;
    QuietCall(w, s, o);
    Lossless.FrameNowAt(w, s, t);
  }

  lemma AcceptedLogs(w: World, s: Sim, t: nat, data: seq<byte>, v: Actuator)
    requires Loaded(w.sc) && SimulatorAt(w, s, t) && s.phase.Listening? && s.core.tick == t && SimulatorLogged(w, s)
    requires Live(w, t) && data == ReplyAt(w, t) && ReplyIn(data) == Some(v) && s.logged
    ensures SimulatorLogged(w, Accept(w.sc, s, data, v)) && SentSoFar(Accept(w.sc, s, data, v)) == t + 1
  {
    hide RunFor, Loaded, Accept, FrameAt, ReplyAt, ReplyIn, SimulatorAt, ReasonOf, InputsNow, OutputNow, StatusAt;
    AcceptLogs(w, s, data, v);
    ReplyRead(w, t);
    SimulatorAccepts(w, s, t, data, v);
    if Accept(w.sc, s, data, v).phase == Ended(0) {
      EndedTerminal(w, Accept(w.sc, s, data, v), t + 1);
      EndingStatus(w, t);
    }
  }

  /** The reply to the last tick carries the reason the episode ended for. */
  lemma EndingStatus(w: World, t: nat)
    requires Live(w, t) && w.At(t + 1).episode.mode == TERMINATED
    ensures StatusAt(w, t) % 256 == TERMINATED.Code()
    ensures StatusAt(w, t) / 256 % 256 == ReasonOf(w.At(t + 1).episode).Code()
  {
    hide RunFor, InputsNow, OutputNow, Status, ReasonOf;
    var i, o := InputsNow(w.sc, w.At(t)), OutputNow(w.sc, w.At(t));
    StatusBytes(o.state, Rung(i.staleness, i.isFresh), o.acks);
    NextRun(w, t);
  }

  lemma EndedTerminal(w: World, s: Sim, t: nat)
    requires Loaded(w.sc) && SimulatorAt(w, s, t) && s.phase == Ended(0)
    ensures w.At(t).episode.mode == TERMINATED && w.At(t).finalReason == Some(s.finalReason)
  {
    hide RunFor, Loaded;
    ReferenceConsistent(w, t);
  }

  // The whole system

  function PushedIn(w: World, y: System, a: Action): seq<Control>
    requires Sane(y.veh)
  {
    if a.Serves? then PushedBy(PolicyOf(w.sc), y.veh, a.packet, a.sent, a.pushed) else []
  }

  /** The control recording: every record the ring took. */
  function Pushed(w: World, actions: seq<Action>): seq<Control>
    decreases |actions|
  {
    if actions == [] then [] else
      Pushed(w, actions[..|actions| - 1])
        + PushedIn(w, Reached(w, actions[..|actions| - 1]), actions[|actions| - 1])
  }

  ghost predicate Logged(w: World, y: System, log: seq<Control>)
    requires Loaded(w.sc)
  {
    && SimulatorLogged(w, y.sim) && StillLogged(w, y.veh, log)
    && y.veh.up.counts.logicalReceived <= SentSoFar(y.sim) && OnlyFrames(w, y.upNet, SentSoFar(y.sim))
  }

  lemma CallLogs(w: World, y: System, t: nat, a: nat, o: Outcome, log: seq<Control>)
    requires Loaded(w.sc) && Sane(y.veh) && Coupled(w, y, t, a) && Logged(w, y, log) && CanHappen(y, Call(o))
    ensures Logged(w, Act(w, y, Call(o)), log)
  {
    hide RunFor, Loaded, SimulatorAt, VehicleAt, DecodeDatagram, Next, SimulatorLogged, StillLogged, ReplyAt, FrameAt,
         ReplyIn, Accept, SentSoFar, IsFinite, SameModel;
    var n := Next(w, y.sim, o);
    SimulatorTick(w, y.sim, t);
    AnsweredCount(w, y.veh, a);
    OnlyAcceptanceMoves(w, y.sim, o);
    if SameModel(y.sim, n) {
      QuietLogs(w, y.sim, t, o);
      FramesGrow(w, y.upNet, SentSoFar(y.sim), SentSoFar(n));
      if y.sim.phase.Sending? {
        SentFrame(w, y.sim, t);
      }
    } else {
      BadUnread(o.data);
      assert IsReply(w, o.data, a);
      var k: nat :| k < a && Live(w, k) && o.data == ReplyAt(w, k);
      ReplyRead(w, k);
      SentWhenAnswered(y.sim, t, a);
      AcceptedLogs(w, y.sim, t, o.data, ReplyIn(o.data).value);
      FramesGrow(w, y.upNet, SentSoFar(y.sim), SentSoFar(n));
    }
  }

  lemma SentWhenAnswered(s: Sim, t: nat, a: nat)
    requires s.core.tick == t < a <= SentSoFar(s)
    ensures s.logged && SentSoFar(s) == t + 1 == a
  {}

  lemma SentWithinOne(w: World, y: System, t: nat, a: nat)
    requires Loaded(w.sc) && Coupled(w, y, t, a)
    ensures SentSoFar(y.sim) <= a + 1
  {
    hide RunFor, Loaded, VehicleAt, OnlyFrames, OnlyReplies;
    if y.sim.phase != Ended(0) {
      SimulatorTick(w, y.sim, t);
    }
  }

  lemma ServeLogs(w: World, y: System, t: nat, a: nat, packet: Datagram, sent: bool, pushed: bool, log: seq<Control>)
    requires Loaded(w.sc) && Sane(y.veh) && Coupled(w, y, t, a) && Logged(w, y, log)
    requires CanHappen(y, Serves(packet, sent, pushed))
    ensures Logged(w, Act(w, y, Serves(packet, sent, pushed)), log + PushedIn(w, y, Serves(packet, sent, pushed)))
  {
    hide RunFor, Loaded, SimulatorAt, VehicleAt, DecodeDatagram, SimulatorLogged, Handle, PushedBy, SentSoFar, IsFrame,
         IsReply, VehicleLogged;
    AnsweredCount(w, y.veh, a);
    SentWithinOne(w, y, t, a);
    PassLogs(w, y.veh, log, a, SentSoFar(y.sim), packet, sent, pushed);
  }

  lemma StopLogs(w: World, y: System, why: Reason, log: seq<Control>)
    requires Loaded(w.sc) && Sane(y.veh) && Logged(w, y, log)
    ensures Logged(w, Act(w, y, Stops(why)), log)
  {
    hide RunFor, Loaded, SimulatorLogged, OnlyFrames, SensorsTo, H.Tallied, ReasonGiven, RecordsMatch, H.Unsent;
  }

  lemma StartsLogged(w: World)
    requires Loaded(w.sc)
    ensures Logged(w, StartOf(w), [])
  {
    hide RunFor, Loaded, SimulatorLogged, Begin;
    StartLogged(w);
    assert SensorsTo(w, 0) == [];
  }

  /** At every reachable state the recordings and reports are those of the reference run so far. */
  lemma {:induction false} AlwaysLogged(w: World, actions: seq<Action>)
    requires Loaded(w.sc) && Possible(w, actions)
    ensures Logged(w, Reached(w, actions), Pushed(w, actions))
    decreases |actions|
  {
    hide Coupled, Act, CanHappen, StartOf, Logged, PushedBy, Loaded;
    if actions == [] {
      StartsLogged(w);
    } else {
      var init, last := actions[..|actions| - 1], actions[|actions| - 1];
      AlwaysLogged(w, init);
      var t, a := AlwaysCoupled(w, init);
      var y, log := Reached(w, init), Pushed(w, init);
      match last {
        case Call(o) =>
          CallLogs(w, y, t, a, o, log);
          assert log + [] == log;
        case Serves(packet, sent, pushed) => ServeLogs(w, y, t, a, packet, sent, pushed, log);
        case Stops(why) =>
          StopLogs(w, y, why, log);
          assert log + [] == log;
      }
    }
  }

  // The recordings of a completed run

  ghost predicate ReadsAs(inputs: seq<seq<byte>>, sensors: seq<Sensor>) {
    |inputs| == |sensors|
    && forall k: nat | k < |inputs| ::
         Decode(Datagram(inputs[k], false)).Good?
         && DecodeSensor(Decode(Datagram(inputs[k], false)).payload) == sensors[k]
  }

  lemma {:induction false} HeldFollows(w: World, n: nat)
    requires Loaded(w.sc) && forall k: nat | k < n :: Live(w, k)
    ensures H.Held(SensorsTo(w, n)) == w.At(n).held
    decreases n
  {
    hide RunFor, Loaded, SensorAt, SampleHeld, Tick, InputsNow;
    if n == 0 {
      ReferenceConsistent(w, 0);
      StartHolds(w);
    } else {
      HeldFollows(w, n - 1);
      assert SensorsTo(w, n)[..n - 1] == SensorsTo(w, n - 1);
      FreshSent(w, n - 1);
      NextRun(w, n - 1);
    }
  }

  lemma StartHolds(w: World)
    ensures w.At(0).held.None?
  {}

  lemma InputsRead(w: World, inputs: seq<seq<byte>>, n: nat)
    requires InputsMatch(w, inputs, n)
    ensures ReadsAs(inputs, SensorsTo(w, n))
  {
    hide RunFor, FrameAt, SensorAt, Decode, DecodeSensor, EncodeSensor;
    forall k: nat | k < n
      ensures Decode(Datagram(inputs[k], false)).Good?
      ensures DecodeSensor(Decode(Datagram(inputs[k], false)).payload) == SensorsTo(w, n)[k]
    {
      FrameRead(w, k);
    }
  }

  lemma TickStory(w: World, r: H.Recordings, n: nat, k: nat)
    requires Loaded(w.sc) && r.sensors == SensorsTo(w, n) && k < n
    requires RecordsMatch(w, r.controls, n) && RepliesMatch(w, r.replies, n) && |r.rows| == n && r.rows[k].tick == k
    ensures H.TickAgrees(k, H.Held(r.sensors[..k + 1]), r.sensors[k], r.controls[k], r.replies[k], r.rows[k])
  {
    hide RunFor, Loaded, SensorAt, RecordAt, ReplyIn, ReplyAt, H.TickAgrees;
    assert IsRecord(w, r.controls[k], k);
    forall j: nat | j < k + 1 ensures Live(w, j) { assert IsRecord(w, r.controls[j], j); }
    HeldFollows(w, k + 1);
    assert r.sensors[..k + 1] == SensorsTo(w, k + 1);
    assert SensorAt(w, k) == r.sensors[k];
    ReferenceAgrees(w, k, Flag(r.controls[k].flags, 2), r.controls[k].drops, r.replies[k], r.rows[k]);
  }

  lemma EndedLengths(w: World, s: Sim, t: nat)
    requires Loaded(w.sc) && SimulatorAt(w, s, t) && s.phase == Ended(0)
    ensures 0 < s.core.tick == |s.core.rows| == SentSoFar(s) <= t
    ensures forall k: nat | k < |s.core.rows| :: s.core.rows[k].tick == k
  {
    hide RunFor, Loaded, HeadlessRuns.GoodRows;
    ReferenceConsistent(w, t);
    RowTicks(w, t);
  }

  lemma CompletedCounts(w: World, v: View, log: seq<Control>, a: nat)
    requires Loaded(w.sc) && StillLogged(w, v, log) && v.up.counts.logicalReceived == a && v.events.ringDrops == 0
    ensures RecordsMatch(w, log, a) && H.Unsent(log) == v.originalTxFail
    ensures TallyOf(v.up) == H.Tallied(SensorsTo(w, a)) && v.simSeen == ReasonGiven(w, a)
  {
    hide RunFor, Loaded, RecordsMatch, H.Unsent, ReasonGiven, SensorsTo, H.Tallied;
  }

  lemma CompletedLengths(w: World, y: System, t: nat, a: nat, log: seq<Control>)
    requires Loaded(w.sc) && Coupled(w, y, t, a) && Logged(w, y, log) && Completed(y)
    ensures y.sim.core.tick == t == a == |y.sim.core.rows| == SentSoFar(y.sim) && t > 0
    ensures forall k: nat | k < t :: y.sim.core.rows[k].tick == k
    ensures RecordsMatch(w, log, t) && H.Unsent(log) == y.veh.originalTxFail
    ensures TallyOf(y.veh.up) == H.Tallied(SensorsTo(w, t)) && y.veh.simSeen == ReasonGiven(w, t)
  {
    hide RunFor, Loaded, VehicleAt, SimulatorAt, OnlyFrames, OnlyReplies, RecordsMatch, H.Unsent, ReasonGiven,
         SensorsTo, H.Tallied, SimulatorLogged, StillLogged, SentSoFar;
    AnsweredCount(w, y.veh, a);
    EndedLengths(w, y.sim, t);
    CompletedCounts(w, y.veh, log, a);
  }

  lemma RowTicks(w: World, t: nat)
    requires Loaded(w.sc)
    ensures var rows := w.At(t).rows; |rows| == w.At(t).tick && forall k: nat | k < |rows| :: rows[k].tick == k
  {
    hide RunFor, Loaded, Observe, HeldNow, IsFresh, Age, IsFinite, AbsExceeds;
    ReferenceConsistent(w, t);
    var rows := w.At(t).rows;
    forall k: nat | k < |rows| ensures rows[k].tick == k {
      assert HeadlessRuns.GoodRow(w.sc, rows[k], k, HeadlessRuns.HeldBefore(rows, k));
    }
  }

  /** A run that ends with code 0 and no ring drop leaves four complete recordings of the same ticks, and the
      audit's loop finds them, and the sample totals, in agreement. */
  lemma CompletedRunAgrees(w: World, actions: seq<Action>) returns (r: H.Recordings)
    requires Loaded(w.sc) && Possible(w, actions) && Completed(Reached(w, actions))
    ensures var y := Reached(w, actions);
            && ReadsAs(y.sim.inputs, r.sensors) && r.controls == Pushed(w, actions)
            && r.replies == y.sim.replies && r.rows == y.sim.core.rows
            && |r.sensors| == |r.controls| == |r.replies| == |r.rows| == r.Length() > 0
            && y.veh.up.counts.logicalReceived == r.Length()
            && H.HistoryAgrees(r, r.Length()) && H.Tallied(r.sensors) == TallyOf(y.veh.up)
            && H.Unsent(r.controls) == y.veh.originalTxFail
  {
    hide RunFor, Loaded, SimulatorAt, VehicleAt, Reached, Pushed, H.TickAgrees, H.Tallied, H.Unsent, ReadsAs, SensorAt,
         ReplyAt, ReplyIn, OnlyFrames, OnlyReplies, RecordsMatch, StillLogged, FrameAt;
    var t, a := AlwaysCoupled(w, actions);
    var y, log := Reached(w, actions), Pushed(w, actions);
    AlwaysLogged(w, actions);
    CompletedLengths(w, y, t, a, log);
    InputsRead(w, y.sim.inputs, t);
    AnsweredCount(w, y.veh, a);
    r := H.Recordings(SensorsTo(w, t), log, y.sim.replies, y.sim.core.rows);
    LogLength(w, log, t);
    forall k: nat | k < t
      ensures H.TickAgrees(k, H.Held(r.sensors[..k + 1]), r.sensors[k], r.controls[k], r.replies[k], r.rows[k])
    {
      TickStory(w, r, t, k);
    }
  }

  lemma LogLength(w: World, log: seq<Control>, n: nat)
    requires Loaded(w.sc) && RecordsMatch(w, log, n)
    ensures |log| == n
  {}

  lemma StreamsStart(w: World)
    ensures w.At(0).up == Rng.StreamState(w.seed, 0) && w.At(0).down == Rng.StreamState(w.seed, 1) && w.At(0).tick == 0
  {
    hide Rng.StreamState;
  }

  /** Each loss stream has been drawn from once a tick. */
  lemma {:induction false} StreamsOwned(w: World, n: nat)
    ensures var r := w.At(n);
            && r.up == Rng.StateAfter(Rng.StreamState(w.seed, 0), r.tick)
            && r.down == Rng.StateAfter(Rng.StreamState(w.seed, 1), r.tick)
    decreases n
  {
    hide RunFor, Tick, Rng.StreamState, Rng.Mix, Rng.Shr;
    if n == 0 {
      StreamsStart(w);
    } else {
      StreamsOwned(w, n - 1);
      if Live(w, n - 1) {
        RunForNext(w.sc, w.seed, w.delayTicks, n - 1);
        TickFields(w.sc, w.At(n - 1));
      } else {
        EndedStays(w.sc, w.seed, w.delayTicks, n - 1, n);
      }
    }
  }

  lemma EndedCore(w: World, s: Sim, t: nat)
    requires Loaded(w.sc) && SimulatorAt(w, s, t) && s.phase == Ended(0)
    ensures s.core.up == w.At(t).up && s.core.down == w.At(t).down && 0 < |s.core.rows| == w.At(t).tick
  {
    hide RunFor, Loaded;
    ReferenceConsistent(w, t);
  }

  lemma EndedGenerated(s: Sim)
    requires Counters.SimulatorCounts(s) && s.phase == Ended(0)
    ensures s.up.counts.generated == |s.core.rows|
  {
    hide Reconcile.SenderBalanced, Reconcile.ReceiverBalanced;
  }

  /** A run that ends with code 0 has drawn from each loss stream once per generated frame, and never for a retry. */
  lemma CompletedRunStreams(w: World, actions: seq<Action>)
    requires Loaded(w.sc) && Possible(w, actions) && Reached(w, actions).sim.phase == Ended(0)
    ensures var s := Reached(w, actions).sim;
            && 0 < s.up.counts.generated == |s.core.rows|
            && s.core.up == (Rng.StreamState(w.seed, 0) + s.up.counts.generated * Rng.GOLDEN) % TWO64
            && s.core.down == (Rng.StreamState(w.seed, 1) + s.up.counts.generated * Rng.GOLDEN) % TWO64
  {
    hide RunFor, Loaded, VehicleAt, SimulatorAt, Reached, OnlyFrames, OnlyReplies, Rng.StreamState,
         Counters.SimulatorCounts, Counters.VehicleCounts;
    var t, a := AlwaysCoupled(w, actions);
    Counters.CountersBalance(w, actions);
    EndedCore(w, Reached(w, actions).sim, t);
    EndedGenerated(Reached(w, actions).sim);
    StreamsOwned(w, t);
    Rng.StateIsLinear(Rng.StreamState(w.seed, 0), w.At(t).tick);
    Rng.StateIsLinear(Rng.StreamState(w.seed, 1), w.At(t).tick);
  }
}
