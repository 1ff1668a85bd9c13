/** What the vehicle's session makes of every packet, read off the frames it has answered so far. */
module SessionMeaning {
  import opened Basics
  import opened Episode
  import opened Frames
  import opened Payload
  import opened Reconcile
  import opened Session

  type SensorBytes = s: seq<byte> | |s| == 44 witness seq(44, _ => 0)

  /** One pass of the receive loop: a packet, and what becomes of its reply and its record. */
  datatype Turn = Turn(packet: Datagram, sent: bool, pushed: bool)

  function SessionAfter(p: Policy<word>, autoArm: bool, passes: seq<Turn>): (v: View)
    ensures Sane(v)
    decreases |passes|
  {
    if passes == [] then Fresh(p, autoArm)
    else
      var last := passes[|passes| - 1];
      Handle(p, SessionAfter(p, autoArm, passes[..|passes| - 1]), last.packet, last.sent, last.pushed).view
  }

  /** The payloads that were answered with a new cycle, in order. */
  function Answered(p: Policy<word>, autoArm: bool, passes: seq<Turn>): seq<SensorBytes>
    decreases |passes|
  {
    if passes == [] then []
    else
      var before, packet := passes[..|passes| - 1], passes[|passes| - 1].packet;
      var d := Decode(packet);
      Answered(p, autoArm, before)
        + if d.Good? && Received(p, SessionAfter(p, autoArm, before), packet).1 == New then [d.payload] else []
  }

  // What the answered frames say

  predicate Usable(s: Sensor) { s.flags % 2 == 1 && IsFinite(s.theta) && IsFinite(s.omega) }

  /** The observation of the last usable one. */
  function HeldIn(news: seq<SensorBytes>): Option<Obs<word>>
    decreases |news|
  {
    if news == [] then None
    else
      var s := DecodeSensor(news[|news| - 1]);
      if Usable(s) then Some(Obs(s.tick, s.theta, s.omega, true)) else HeldIn(news[..|news| - 1])
  }

  /** What the episode is given for the last one: its flags say whether it carries a sample, the end of the run, a
      command; a sample is as old as its tick, or as the run when there is none. */
  function InputsOf(news: seq<SensorBytes>): (i: Inputs<word>)
    requires news != []
    ensures Proper(i)
  {
    var k, s, held := |news| - 1, DecodeSensor(news[|news| - 1]), HeldIn(news);
    Inputs(s.tick, held, Usable(s), Min(if held.None? then k + 1 else (s.tick - held.value.tick) % TWO64, MAX32),
           if s.flags / 4 % 2 == 1 then Some(Command(s.cmdSeq, s.flags / 256 % 256, (s.tick + 50) % TWO64)) else None,
           false, if s.flags / 2 % 2 == 1 then Some(s.reason) else None, None)
  }

  function AllInputs(news: seq<SensorBytes>): (inputs: seq<Inputs<word>>)
    ensures ProperRun(inputs) && |inputs| == |news|
    decreases |news|
  {
    if news == [] then [] else AllInputs(news[..|news| - 1]) + [InputsOf(news)]
  }

  /** The session remembers of the answered frames: how many, the last one, the last usable sample; and its episode is
      the run of the answered frames, each once and in the order of their ticks. */
  ghost predicate Remembers(p: Policy<word>, autoArm: bool, v: View, news: seq<SensorBytes>) {
    && v.up.counts.logicalReceived == |news| && |news| <= TWO64
    && (v.answered <==> news != [])
    && (news != [] ==> v.lastPayload == news[|news| - 1] && v.newest == |news| - 1)
    && (forall k | 0 <= k < |news| :: DecodeSensor(news[k]).tick == k)
    && v.held == HeldIn(news) && v.state == After(p, Initial(p, autoArm), AllInputs(news))
  }

  lemma SameInputs(news: seq<SensorBytes>, held: Option<Obs<word>>)
    requires news != [] && held == HeldIn(news[..|news| - 1]) && |news| <= TWO64
    ensures SampleInputs(DecodeSensor(news[|news| - 1]), held, (|news| - 1) % TWO64) == InputsOf(news)
  {
    hide DecodeSensor, IsFinite;
  }

  lemma StartRemembers(p: Policy<word>, autoArm: bool)
    ensures Remembers(p, autoArm, Fresh(p, autoArm), [])
  {}

  lemma EpisodeNext(p: Policy<word>, s: State<word>, news: seq<SensorBytes>)
    requires news != []
    ensures After(p, s, AllInputs(news)) == Step(p, After(p, s, AllInputs(news[..|news| - 1])), InputsOf(news)).state
    ensures InputsOf(news).held == HeldIn(news)
  {
    hide Step, HeldIn, DecodeSensor, IsFinite;
    var all := AllInputs(news);
    assert all[..|all| - 1] == AllInputs(news[..|news| - 1]);
  }

  lemma TicksNext(news: seq<SensorBytes>, payload: SensorBytes)
    requires (forall k | 0 <= k < |news| :: DecodeSensor(news[k]).tick == k) && DecodeSensor(payload).tick == |news|
    ensures forall k | 0 <= k <= |news| :: DecodeSensor((news + [payload])[k]).tick == k
  {
    hide DecodeSensor;
  }

  /** A new cycle adds its frame. */
  lemma NewRemembers(p: Policy<word>, autoArm: bool, v: View, news: seq<SensorBytes>, payload: SensorBytes)
    requires Remembers(p, autoArm, v, news) && Sane(v) && DecodeSensor(payload).tick == |news|
    ensures Remembers(p, autoArm, NewCycle(p, v, payload), news + [payload])
  {
    hide DecodeSensor, Step, SampleInputs, InputsOf, HeldIn, AllInputs, After, NewCycle, RecordOf, ReplyOf, Stepped,
         Generate, Flag;
    var all := news + [payload];
    assert all[..|news|] == news;
    NewCycleFields(p, v, payload);
    SameInputs(all, v.held);
    EpisodeNext(p, Initial(p, autoArm), all);
    TicksNext(news, payload);
  }

  // Every packet

  function One(b: bool): nat { if b then 1 else 0 }

  /** How a packet is disposed of, against the answered frames: the frame of the next tick is new; the last answered
      one again is served from the cache; any other frame of an answered tick is dropped, and so is a packet that is
      no frame; a frame ahead of the next tick is fatal. */
  ghost predicate Disposed(v: View, n: View, kind: Disposition, d: Decoded, news: seq<SensorBytes>)
    requires d.Good? ==> |d.payload| == 44
  {
    var k := |news|;
    if d.Bad? then kind == Discard && n.integrity && n.fault == v.fault
    else
      var t := DecodeSensor(d.payload).tick;
      && (kind == New <==> t == k) && (kind == Fatal <==> t > k)
      && (kind == Cached <==> k > 0 && d.payload == news[k - 1])
      && (kind == Discard <==> t < k && d.payload != news[k - 1])
      && n.fault == (if kind == Fatal then Some(Terminal(if k == 0 then PEER_LOST else INTERNAL, t)) else v.fault)
      && (kind != New ==> n.integrity == (v.integrity || (kind == Discard && t + 1 == k)))
  }

  /** And how it is counted. */
  ghost predicate Tallied(v: Uplink, n: Uplink, kind: Disposition, d: Decoded, news: nat)
    requires d.Good? ==> |d.payload| == 44
  {
    var a, b, good := v.counts, n.counts, d.Good?;
    var t, s := if good then DecodeSensor(d.payload).tick else 0, if good then Some(DecodeSensor(d.payload)) else None;
    && b.receivedRaw == a.receivedRaw + 1 && b.malformed == a.malformed + One(!good)
    && b.received == a.received + One(good) && b.logicalReceived == a.logicalReceived + One(kind == New)
    && b.discardedDuplicate == a.discardedDuplicate + One(kind == Cached)
    && b.rejectedReceived == a.rejectedReceived + One(good && (kind == Discard || kind == Fatal))
    && n.discardedTickConflict == v.discardedTickConflict + One(good && kind == Discard && t + 1 == news)
    && n.discardedOld == v.discardedOld + One(good && kind == Discard && t + 1 < news)
    && n.skippedTick == v.skippedTick + One(kind == Fatal)
    && n.admitted == v.admitted + One(kind == New && good && Usable(s.value))
    && n.sampleInvalid == v.sampleInvalid + One(kind == New && good && s.value.flags % 2 == 0)
    && n.sampleNonfinite
       == v.sampleNonfinite + One(kind == New && good && s.value.flags % 2 == 1 && !Usable(s.value))
    && n.bad == BadCounts(v.bad.sync + One(d == Bad(BadSync)), v.bad.version + One(d == Bad(BadVersion)),
                          v.bad.kind + One(d == Bad(BadType)), v.bad.length + One(d == Bad(BadLength)),
                          v.bad.crc + One(d == Bad(BadCrc)))
  }

  /** What a packet that opens no cycle leaves alone. */
  predicate Untouched(v: View, n: View) { n == v.(up := n.up, integrity := n.integrity, fault := n.fault) }

  ghost predicate Meant(p: Policy<word>, autoArm: bool, v: View, r: (View, Disposition), d: Decoded,
                        news: seq<SensorBytes>)
    requires d.Good? ==> |d.payload| == 44
  {
    var (n, kind) := r;
    && Disposed(v, n, kind, d, news) && Tallied(v.up, n.up, kind, d, |news|)
    && (kind == New ==> d.Good? && Remembers(p, autoArm, n, news + [d.payload]))
    && (kind != New ==> Untouched(v, n) && Remembers(p, autoArm, n, news))
  }

  lemma StillRemembers(p: Policy<word>, autoArm: bool, v: View, n: View, news: seq<SensorBytes>)
    requires Remembers(p, autoArm, v, news) && Untouched(v, n)
    requires n.up.counts.logicalReceived == v.up.counts.logicalReceived
    ensures Remembers(p, autoArm, n, news)
  {}

  lemma BadMeant(p: Policy<word>, autoArm: bool, v: View, news: seq<SensorBytes>, packet: Datagram)
    requires Remembers(p, autoArm, v, news) && Sane(v) && Decode(packet).Bad?
    ensures Meant(p, autoArm, v, Received(p, v, packet), Decode(packet), news)
  {
    hide DecodeSensor, Decode, NewCycle, Remembers;
    StillRemembers(p, autoArm, v, Received(p, v, packet).0, news);
  }

  /** The fields of a session that decide what becomes of a frame. */
  lemma Remembered(p: Policy<word>, autoArm: bool, v: View, news: seq<SensorBytes>)
    requires Remembers(p, autoArm, v, news)
    ensures v.up.counts.logicalReceived == |news| <= TWO64 && (v.answered <==> news != [])
    ensures news != [] ==> v.lastPayload == news[|news| - 1] && v.newest == |news| - 1
                           && DecodeSensor(v.lastPayload).tick == v.newest
  {}

  lemma OtherDisposed(p: Policy<word>, autoArm: bool, v: View, news: seq<SensorBytes>, packet: Datagram)
    requires Remembers(p, autoArm, v, news) && Sane(v) && Decode(packet).Good?
    requires DecodeSensor(Decode(packet).payload).tick != |news|
    ensures var (n, kind) := Received(p, v, packet); Disposed(v, n, kind, Decode(packet), news) && Untouched(v, n)
  {
    hide DecodeSensor, Decode, NewCycle, Remembers;
    Remembered(p, autoArm, v, news);
  }

  lemma OtherTallied(p: Policy<word>, autoArm: bool, v: View, news: seq<SensorBytes>, packet: Datagram)
    requires Remembers(p, autoArm, v, news) && Sane(v) && Decode(packet).Good?
    requires DecodeSensor(Decode(packet).payload).tick != |news|
    ensures var (n, kind) := Received(p, v, packet); kind != New && Tallied(v.up, n.up, kind, Decode(packet), |news|)
  {
    hide DecodeSensor, Decode, NewCycle, Remembers, Usable;
    Remembered(p, autoArm, v, news);
  }

  lemma OtherMeant(p: Policy<word>, autoArm: bool, v: View, news: seq<SensorBytes>, packet: Datagram)
    requires Remembers(p, autoArm, v, news) && Sane(v) && Decode(packet).Good?
    requires DecodeSensor(Decode(packet).payload).tick != |news|
    ensures Meant(p, autoArm, v, Received(p, v, packet), Decode(packet), news)
  {
    hide DecodeSensor, Decode, Received, Remembers, Usable, Disposed;
    OtherDisposed(p, autoArm, v, news, packet);
    OtherTallied(p, autoArm, v, news, packet);
    StillRemembers(p, autoArm, v, Received(p, v, packet).0, news);
  }

  lemma NewMeant(p: Policy<word>, autoArm: bool, v: View, news: seq<SensorBytes>, packet: Datagram)
    requires Remembers(p, autoArm, v, news) && Sane(v) && Decode(packet).Good?
    requires DecodeSensor(Decode(packet).payload).tick == |news|
    ensures Meant(p, autoArm, v, Received(p, v, packet), Decode(packet), news)
  {
    hide DecodeSensor, Decode, NewCycle, Remembers, IsFinite, SampleInputs, Step, RecordOf, ReplyOf, Stepped, Generate;
    Remembered(p, autoArm, v, news);
    var u, payload := v.(up := CountReceived(v.up)), Decode(packet).payload;
    StillRemembers(p, autoArm, v, u, news);
    NewRemembers(p, autoArm, u, news, payload);
    NewCycleFields(p, u, payload);
  }

  /** Whatever packet comes, from whatever session. */
  lemma PacketMeant(p: Policy<word>, autoArm: bool, v: View, news: seq<SensorBytes>, packet: Datagram)
    requires Remembers(p, autoArm, v, news) && Sane(v)
    ensures Meant(p, autoArm, v, Received(p, v, packet), Decode(packet), news)
  {
    hide DecodeSensor, Decode, Received, Remembers, Meant;
    if Decode(packet).Bad? {
      BadMeant(p, autoArm, v, news, packet);
    } else if DecodeSensor(Decode(packet).payload).tick == |news| {
      NewMeant(p, autoArm, v, news, packet);
    } else {
      OtherMeant(p, autoArm, v, news, packet);
    }
  }

  lemma SendRemembers(p: Policy<word>, autoArm: bool, v: View, original: bool, sent: bool, pushed: bool,
                      news: seq<SensorBytes>)
    requires Remembers(p, autoArm, v, news)
    ensures var m := SendFinished(SendBegun(v, original), original, sent);
            Remembers(p, autoArm, m, news) && Remembers(p, autoArm, RecordNoted(m, pushed), news)
  {
    hide BeginSend, FinishSend, WithTransmitted, HeldIn, AllInputs, After;
  }

  /** Over any run of the receive loop the session remembers exactly the frames it answered, and every packet is
      disposed of and counted by them. */
  lemma {:induction false} EveryPacketMeans(p: Policy<word>, autoArm: bool, passes: seq<Turn>, packet: Datagram)
    ensures var v, news := SessionAfter(p, autoArm, passes), Answered(p, autoArm, passes);
            Remembers(p, autoArm, v, news) && Meant(p, autoArm, v, Received(p, v, packet), Decode(packet), news)
    decreases |passes|
  {
    hide Remembers, Meant, Received, Decode, SendFinished, SendBegun, RecordNoted, CurrentReason;
    if passes == [] {
      StartRemembers(p, autoArm);
    } else {
      var before, last := passes[..|passes| - 1], passes[|passes| - 1];
      EveryPacketMeans(p, autoArm, before, last.packet);
      PassRemembers(p, autoArm, passes);
    }
    PacketMeant(p, autoArm, SessionAfter(p, autoArm, passes), Answered(p, autoArm, passes), packet);
  }

  lemma PassRemembers(p: Policy<word>, autoArm: bool, passes: seq<Turn>)
    requires passes != []
    requires var before, packet := passes[..|passes| - 1], passes[|passes| - 1].packet;
             var v := SessionAfter(p, autoArm, before);
             Meant(p, autoArm, v, Received(p, v, packet), Decode(packet), Answered(p, autoArm, before))
    ensures Remembers(p, autoArm, SessionAfter(p, autoArm, passes), Answered(p, autoArm, passes))
  {
    hide Remembers, Received, Decode, SendFinished, SendBegun, RecordNoted, CurrentReason, Disposed, Tallied;
    var before, last := passes[..|passes| - 1], passes[|passes| - 1];
    var v, news := SessionAfter(p, autoArm, before), Answered(p, autoArm, passes);
    var (n, kind) := Received(p, v, last.packet);
    assert Answered(p, autoArm, before) + [] == Answered(p, autoArm, before);
    SendRemembers(p, autoArm, n, kind == New, last.sent, last.pushed, news);
  }

  // What a new cycle sends and records

  /** The acknowledgement shown: the first applied one, or the first if none is. */
  predicate Shows(acks: seq<Ack>, j: nat) {
    && j < |acks| && (forall k | 0 <= k < j :: !IsApplied(acks[k]))
    && (IsApplied(acks[j]) || (j == 0 && forall k | 0 <= k < |acks| :: !IsApplied(acks[k])))
  }

  lemma {:induction false} ShownIsProjected(acks: seq<Ack>) returns (j: nat)
    requires acks != []
    ensures Shows(acks, j) && Projected(acks) == Some(acks[j])
    decreases |acks|
  {
    j := 0;
    if |acks| > 1 && !IsApplied(acks[0]) {
      var k := ShownIsProjected(acks[1..]);
      if IsApplied(acks[1..][k]) {
        j := k + 1;
      }
    }
  }

  /** Fresh, coasting, neutral, lost. */
  predicate OnRung(i: Inputs<word>, rung: int) {
    && (rung == 0 <==> i.isFresh && i.staleness <= 20) && (rung == 1 <==> !i.isFresh && i.staleness <= 8)
    && (rung == 2 <==> !i.isFresh && 9 <= i.staleness <= 20) && (rung == 3 <==> i.staleness >= 21)
  }

  /** The reply: the tick and its request; one status byte each for mode, reason, rung and acknowledgement. */
  predicate Replies(a: Actuator, i: Inputs<word>, out: Output<word>) {
    && a.tick == a.vehTick == i.tick && a.sensorSendNs == a.vehSendNs == 0
    && a.delta == out.delta && a.staleness == i.staleness
    && a.status % 256 == out.state.mode.Code()
    && a.status / 0x100 % 256
       == (if out.state.terminal.Some? then out.state.terminal.value.reason.Code() as int else 0)
    && OnRung(i, a.status / 0x1_0000 % 256)
    && (if out.acks == [] then a.status / 0x100_0000 == 0
        else exists j | 0 <= j < |out.acks| ::
               Shows(out.acks, j) && a.status / 0x100_0000 == 128 + out.acks[j].status.Code() as int)
  }

  lemma LowByte(a: nat, q: nat)
    requires a < 256
    ensures (a + 256 * q) % 256 == a && (a + 256 * q) / 256 == q
  {}

  lemma ShiftTwice(s: nat)
    ensures s / 0x1_0000 == s / 256 / 256 && s / 0x100_0000 == s / 256 / 256 / 256
  {}

  lemma StatusBytes(a: nat, b: nat, c: nat, d: nat)
    requires a < 256 && b < 256 && c < 256 && d < 256
    ensures var s := a + 0x100 * b + 0x1_0000 * c + 0x100_0000 * d;
            s % 256 == a && s / 0x100 % 256 == b && s / 0x1_0000 % 256 == c && s / 0x100_0000 == d
  {
    var s := a + 256 * (b + 256 * (c + 256 * d));
    LowByte(a, b + 256 * (c + 256 * d));
    LowByte(b, c + 256 * d);
    LowByte(c, d);
    ShiftTwice(s);
  }

  lemma ReplyMeans(s: Sensor, cycle: u64, i: Inputs<word>, out: Output<word>)
    requires i.staleness <= MAX32 && i.tick == s.tick == cycle
    ensures ReplyIn(ReplyOf(s, cycle, i, out)).Some? && Replies(ReplyIn(ReplyOf(s, cycle, i, out)).value, i, out)
  {
    hide EncodeFrame, DecodeDatagram, EncodeActuator, DecodeActuator;
    var rung, acks := Rung(i.staleness, i.isFresh), out.acks;
    StatusBytes(out.state.mode.Code(), ReasonOf(out.state).Code(), rung, AckByte(acks));
    if acks != [] {
      var j := ShownIsProjected(acks);
      assert Shows(acks, j);
    }
    var a := Actuator(s.tick, cycle, 0, 0, out.delta, Status(out.state, rung, acks), i.staleness);
    ActuatorRoundTrip(a);
    DecodeInvertsEncode(ACTUATOR, cycle % TWO32, EncodeActuator(a), {ACTUATOR});
  }

  /** The record: the sample held, the request and the controller, the acknowledgement shown, and a flag each for a
      fresh sample, an applied command, a coasting cycle, a neutral one, an acknowledgement and an unusable sample. */
  predicate Records(c: Control, s: Sensor, i: Inputs<word>, out: Output<word>) {
    && c.tick == s.tick && c.cmd == out.delta && c.iState == out.state.pid.iState && c.dPrev == out.state.pid.dPrev
    && c.staleness == i.staleness && c.rxCount == 1 && c.state == out.state.mode.Code()
    && c.reason == (if out.state.terminal.Some? then out.state.terminal.value.reason.Code() else 0)
    && (if i.held.Some? then
          c.sensorTick == i.held.value.tick && c.theta == i.held.value.theta && c.omega == i.held.value.omega
        else c.sensorTick == MAX64 && c.theta == c.omega == 0)
    && Flag(c.flags, 1) == i.isFresh && !Flag(c.flags, 2) && Flag(c.flags, 4) == (exists a <- out.acks :: IsApplied(a))
    && Flag(c.flags, 8) == OnRung(i, 1) && Flag(c.flags, 16) == OnRung(i, 2)
    && Flag(c.flags, 64) == (out.acks != []) && Flag(c.flags, 128) == (s.flags % 2 == 1 && !i.isFresh)
    && c.discardedOther == One(s.flags % 2 == 1 && !i.isFresh)
    && (if out.acks == [] then c.ackCmdSeq == 0 && c.ackStatus == 0
        else exists j | 0 <= j < |out.acks| ::
               Shows(out.acks, j) && c.ackCmdSeq == out.acks[j].cmdSeq && c.ackStatus == out.acks[j].status.Code())
  }

  lemma FlagsMean(a: bool, b: bool, c: bool, d: bool, e: bool, f: bool)
    ensures var flags := Bit(a, 1) + Bit(b, 4) + Bit(c, 8) + Bit(d, 16) + Bit(e, 64) + Bit(f, 128);
            && flags < 256 && Flag(flags, 1) == a && !Flag(flags, 2) && Flag(flags, 4) == b && Flag(flags, 8) == c
            && Flag(flags, 16) == d && Flag(flags, 64) == e && Flag(flags, 128) == f
  {}

  lemma RungMeans(i: Inputs<word>)
    ensures forall rung | 0 <= rung <= 3 :: OnRung(i, rung) <==> Rung(i.staleness, i.isFresh) == rung
  {}

  lemma RecordMeans(s: Sensor, i: Inputs<word>, out: Output<word>)
    requires i.staleness <= MAX32 && (i.held.Some? ==> i.held.value.tick < TWO64)
    ensures Records(RecordOf(s, i, out), s, i, out)
  {
    hide Flag, OnRung, Rung, Bit;
    var acks, rung := out.acks, Rung(i.staleness, i.isFresh);
    RungMeans(i);
    var ack := Projected(acks);
    FlagsMean(i.isFresh, ack.Some? && IsApplied(ack.value), rung == 1, rung == 2, ack.Some?,
              Flag(s.flags, 1) && !i.isFresh);
    assert Flag(s.flags, 1) == (s.flags % 2 == 1) by { FlagOne(s.flags); }
    if acks != [] {
      var j := ShownIsProjected(acks);
      assert Shows(acks, j);
    }
  }

  lemma FlagOne(flags: u32)
    ensures Flag(flags, 1) == (flags % 2 == 1)
  {}

  ghost predicate Answers(p: Policy<word>, v: View, n: View, s: Sensor, i: Inputs<word>)
    requires i.Admitted()
  {
    var out := Step(p, v.state, i);
    var told := s.flags / 2 % 2 == 1;
    && n.state == out.state && n.acks == out.acks && Records(n.record, s, i, out)
    && n.simSeen == (if told then Some(s.reason) else v.simSeen) && n.fault == v.fault
    && n.integrity == (v.integrity || (told && s.reason !in {1, 2, 3}))
    && n.events == v.events.(episodeTransitions := v.events.episodeTransitions + 1,
                             recordPending := v.events.recordPending + 1,
                             pidCalls := v.events.pidCalls + One(i.isFresh && out.state.mode == FLYING))
    && ReplyIn(n.reply).Some? && Replies(ReplyIn(n.reply).value, i, out)
  }

  /** The next tick's cycle: one step of the episode on what its frame says, the record and the reply of that step. */
  lemma CycleAnswers(p: Policy<word>, v: View, s: Sensor, payload: SensorBytes, i: Inputs<word>)
    requires Sane(v) && s == DecodeSensor(payload) && s.tick == v.up.counts.logicalReceived
    requires i == SampleInputs(s, v.held, s.tick) && i.tick == s.tick
    ensures Answers(p, v, NewCycle(p, v, payload), s, i)
  {
    hide Step, SampleInputs, DecodeSensor, Records, Replies, RecordOf, ReplyOf, ReplyIn, NewCycle, Generate;
    NewCycleFields(p, v, payload);
    RecordMeans(s, i, Step(p, v.state, i));
    ReplyMeans(s, s.tick, i, Step(p, v.state, i));
  }

  lemma NewCycleMeans(p: Policy<word>, autoArm: bool, v: View, news: seq<SensorBytes>, payload: SensorBytes)
    requires Remembers(p, autoArm, v, news) && Sane(v) && DecodeSensor(payload).tick == |news|
    ensures Answers(p, v, NewCycle(p, v, payload), DecodeSensor(payload), InputsOf(news + [payload]))
  {
    hide SampleInputs, InputsOf, DecodeSensor, Answers, HeldIn, AllInputs, After, NewCycle;
    var all := news + [payload];
    assert all[..|news|] == news;
    SameInputs(all, v.held);
    InputsTick(all);
    CycleAnswers(p, v, DecodeSensor(payload), payload, InputsOf(all));
  }

  lemma InputsTick(news: seq<SensorBytes>)
    requires news != []
    ensures InputsOf(news).tick == DecodeSensor(news[|news| - 1]).tick
  {
    hide DecodeSensor, HeldIn, IsFinite;
  }
}
