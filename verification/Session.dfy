/** The vehicle side of the lockstep exchange: admit one sensor frame per tick, run the episode, cache the reply. */
module Session {
  import opened Basics
  import opened Episode
  import opened Frames
  import opened Payload
  import opened Reconcile

  datatype Datagram = Datagram(bytes: seq<byte>, truncated: bool)

  datatype Disposition = Discard | New | Cached | Fatal

  datatype BadCounts = BadCounts(sync: nat, version: nat, kind: nat, length: nat, crc: nat) {
    function Total(): nat { sync + version + kind + length + crc }
  }

  datatype Uplink = Uplink(counts: ReceiveCounts, admitted: nat, sampleInvalid: nat, sampleNonfinite: nat,
                           discardedOld: nat, discardedTickConflict: nat, skippedTick: nat, bad: BadCounts)

  datatype Events = Events(episodeTransitions: int, pidCalls: int, recordAttempts: int, recordsPushed: int,
                           ringDrops: int, recordPending: int)

  datatype View = View(up: Uplink, down: SendCounts, originalTxFail: nat, events: Events, state: State<word>,
                       held: Option<Obs<word>>, simSeen: Option<u32>, fault: Option<Terminal>, acks: seq<Ack>,
                       answered: bool, replyTransmitted: bool, integrity: bool, newest: u64,
                       lastPayload: seq<byte>, reply: seq<byte>, record: Control)

  /** The receiver's counters as the audit reads them. */
  function AuditedUp(up: Uplink): ReceiveCounts {
    up.counts.(parts := [up.admitted, up.sampleInvalid, up.sampleNonfinite, 0])
  }

  const NO_UPLINK :=
    Uplink(ReceiveCounts(0, 0, 0, 0, 0, 0, 0, 0, []), 0, 0, 0, 0, 0, 0, BadCounts(0, 0, 0, 0, 0))

  function Fresh(p: Policy<word>, autoArm: bool): View {
    View(NO_UPLINK, NOTHING_SENT, 0, Events(0, 0, 0, 0, 0, 0), Initial(p, autoArm), None, None, None, [],
         false, false, false, 0, seq(44, _ => 0), seq(62, _ => 0), NO_RECORD)
  }

  // Acknowledgement projection

  /** The acknowledgement shown in a reply: the first applied one, else the first. */
  function Projected(acks: seq<Ack>): (r: Option<Ack>)
    ensures r.Some? <==> acks != []
    ensures r.Some? ==> r.value in acks
    ensures (exists a <- acks :: IsApplied(a)) ==> r.Some? && IsApplied(r.value)
  {
    if acks == [] then None
    else
      var rest := Projected(acks[1..]);
      if IsApplied(acks[0]) || rest.None? || !IsApplied(rest.value) then Some(acks[0]) else rest
  }

  method ProjectAck(acks: seq<Ack>) returns (selected: int, applied: bool)
    ensures -1 <= selected < |acks|
    ensures Projected(acks) == if selected < 0 then None else Some(acks[selected])
    ensures applied <==> selected >= 0 && IsApplied(acks[selected])
  {
    selected, applied := -1, false;
    for i := 0 to |acks|
      invariant -1 <= selected < i && (selected < 0 <==> i == 0)
      invariant applied ==> selected >= 0 && IsApplied(acks[selected]) && Projected(acks) == Some(acks[selected])
      invariant !applied ==> (i > 0 ==> selected == 0) && forall j | 0 <= j < i :: !IsApplied(acks[j])
    {
      var now := IsApplied(acks[i]);
      if now && !applied { FirstApplied(acks, i); }
      if selected < 0 || (now && !applied) { selected := i; }
      applied := applied || now;
    }
    if !applied && acks != [] { NoneApplied(acks); }
  }

  lemma {:induction false} FirstApplied(acks: seq<Ack>, i: nat)
    requires i < |acks| && IsApplied(acks[i]) && forall j | 0 <= j < i :: !IsApplied(acks[j])
    ensures Projected(acks) == Some(acks[i])
    decreases |acks|
  {
    if i > 0 {
      FirstApplied(acks[1..], i - 1);
    }
  }

  lemma {:induction false} NoneApplied(acks: seq<Ack>)
    requires acks != [] && forall j | 0 <= j < |acks| :: !IsApplied(acks[j])
    ensures Projected(acks) == Some(acks[0])
    decreases |acks|
  {
    if |acks| > 1 {
      NoneApplied(acks[1..]);
    }
  }

  // Receiving

  function CountBad(up: Uplink, e: DatagramError): Uplink {
    var b := up.bad;
    up.(counts := up.counts.(receivedRaw := up.counts.receivedRaw + 1, malformed := up.counts.malformed + 1),
        bad := match e
               case BadSync => b.(sync := b.sync + 1)
               case BadVersion => b.(version := b.version + 1)
               case BadType => b.(kind := b.kind + 1)
               case BadLength => b.(length := b.length + 1)
               case BadCrc => b.(crc := b.crc + 1))
  }

  function CountReceived(up: Uplink): Uplink {
    up.(counts := up.counts.(receivedRaw := up.counts.receivedRaw + 1, received := up.counts.received + 1))
  }

  function Decode(packet: Datagram): (d: Decoded)
    ensures d.Good? ==> |d.payload| == 44
  {
    if packet.truncated then Bad(BadLength)
    else
      var d := DecodeDatagram(packet.bytes, {SENSOR});
      if d.Good? then EncodeInvertsDecode(packet.bytes, {SENSOR}); d else d
  }

  function Flag(flags: u32, bit: nat): bool
    requires bit > 0
  {
    flags / bit % 2 == 1
  }

  predicate SampleFresh(s: Sensor) { Flag(s.flags, 1) && IsFinite(s.theta) && IsFinite(s.omega) }

  function SampleHeld(s: Sensor, held: Option<Obs<word>>): Option<Obs<word>> {
    if SampleFresh(s) then Some(Obs(s.tick, s.theta, s.omega, true)) else held
  }

  function SampleAge(tick: nat, held: Option<Obs<word>>, cycle: int): int {
    Min(if held.Some? then (tick - held.value.tick) % TWO64 else cycle + 1, MAX32)
  }

  function SampleInputs(s: Sensor, held: Option<Obs<word>>, cycle: nat): (i: Inputs<word>)
    ensures i.Admitted() && i.staleness <= MAX32
    ensures (held.Some? ==> held.value.tick < TWO64) ==> (i.held.Some? ==> i.held.value.tick < TWO64)
  {
    var h := SampleHeld(s, held);
    Inputs(s.tick, h, SampleFresh(s), SampleAge(s.tick, h, cycle),
           if Flag(s.flags, 4) then Some(Command(s.cmdSeq, s.flags / 256 % 256, (s.tick + 50) % TWO64)) else None,
           false, if Flag(s.flags, 2) then Some(s.reason) else None, None)
  }

  function Rung(age: int, isFresh: bool): (r: nat)
    ensures r <= 3
  {
    if age >= 21 then 3 else if isFresh then 0 else if age <= 8 then 1 else 2
  }

  function ReasonOf(state: State<word>): Reason { if state.terminal.Some? then state.terminal.value.reason else NONE }

  function Bit(b: bool, weight: nat): nat { if b then weight else 0 }

  function AckByte(acks: seq<Ack>): byte {
    var a := Projected(acks);
    if a.None? then 0 else 128 + a.value.status.Code()
  }

  function Status(state: State<word>, rung: nat, acks: seq<Ack>): u32
    requires rung <= 3
  {
    state.mode.Code() as int + 0x100 * (ReasonOf(state).Code() as int) + 0x1_0000 * rung
      + 0x100_0000 * (AckByte(acks) as int)
  }

  /** Ticks in a session are machine words. */
  predicate Sane(v: View) { v.held.Some? ==> v.held.value.tick < TWO64 }

  /** The record of a logical cycle, before its send outcome is known. */
  function RecordOf(s: Sensor, i: Inputs<word>, out: Output<word>): (c: Control)
    requires i.staleness <= MAX32 && (i.held.Some? ==> i.held.value.tick < TWO64)
    ensures c.Countable() && !Flag(c.flags, 2)
  {
    var ack := Projected(out.acks);
    var rung := Rung(i.staleness, i.isFresh);
    var other := Flag(s.flags, 1) && !i.isFresh;
    Control(s.tick, 0, 0, 0, 0, 0, 0, if i.held.Some? then i.held.value.tick else MAX64,
            if i.held.Some? then i.held.value.theta else 0, if i.held.Some? then i.held.value.omega else 0,
            out.delta, out.state.pid.iState, out.state.pid.dPrev, 0, i.staleness,
            if ack.Some? then ack.value.cmdSeq else 0, 1, 0, 0, if other then 1 else 0, out.state.mode.Code(),
            ReasonOf(out.state).Code(),
            Bit(i.isFresh, 1) + Bit(ack.Some? && IsApplied(ack.value), 4) + Bit(rung == 1, 8) + Bit(rung == 2, 16)
              + Bit(ack.Some?, 64) + Bit(other, 128),
            if ack.Some? then ack.value.status.Code() else 0)
  }

  function ReplyOf(s: Sensor, cycle: u64, i: Inputs<word>, out: Output<word>): (f: seq<byte>)
    requires i.staleness <= MAX32
    ensures |f| == 62
  {
    EncodeFrame(ACTUATOR, cycle % TWO32,
      EncodeActuator(Actuator(s.tick, cycle, 0, 0, out.delta,
                              Status(out.state, Rung(i.staleness, i.isFresh), out.acks), i.staleness)))
  }

  function CountSample(up: Uplink, s: Sensor): Uplink {
    var counts := up.counts.(logicalReceived := up.counts.logicalReceived + 1);
    if SampleFresh(s) then up.(counts := counts, admitted := up.admitted + 1)
    else if !Flag(s.flags, 1) then up.(counts := counts, sampleInvalid := up.sampleInvalid + 1)
    else up.(counts := counts, sampleNonfinite := up.sampleNonfinite + 1)
  }

  function Reject(up: Uplink): Uplink {
    up.(counts := up.counts.(rejectedReceived := up.counts.rejectedReceived + 1))
  }

  /** What a new sensor frame changes before the policy runs. */
  function Admit(v: View, s: Sensor, held: Option<Obs<word>>): View {
    var sim := Flag(s.flags, 2);
    v.(up := CountSample(v.up, s), held := held, simSeen := if sim then Some(s.reason) else v.simSeen,
       integrity := v.integrity || (sim && (s.reason < 1 || s.reason > 3)))
  }

  function Stepped(e: Events, calls: bool): Events {
    e.(episodeTransitions := e.episodeTransitions + 1, recordPending := e.recordPending + 1,
       pidCalls := e.pidCalls + if calls then 1 else 0)
  }

  /** One policy step, one record, one cached reply. */
  function Decided(p: Policy<word>, v: View, s: Sensor, inputs: Inputs<word>, cycle: u64): View
    requires inputs.Admitted() && inputs.staleness <= MAX32
    requires inputs.held.Some? ==> inputs.held.value.tick < TWO64
  {
    var out := Step(p, v.state, inputs);
    var calls := inputs.isFresh && out.state.mode == FLYING;
    v.(events := Stepped(v.events, calls), state := out.state, acks := out.acks, record := RecordOf(s, inputs, out),
       reply := ReplyOf(s, cycle, inputs, out))
  }

  /** A sensor frame of the next tick. */
  function NewCycle(p: Policy<word>, v: View, payload: seq<byte>): (n: View)
    requires |payload| == 44 && Sane(v)
    ensures Sane(n)
  {
    var s := DecodeSensor(payload);
    var cycle := v.up.counts.logicalReceived % TWO64;
    var inputs := SampleInputs(s, v.held, cycle);
    Decided(p, Admit(v, s, inputs.held), s, inputs, cycle).(
      lastPayload := payload, newest := s.tick, answered := true, replyTransmitted := false, down := Generate(v.down))
  }

  lemma AdmitKeeps(v: View, s: Sensor, held: Option<Obs<word>>)
    ensures Admit(v, s, held).down == v.down
  {}

  lemma DecidedKeeps(p: Policy<word>, v: View, s: Sensor, inputs: Inputs<word>, cycle: u64)
    requires inputs.Admitted() && inputs.staleness <= MAX32
    requires inputs.held.Some? ==> inputs.held.value.tick < TWO64
    ensures Decided(p, v, s, inputs, cycle).down == v.down
  {
    hide Step, RecordOf, ReplyOf, Stepped;
  }

  lemma NewCycleFields(p: Policy<word>, v: View, payload: seq<byte>)
    requires |payload| == 44 && Sane(v)
    ensures var n, s := NewCycle(p, v, payload), DecodeSensor(payload);
            var cycle := v.up.counts.logicalReceived % TWO64;
            var i := SampleInputs(s, v.held, cycle);
            var out := Step(p, v.state, i);
            && n.up == CountSample(v.up, s) && n.down == Generate(v.down) && n.originalTxFail == v.originalTxFail
            && n.events == Stepped(v.events, i.isFresh && out.state.mode == FLYING)
            && n.state == out.state && n.acks == out.acks && n.held == i.held && n.fault == v.fault
            && n.simSeen == (if Flag(s.flags, 2) then Some(s.reason) else v.simSeen)
            && n.integrity == (v.integrity || (Flag(s.flags, 2) && (s.reason < 1 || s.reason > 3)))
            && n.record == RecordOf(s, i, out) && n.reply == ReplyOf(s, cycle, i, out)
            && n.lastPayload == payload && n.newest == s.tick && n.answered && !n.replyTransmitted
  {
    hide DecodeSensor, Step, RecordOf, ReplyOf, CountSample, Stepped, SampleInputs, Flag, Generate;
  }

  function Received(p: Policy<word>, v: View, packet: Datagram): (r: (View, Disposition))
    requires Sane(v)
    ensures Sane(r.0)
  {
    var d := Decode(packet);
    if d.Bad? then (v.(up := CountBad(v.up, d.error), integrity := true), Discard)
    else
      var up, tick := CountReceived(v.up), DecodeSensor(d.payload).tick;
      if v.answered && tick == v.newest then
        if d.payload == v.lastPayload then
          (v.(up := up.(counts := up.counts.(discardedDuplicate := up.counts.discardedDuplicate + 1))), Cached)
        else
          (v.(up := Reject(up).(discardedTickConflict := up.discardedTickConflict + 1), integrity := true), Discard)
      else if v.answered && tick < v.newest then
        (v.(up := Reject(up).(discardedOld := up.discardedOld + 1)), Discard)
      else if tick != if v.answered then (v.newest + 1) % TWO64 else 0 then
        (v.(up := Reject(up).(skippedTick := up.skippedTick + 1),
            fault := Some(Terminal(if v.answered then INTERNAL else PEER_LOST, tick))), Fatal)
      else (NewCycle(p, v.(up := up), d.payload), New)
  }

  // Sending, recording, stopping

  function SendBegun(v: View, original: bool): View { v.(down := BeginSend(v.down, original)) }

  function SendFinished(v: View, original: bool, success: bool): View {
    v.(down := FinishSend(v.down, v.replyTransmitted, success),
       replyTransmitted := v.replyTransmitted || success,
       originalTxFail := v.originalTxFail + if original && !success then 1 else 0,
       record := if original && success then WithTransmitted(v.record) else v.record)
  }

  /** `flags |= 2` */
  function WithTransmitted(c: Control): (r: Control)
    ensures Flag(r.flags, 2)
  {
    if Flag(c.flags, 2) then c else c.(flags := c.flags + 2)
  }

  function RecordNoted(v: View, pushed: bool): View {
    var e := v.events.(recordAttempts := v.events.recordAttempts + 1, recordPending := v.events.recordPending - 1);
    v.(events := if pushed then e.(recordsPushed := e.recordsPushed + 1) else e.(ringDrops := e.ringDrops + 1))
  }

  function Stopped(v: View, why: Reason): View {
    if v.state.terminal.None? && v.fault.None? then
      v.(fault := Some(Terminal(why, if v.answered then v.newest else 0)))
    else v
  }

  function CurrentReason(v: View): Reason {
    if v.fault.Some? then v.fault.value.reason else ReasonOf(v.state)
  }

  /** The record of a logical cycle, as the loop pushes it, always has counts the control payload accepts. */
  lemma RecordEncodable(p: Policy<word>, v: View, payload: seq<byte>, sent: bool, drops: u64)
    requires |payload| == 44 && Sane(v)
    ensures var n := SendFinished(SendBegun(NewCycle(p, v, payload), true), true, sent);
            EncodeControl(n.record.(drops := drops)).Some?
  {
    hide DecodeSensor, Step, ReplyOf, SampleInputs, EncodePayload, CountSample;
    NewCycleFields(p, v, payload);
  }

  // One pass of the receive loop, and the loop

  datatype Pass = Pass(view: View, replied: bool, stopped: bool)

  /** A packet has arrived; `sent` and `pushed` are the outcomes of the send and of the ring push. */
  function Handle(p: Policy<word>, v: View, packet: Datagram, sent: bool, pushed: bool): (r: Pass)
    requires Sane(v)
    ensures Sane(r.view)
  {
    var (n, kind) := Received(p, v, packet);
    if kind == Fatal then Pass(n, false, true)
    else if kind == Discard then Pass(n, false, false)
    else
      var m := SendFinished(SendBegun(n, kind == New), kind == New, sent);
      if kind == New then
        var noted := RecordNoted(m, pushed);
        Pass(noted, sent, CurrentReason(noted) != NONE)
      else Pass(m, sent, false)
  }

  /** What the blocking receive can return, with what becomes of the reply and the record. */
  datatype Arrival = Packet(packet: Datagram, sent: bool, pushed: bool) | Interrupted | Failed(stopping: bool)

  /** The session once the loop has seen these arrivals or left early. */
  function Served(p: Policy<word>, v: View, arrivals: seq<Arrival>): View
    requires Sane(v)
    decreases |arrivals|
  {
    if arrivals == [] then v
    else match arrivals[0]
      case Interrupted => Served(p, v, arrivals[1..])
      case Failed(stopping) => Stopped(v, if stopping then SIGNAL else PEER_LOST)
      case Packet(packet, sent, pushed) =>
        var r := Handle(p, v, packet, sent, pushed);
        if r.stopped then r.view else Served(p, r.view, arrivals[1..])
  }

  method Serve(session: Session, arrivals: seq<Arrival>)
    requires Sane(session.Value())
    modifies session
    ensures session.Value() == Served(session.policy, old(session.Value()), arrivals)
  {
    hide Received, SendBegun, SendFinished, RecordNoted, Stopped, CurrentReason, Sane;
    var i := 0;
    while i < |arrivals|
      invariant 0 <= i <= |arrivals| && Sane(session.Value())
      invariant Served(session.policy, session.Value(), arrivals[i..])
             == Served(session.policy, old(session.Value()), arrivals)
    {
      var a := arrivals[i];
      assert arrivals[i..][1..] == arrivals[i + 1..];
      i := i + 1;
      if a.Interrupted? { continue; }
      if a.Failed? {
        session.Stop(if a.stopping then SIGNAL else PEER_LOST);
        return;
      }
      var stopped := ServeOne(session, a.packet, a.sent, a.pushed);
      if stopped { return; }
    }
  }

  method ServeOne(session: Session, packet: Datagram, sent: bool, pushed: bool) returns (stopped: bool)
    requires Sane(session.Value())
    modifies session
    ensures var r := Handle(session.policy, old(session.Value()), packet, sent, pushed);
            session.Value() == r.view && stopped == r.stopped
  {
    hide Received, SendBegun, SendFinished, RecordNoted;
    var kind := session.Receive(packet);
    if kind == Fatal { return true; }
    if kind == Discard { return false; }
    var original := kind == New;
    session.StartSend(original);
    session.EndSend(original, sent);
    if original {
      session.NoteRecord(pushed);
      stopped := CurrentReason(session.Value()) != NONE;
    } else {
      stopped := false;
    }
  }

  // The object the control thread owns

  class Session {
    const policy: Policy<word>
    var up: Uplink
    var down: SendCounts
    var originalTxFail: nat
    var events: Events
    var state: State<word>
    var held: Option<Obs<word>>
    var simSeen: Option<u32>
    var fault: Option<Terminal>
    var acks: seq<Ack>
    var answered: bool
    var replyTransmitted: bool
    var integrity: bool
    var newest: u64
    var lastPayload: seq<byte>
    var reply: seq<byte>
    var record: Control

    function Value(): View
      reads this
    {
      View(up, down, originalTxFail, events, state, held, simSeen, fault, acks, answered, replyTransmitted, integrity,
           newest, lastPayload, reply, record)
    }

    constructor (policy: Policy<word>, autoArm: bool)
      ensures this.policy == policy && Value() == Fresh(policy, autoArm)
    {
      this.policy := policy;
      up, down, originalTxFail, events := NO_UPLINK, NOTHING_SENT, 0, Events(0, 0, 0, 0, 0, 0);
      state, held, simSeen, fault, acks := Initial(policy, autoArm), None, None, None, [];
      answered, replyTransmitted, integrity, newest := false, false, false, 0;
      lastPayload, reply, record := seq(44, _ => 0), seq(62, _ => 0), NO_RECORD;
    }

    method Receive(packet: Datagram) returns (disposition: Disposition)
      requires Sane(Value())
      modifies this
      ensures (Value(), disposition) == Received(policy, old(Value()), packet)
    {
      hide DecodeSensor, Decode, NewCycle, CountBad;
      var frame := Decode(packet);
      if frame.Bad? {
        up := CountBad(up, frame.error);
        integrity := true;
        return Discard;
      }
      up := CountReceived(up);
      var tick := DecodeSensor(frame.payload).tick;
      if answered && tick == newest {
        if frame.payload == lastPayload {
          up := up.(counts := up.counts.(discardedDuplicate := up.counts.discardedDuplicate + 1));
          return Cached;
        }
        up := Reject(up).(discardedTickConflict := up.discardedTickConflict + 1);
        integrity := true;
        return Discard;
      }
      if answered && tick < newest {
        up := Reject(up).(discardedOld := up.discardedOld + 1);
        return Discard;
      }
      if (!answered && tick != 0) || (answered && tick != (newest + 1) % TWO64) {
        up := Reject(up).(skippedTick := up.skippedTick + 1);
        fault := Some(Terminal(if answered then INTERNAL else PEER_LOST, tick));
        return Fatal;
      }
      Advance(frame.payload);
      disposition := New;
    }

    method AdmitSample(s: Sensor) returns (isFresh: bool)
      modifies `up, `held
      ensures isFresh == SampleFresh(s) && held == SampleHeld(s, old(held)) && up == CountSample(old(up), s)
    {
      up := up.(counts := up.counts.(logicalReceived := up.counts.logicalReceived + 1));
      isFresh := Flag(s.flags, 1) && IsFinite(s.theta) && IsFinite(s.omega);
      if isFresh {
        held := Some(Obs(s.tick, s.theta, s.omega, true));
        up := up.(admitted := up.admitted + 1);
      } else if !Flag(s.flags, 1) {
        up := up.(sampleInvalid := up.sampleInvalid + 1);
      } else {
        up := up.(sampleNonfinite := up.sampleNonfinite + 1);
      }
    }

    method ReadSample(s: Sensor, cycle: u64) returns (inputs: Inputs<word>)
      requires held.Some? ==> held.value.tick < TWO64
      modifies `up, `held, `simSeen, `integrity
      ensures inputs == SampleInputs(s, old(held), cycle) && held == inputs.held && up == CountSample(old(up), s)
      ensures simSeen == if Flag(s.flags, 2) then Some(s.reason) else old(simSeen)
      ensures integrity == (old(integrity) || (Flag(s.flags, 2) && (s.reason < 1 || s.reason > 3)))
    {
      hide SampleFresh, SampleHeld, CountSample;
      var isFresh := AdmitSample(s);
      var age := SampleAge(s.tick, held, cycle);
      var command: Option<Command>, terminal: Option<u32> := None, None;
      if Flag(s.flags, 4) { command := Some(Command(s.cmdSeq, s.flags / 256 % 256, (s.tick + 50) % TWO64)); }
      if Flag(s.flags, 2) {
        terminal, simSeen := Some(s.reason), Some(s.reason);
        if s.reason < 1 || s.reason > 3 { integrity := true; }
      }
      inputs := Inputs(s.tick, held, isFresh, age, command, false, terminal, None);
    }

    method DecideCycle(s: Sensor, inputs: Inputs<word>, cycle: u64)
      requires inputs.Admitted() && inputs.staleness <= MAX32
      requires inputs.held.Some? ==> inputs.held.value.tick < TWO64
      modifies `events, `state, `acks, `record, `reply
      ensures var out := Step(policy, old(state), inputs);
              && state == out.state && acks == out.acks && record == RecordOf(s, inputs, out)
              && reply == ReplyOf(s, cycle, inputs, out)
              && events == Stepped(old(events), inputs.isFresh && out.state.mode == FLYING)
    {
      hide Step, RecordOf, ReplyOf;
      var result := Step(policy, state, inputs);
      events := events.(episodeTransitions := events.episodeTransitions + 1, recordPending := events.recordPending + 1);
      if inputs.isFresh && result.state.mode == FLYING { events := events.(pidCalls := events.pidCalls + 1); }
      state, acks := result.state, result.acks;
      record := RecordOf(s, inputs, result);
      reply := ReplyOf(s, cycle, inputs, result);
    }

    method Remember(payload: seq<byte>, tick: u64)
      modifies `lastPayload, `newest, `answered, `replyTransmitted, `down
      ensures lastPayload == payload && newest == tick && answered && !replyTransmitted && down == Generate(old(down))
    {
      lastPayload, newest, answered, replyTransmitted := payload, tick, true, false;
      down := down.(generated := down.generated + 1, notAttempted := down.notAttempted + 1,
                    neverTransmitted := down.neverTransmitted + 1);
    }

    /** The sample of a frame, read into the fields the policy does not own. */
    method AdmitInputs(s: Sensor, cycle: u64) returns (inputs: Inputs<word>)
      requires Sane(Value())
      modifies `up, `held, `simSeen, `integrity
      ensures inputs == SampleInputs(s, old(held), cycle) && Value() == Admit(old(Value()), s, inputs.held)
    {
      hide SampleInputs, CountSample, Flag;
      inputs := ReadSample(s, cycle);
    }

    method DecideInputs(s: Sensor, inputs: Inputs<word>, cycle: u64)
      requires inputs.Admitted() && inputs.staleness <= MAX32
      requires inputs.held.Some? ==> inputs.held.value.tick < TWO64
      modifies `events, `state, `acks, `record, `reply
      ensures Value() == Decided(policy, old(Value()), s, inputs, cycle)
    {
      hide Step, RecordOf, ReplyOf, Stepped;
      DecideCycle(s, inputs, cycle);
    }

    /** The logical cycle of an accepted frame. */
    method Advance(payload: seq<byte>)
      requires |payload| == 44 && Sane(Value())
      modifies this
      ensures Value() == NewCycle(policy, old(Value()), payload)
    {
      hide DecodeSensor, Admit, Decided, SampleInputs, Generate;
      var s := DecodeSensor(payload);
      var cycle: u64 := up.counts.logicalReceived % TWO64;
      ghost var v := Value();
      var inputs := AdmitInputs(s, cycle);
      AdmitKeeps(v, s, inputs.held);
      DecideInputs(s, inputs, cycle);
      DecidedKeeps(policy, Admit(v, s, inputs.held), s, inputs, cycle);
      Remember(payload, s.tick);
    }

    method StartSend(original: bool)
      modifies `down
      ensures Value() == SendBegun(old(Value()), original)
    {
      down := down.(sendAttempts := down.sendAttempts + 1, sendPending := down.sendPending + 1);
      if original {
        down := down.(originalAttempts := down.originalAttempts + 1, notAttempted := down.notAttempted - 1);
      } else {
        down := down.(retryAttempts := down.retryAttempts + 1);
      }
    }

    method CountSent(original: bool, success: bool)
      modifies `down, `replyTransmitted, `originalTxFail
      ensures down == FinishSend(old(down), old(replyTransmitted), success)
      ensures replyTransmitted == (old(replyTransmitted) || success)
      ensures originalTxFail == old(originalTxFail) + if original && !success then 1 else 0
    {
      down := down.(sendPending := down.sendPending - 1);
      if success {
        down := down.(transmitted := down.transmitted + 1);
        if replyTransmitted {
          down := down.(additionalCopies := down.additionalCopies + 1);
        } else {
          down := down.(firstTransmitted := down.firstTransmitted + 1, neverTransmitted := down.neverTransmitted - 1);
          replyTransmitted := true;
        }
      } else {
        down := down.(txFail := down.txFail + 1);
        if original { originalTxFail := originalTxFail + 1; }
      }
    }

    method EndSend(original: bool, success: bool)
      modifies this
      ensures Value() == SendFinished(old(Value()), original, success)
    {
      hide FinishSend, WithTransmitted;
      CountSent(original, success);
      if original && success { record := WithTransmitted(record); }
    }

    method NoteRecord(pushed: bool)
      modifies `events
      ensures Value() == RecordNoted(old(Value()), pushed)
    {
      events := events.(recordAttempts := events.recordAttempts + 1, recordPending := events.recordPending - 1);
      if pushed {
        events := events.(recordsPushed := events.recordsPushed + 1);
      } else {
        events := events.(ringDrops := events.ringDrops + 1);
      }
    }

    method Stop(why: Reason)
      modifies `fault
      ensures Value() == Stopped(old(Value()), why)
    {
      if state.terminal.None? && fault.None? { fault := Some(Terminal(why, if answered then newest else 0)); }
    }
  }
}
