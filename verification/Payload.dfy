/** Typed payloads: fixed little-endian fields at tabulated offsets. */
module Payload {
  import opened Basics
  import Frames

  datatype Kind = U8 | U16 | U32 | U64 | I64 | F64
  datatype Field = Field(offset: nat, kind: Kind)

  function Width(k: Kind): nat {
    match k
    case U8 => 1
    case U16 => 2
    case U32 => 4
    case _ => 8
  }

  predicate InRange(k: Kind, v: int) {
    match k
    case U8 => 0 <= v < 256
    case U16 => 0 <= v < 0x1_0000
    case U32 => 0 <= v < TWO32
    case I64 => -TWO63 <= v < TWO63
    case _ => 0 <= v < TWO64
  }

  /** One scalar: two's complement for the signed kind, raw bits for the floating kind. */
  function Scalar(k: Kind, v: int): (s: seq<byte>)
    requires InRange(k, v)
    ensures |s| == Width(k)
  {
    LE(Width(k), if v < 0 then v + TWO64 else v)
  }

  function Unscalar(k: Kind, s: seq<byte>): int {
    var v := UnLE(s);
    if k == I64 && v >= TWO63 then v - TWO64 else v
  }

  /** The payload tables, by frame type. */
  function Layout(ftype: byte): seq<Field>
    requires Frames.KnownType(ftype)
  {
    if ftype == 1 then TelemetryLayout()
    else if ftype == 2 then CommandLayout()
    else if ftype == 3 then AckLayout()
    else if ftype == 4 then SensorLayout()
    else if ftype == 5 then ActuatorLayout()
    else ControlLayout()
  }

  function TelemetryLayout(): (l: seq<Field>)
    ensures |l| == 7
  {
    [Field(0, U64), Field(8, I64), Field(16, I64),  // tick, deadline_ns, woke_ns
     Field(24, I64), Field(32, F64), Field(40, F64), Field(48, U64)]  // done_ns, theta, cmd, drops
  }

  function CommandLayout(): (l: seq<Field>)
    ensures |l| == 4
  {
    [Field(0, U32), Field(4, U16), Field(6, U16), Field(8, U64)]  // cmd_seq, opcode, flags, effective_tick
  }

  function AckLayout(): (l: seq<Field>)
    ensures |l| == 5
  {
    [Field(0, U64), Field(8, U32), Field(12, U16),  // applied_tick, cmd_seq, status
     Field(14, U8), Field(15, U8)]  // state, reason
  }

  function SensorLayout(): (l: seq<Field>)
    ensures |l| == 7
  {
    [Field(0, U64), Field(8, I64), Field(16, F64), Field(24, F64),  // tick, t_send_ns, theta, omega
     Field(32, U32), Field(36, U32), Field(40, U32)]  // flags, cmd_seq, sim_reason
  }

  function ActuatorLayout(): (l: seq<Field>)
    ensures |l| == 7
  {
    [Field(0, U64), Field(8, U64), Field(16, I64),  // tick, veh_tick, t_sensor_send_ns
     Field(24, I64), Field(32, F64), Field(40, U32),  // t_veh_send_ns, delta, status
     Field(44, U32)]  // staleness
  }

  function ControlTimes(): (l: seq<Field>)
    ensures |l| == 7
  {
    [Field(0, U64), Field(8, I64), Field(16, I64), Field(24, I64),  // tick, deadline_ns, woke_ns, done_ns
     Field(32, I64), Field(40, I64), Field(48, I64)]  // sensor_send_ns, rx_ns, tx_ns
  }

  function ControlScalars(): (l: seq<Field>)
    ensures |l| == 9
  {
    [Field(56, U64), Field(64, F64), Field(72, F64), Field(80, F64),  // sensor_tick, theta, omega, cmd
     Field(88, F64), Field(96, F64), Field(104, U64),  // i_state, d_prev, drops
     Field(112, U32), Field(116, U32)]  // staleness, ack_cmd_seq
  }

  function ControlBytes(): (l: seq<Field>)
    ensures |l| == 8
  {
    [Field(120, U8), Field(121, U8), Field(122, U8),  // rx_count, discarded_old, discarded_superseded
     Field(123, U8), Field(124, U8), Field(125, U8),  // discarded_other, state, reason
     Field(126, U8), Field(127, U8)]  // flags, ack_status
  }

  function ControlLayout(): (l: seq<Field>)
    ensures |l| == 24
  {
    ControlTimes() + ControlScalars() + ControlBytes()
  }

  /** Fields lie end to end from `from` to `size`: no gap, no overlap. */
  predicate Tiles(layout: seq<Field>, from: nat, size: nat) {
    if layout == [] then from == size
    else layout[0].offset == from && Tiles(layout[1..], from + Width(layout[0].kind), size)
  }

  /** The same, from the field at index `i` on. */
  predicate EndToEnd(layout: seq<Field>, i: nat, from: nat, size: nat)
    requires i <= |layout|
    decreases |layout| - i
  {
    if i == |layout| then from == size
    else layout[i].offset == from && EndToEnd(layout, i + 1, from + Width(layout[i].kind), size)
  }

  lemma {:induction false} EndToEndTiles(layout: seq<Field>, i: nat, from: nat, size: nat)
    requires i <= |layout| && EndToEnd(layout, i, from, size)
    ensures Tiles(layout[i..], from, size)
    decreases |layout| - i
  {
    if i < |layout| {
      EndToEndTiles(layout, i + 1, from + Width(layout[i].kind), size);
      assert layout[i..][0] == layout[i] && layout[i..][1..] == layout[i + 1..];
    }
  }

  lemma ShortLayoutsTile()
    ensures EndToEnd(TelemetryLayout(), 0, 0, 56)
    ensures EndToEnd(CommandLayout(), 0, 0, 16)
    ensures EndToEnd(AckLayout(), 0, 0, 16)
    ensures EndToEnd(SensorLayout(), 0, 0, 44)
    ensures EndToEnd(ActuatorLayout(), 0, 0, 48)
  {}

  lemma {:induction false} TilesConcat(a: seq<Field>, b: seq<Field>, from: nat, mid: nat, size: nat)
    requires Tiles(a, from, mid) && Tiles(b, mid, size)
    ensures Tiles(a + b, from, size)
    decreases |a|
  {
    if a == [] {
      assert a + b == b;
    } else {
      TilesConcat(a[1..], b, from + Width(a[0].kind), mid, size);
      assert (a + b)[0] == a[0] && (a + b)[1..] == a[1..] + b;
    }
  }

  lemma ControlPartsTile()
    ensures EndToEnd(ControlTimes(), 0, 0, 56)
    ensures EndToEnd(ControlScalars(), 0, 56, 120)
    ensures EndToEnd(ControlBytes(), 0, 120, 128)
  {}

  lemma ControlLayoutTiles()
    ensures Tiles(ControlLayout(), 0, 128)
  {
    hide Tiles, EndToEnd, ControlTimes, ControlScalars, ControlBytes;
    var a, b, c := ControlTimes(), ControlScalars(), ControlBytes();
    ControlPartsTile();
    EndToEndTiles(a, 0, 0, 56);
    EndToEndTiles(b, 0, 56, 120);
    EndToEndTiles(c, 0, 120, 128);
    assert a[0..] == a && b[0..] == b && c[0..] == c;
    TilesConcat(a, b, 0, 56, 120);
    TilesConcat(a + b, c, 0, 120, 128);
  }

  lemma LayoutsTile(ftype: byte)
    requires Frames.KnownType(ftype)
    ensures Tiles(Layout(ftype), 0, Frames.PayloadSize(ftype))
  {
    hide Tiles, EndToEnd, TelemetryLayout, CommandLayout, AckLayout, SensorLayout, ActuatorLayout, ControlLayout;
    if ftype == Frames.CONTROL {
      ControlLayoutTiles();
    } else {
      ShortLayoutsTile();
      var layout := Layout(ftype);
      EndToEndTiles(layout, 0, 0, Frames.PayloadSize(ftype));
      assert layout[0..] == layout;
    }
  }

  predicate Fits(layout: seq<Field>, values: seq<int>) {
    |values| == |layout| && forall i | 0 <= i < |layout| :: InRange(layout[i].kind, values[i])
  }

  function EncodeFields(layout: seq<Field>, values: seq<int>): seq<byte>
    requires Fits(layout, values)
  {
    if layout == [] then []
    else Scalar(layout[0].kind, values[0]) + EncodeFields(layout[1..], values[1..])
  }

  predicate Readable(layout: seq<Field>, data: seq<byte>) {
    forall f <- layout :: f.offset + Width(f.kind) <= |data|
  }

  function DecodeFields(layout: seq<Field>, data: seq<byte>): (values: seq<int>)
    requires Readable(layout, data)
    ensures |values| == |layout|
    ensures forall i | 0 <= i < |layout| :: values[i] == Read(layout[i], data)
  {
    if layout == [] then []
    else
      assert layout[0] in layout;
      [Read(layout[0], data)] + DecodeFields(layout[1..], data)
  }

  function Read(f: Field, data: seq<byte>): int
    requires f.offset + Width(f.kind) <= |data|
  {
    Unscalar(f.kind, data[f.offset..f.offset + Width(f.kind)])
  }

  lemma ScalarRoundTrip(k: Kind, v: int)
    requires InRange(k, v)
    ensures Unscalar(k, Scalar(k, v)) == v
  {
    Pow256Widths();
    LERoundTrip(Width(k), if v < 0 then v + TWO64 else v);
  }

  lemma UnscalarRoundTrip(k: Kind, s: seq<byte>)
    requires |s| == Width(k)
    ensures InRange(k, Unscalar(k, s)) && Scalar(k, Unscalar(k, s)) == s
  {
    Pow256Widths();
    UnLEBound(s);
    UnLERoundTrip(s);
  }

  lemma {:induction false} TilesReadable(layout: seq<Field>, from: nat, size: nat)
    requires Tiles(layout, from, size)
    ensures from <= size
    ensures forall f <- layout :: from <= f.offset && f.offset + Width(f.kind) <= size
    decreases |layout|
  {
    if layout != [] {
      TilesReadable(layout[1..], from + Width(layout[0].kind), size);
    }
  }

  /** Decoding what was encoded returns the values, for any table that tiles its payload. */
  lemma {:induction false} FieldsRoundTrip(layout: seq<Field>, values: seq<int>, before: seq<byte>, size: nat)
    requires Fits(layout, values) && Tiles(layout, |before|, size)
    ensures |before| + |EncodeFields(layout, values)| == size
    ensures Readable(layout, before + EncodeFields(layout, values))
    ensures DecodeFields(layout, before + EncodeFields(layout, values)) == values
    decreases |layout|
  {
    hide LE, UnLE;
    if layout != [] {
      var s := Scalar(layout[0].kind, values[0]);
      var data := before + EncodeFields(layout, values);
      assert data == (before + s) + EncodeFields(layout[1..], values[1..]);
      FieldsRoundTrip(layout[1..], values[1..], before + s, size);
      TilesReadable(layout, |before|, size);
      assert data[|before|..|before| + Width(layout[0].kind)] == s;
      ScalarRoundTrip(layout[0].kind, values[0]);
    }
  }

  /** Encoding what was decoded returns the bytes: the tables lose nothing. */
  lemma {:induction false} BytesRoundTrip(layout: seq<Field>, data: seq<byte>, from: nat)
    requires Tiles(layout, from, |data|) && Readable(layout, data)
    ensures Fits(layout, DecodeFields(layout, data))
    ensures from <= |data| && EncodeFields(layout, DecodeFields(layout, data)) == data[from..]
    decreases |layout|
  {
    hide LE, UnLE;
    TilesReadable(layout, from, |data|);
    if layout != [] {
      var w := Width(layout[0].kind);
      UnscalarRoundTrip(layout[0].kind, data[from..from + w]);
      BytesRoundTrip(layout[1..], data, from + w);
      assert DecodeFields(layout, data)[1..] == DecodeFields(layout[1..], data);
      assert data[from..] == data[from..from + w] + data[from + w..];
    }
  }

  // The checked payload codecs

  predicate ValidCounts(rx: int, old_: int, superseded: int, other: int) {
    rx <= 9 && old_ + superseded + other <= rx
  }

  predicate CountsOk(ftype: byte, values: seq<int>) {
    ftype == Frames.CONTROL && |values| == 24 ==> ValidCounts(values[16], values[17], values[18], values[19])
  }

  /** Writers zero the reserved flag bits of commands and sensor frames. */
  function MaskFlags(ftype: byte, values: seq<int>): (m: seq<int>)
    ensures |m| == |values|
  {
    if ftype == 2 && |values| == 4 then values[2 := values[2] % 2]
    else if ftype == 4 && |values| == 7 then values[4 := MaskFF07(values[4])]
    else values
  }

  /** `flags & 0x0000ff07` */
  function MaskFF07(flags: int): int { flags / 256 % 256 * 256 + flags % 8 }

  function EncodePayload(ftype: byte, values: seq<int>): Option<seq<byte>>
    requires Frames.KnownType(ftype)
  {
    if Fits(Layout(ftype), values) && CountsOk(ftype, values) then
      MaskFits(ftype, values);
      Some(EncodeFields(Layout(ftype), MaskFlags(ftype, values)))
    else None
  }

  function DecodePayload(ftype: byte, data: seq<byte>): (r: Option<seq<int>>)
    requires Frames.KnownType(ftype)
    ensures r.Some? ==> |r.value| == |Layout(ftype)|
  {
    if |data| != Frames.PayloadSize(ftype) then None
    else
      ReadablePayload(ftype, data);
      var values := DecodeFields(Layout(ftype), data);
      if CountsOk(ftype, values) then Some(values) else None
  }

  lemma ReadablePayload(ftype: byte, data: seq<byte>)
    requires Frames.KnownType(ftype) && |data| == Frames.PayloadSize(ftype)
    ensures Readable(Layout(ftype), data)
  {
    LayoutsTile(ftype);
    TilesReadable(Layout(ftype), 0, |data|);
  }

  /** Every accepted payload decodes to its values with reserved flag bits cleared. */
  lemma PayloadRoundTrip(ftype: byte, values: seq<int>)
    requires Frames.KnownType(ftype) && EncodePayload(ftype, values).Some?
    ensures |EncodePayload(ftype, values).value| == Frames.PayloadSize(ftype)
    ensures DecodePayload(ftype, EncodePayload(ftype, values).value) == Some(MaskFlags(ftype, values))
  {
    hide Layout, Frames.PayloadSize, EncodeFields, DecodeFields;
    LayoutsTile(ftype);
    var m := MaskFlags(ftype, values);
    FieldsRoundTrip(Layout(ftype), m, [], Frames.PayloadSize(ftype));
    assert [] + EncodeFields(Layout(ftype), m) == EncodeFields(Layout(ftype), m);
  }

  lemma FillStep(layout: seq<Field>, m: seq<int>, i: nat, done: seq<byte>, size: nat)
    requires Fits(layout, m) && i < |layout| && Tiles(layout[i..], |done|, size)
    ensures layout[i].offset == |done| && |done| + Width(layout[i].kind) <= size
    ensures Tiles(layout[i + 1..], |done| + Width(layout[i].kind), size)
    ensures done + EncodeFields(layout[i..], m[i..])
         == (done + Scalar(layout[i].kind, m[i])) + EncodeFields(layout[i + 1..], m[i + 1..])
  {
    hide Scalar;
    TilesReadable(layout[i..], |done|, size);
    assert layout[i..][0] == layout[i] && m[i..][0] == m[i];
    assert layout[i..][1..] == layout[i + 1..] && m[i..][1..] == m[i + 1..];
  }

  /** The encoder that fills a zeroed buffer field by field at the tabulated offsets. */
  method EncodePayloadInto(ftype: byte, values: seq<int>) returns (r: Option<seq<byte>>)
    requires Frames.KnownType(ftype)
    ensures r == EncodePayload(ftype, values)
  {
    hide Layout, Frames.PayloadSize, Scalar, MaskFlags, EncodeFields, Tiles;
    var layout, size := Layout(ftype), Frames.PayloadSize(ftype);
    if !Fits(layout, values) || !CountsOk(ftype, values) { return None; }
    LayoutsTile(ftype);
    MaskFits(ftype, values);
    var m := MaskFlags(ftype, values);
    var payload := new byte[size](_ => 0);
    ghost var done: seq<byte> := [];
    assert layout[0..] == layout && m[0..] == m && [] + EncodeFields(layout, m) == EncodeFields(layout, m);
    for i := 0 to |layout|
      invariant |done| <= size && payload[..|done|] == done
      invariant Tiles(layout[i..], |done|, size)
      invariant done + EncodeFields(layout[i..], m[i..]) == EncodeFields(layout, m)
    {
      FillStep(layout, m, i, done, size);
      var scalar := Scalar(layout[i].kind, m[i]);
      Frames.Put(payload, layout[i].offset, scalar);
      done := done + scalar;
    }
    EncodeNothing(layout, m);
    AllFilled(layout, |done|, size);
    assert payload[..] == payload[..|done|] == done + EncodeFields(layout[|layout|..], m[|layout|..]);
    r := Some(payload[..]);
  }

  lemma EncodeNothing(layout: seq<Field>, m: seq<int>)
    requires |m| == |layout|
    ensures layout[|layout|..] == [] && m[|layout|..] == [] && Fits([], [])
    ensures EncodeFields([], []) == []
  {}

  lemma AllFilled(layout: seq<Field>, at: nat, size: nat)
    requires Tiles(layout[|layout|..], at, size)
    ensures at == size
  {}

  lemma MaskFits(ftype: byte, values: seq<int>)
    requires Frames.KnownType(ftype) && Fits(Layout(ftype), values)
    ensures Fits(Layout(ftype), MaskFlags(ftype, values))
  {}

  // Sensor, actuator and control payloads by name

  type i64 = x: int | -TWO63 <= x < TWO63

  datatype Sensor = Sensor(tick: u64, sendNs: i64, theta: word, omega: word, flags: u32, cmdSeq: u32, reason: u32) {
    function Values(): seq<int> { [tick, sendNs, theta, omega, flags, cmdSeq, reason] }
  }

  datatype Actuator = Actuator(tick: u64, vehTick: u64, sensorSendNs: i64, vehSendNs: i64, delta: word,
                               status: u32, staleness: u32) {
    function Values(): seq<int> { [tick, vehTick, sensorSendNs, vehSendNs, delta, status, staleness] }
  }

  datatype Control = Control(tick: u64, deadlineNs: i64, wokeNs: i64, doneNs: i64, sensorSendNs: i64, rxNs: i64,
                             txNs: i64, sensorTick: u64, theta: word, omega: word, cmd: word, iState: word,
                             dPrev: word, drops: u64, staleness: u32, ackCmdSeq: u32, rxCount: byte,
                             discardedOld: byte, discardedSuperseded: byte, discardedOther: byte, state: byte,
                             reason: byte, flags: byte, ackStatus: byte) {
    function Values(): seq<int> {
      [tick, deadlineNs, wokeNs, doneNs, sensorSendNs, rxNs, txNs, sensorTick, theta, omega, cmd, iState, dPrev,
       drops, staleness, ackCmdSeq, rxCount, discardedOld, discardedSuperseded, discardedOther, state, reason,
       flags, ackStatus]
    }

    predicate Countable() { ValidCounts(rxCount, discardedOld, discardedSuperseded, discardedOther) }
  }

  /** The record every cycle starts from. */
  const NO_RECORD := Control(0, 0, 0, 0, 0, 0, 0, 0, 0, 0, 0, 0, 0, 0, 0, 0, 0, 0, 0, 0, 0, 0, 0, 0)

  function DecodeSensor(data: seq<byte>): Sensor
    requires |data| == 44
  {
    SensorOf(DecodeRanged(Frames.SENSOR, data))
  }

  function DecodeActuator(data: seq<byte>): Actuator
    requires |data| == 48
  {
    ActuatorOf(DecodeRanged(Frames.ACTUATOR, data))
  }

  function DecodeControl(data: seq<byte>): Option<Control>
    requires |data| == 128
  {
    var c := ControlOf(DecodeRanged(Frames.CONTROL, data));
    if c.Countable() then Some(c) else None
  }

  function DecodeRanged(ftype: byte, data: seq<byte>): (v: seq<int>)
    requires Frames.KnownType(ftype) && |data| == Frames.PayloadSize(ftype)
    ensures Fits(Layout(ftype), v)
  {
    ReadablePayload(ftype, data);
    LayoutsTile(ftype);
    BytesRoundTrip(Layout(ftype), data, 0);
    DecodeFields(Layout(ftype), data)
  }

  function SensorOf(v: seq<int>): (s: Sensor)
    requires Fits(Layout(Frames.SENSOR), v)
    ensures s.Values() == v
  {
    Sensor(v[0], v[1], v[2], v[3], v[4], v[5], v[6])
  }

  function ActuatorOf(v: seq<int>): (a: Actuator)
    requires Fits(Layout(Frames.ACTUATOR), v)
    ensures a.Values() == v
  {
    Actuator(v[0], v[1], v[2], v[3], v[4], v[5], v[6])
  }

  function ControlKind(i: nat): Kind {
    if i == 0 || i == 7 || i == 13 then U64
    else if i <= 6 then I64
    else if i <= 12 then F64
    else if i <= 15 then U32
    else U8
  }

  lemma ControlKinds()
    ensures forall i | 0 <= i < 24 :: ControlLayout()[i].kind == ControlKind(i)
  {}

  function ControlOf(v: seq<int>): (c: Control)
    requires Fits(Layout(Frames.CONTROL), v)
    ensures c.Values() == v
  {
    hide ControlLayout;
    ControlKinds();
    Control(v[0], v[1], v[2], v[3], v[4], v[5], v[6], v[7], v[8], v[9], v[10], v[11], v[12], v[13],
            v[14], v[15], v[16], v[17], v[18], v[19], v[20], v[21], v[22], v[23])
  }

  lemma SensorFits(s: Sensor)
    ensures Fits(Layout(Frames.SENSOR), s.Values())
  {}

  lemma ActuatorFits(a: Actuator)
    ensures Fits(Layout(Frames.ACTUATOR), a.Values())
  {}

  lemma ControlFits(c: Control)
    ensures Fits(Layout(Frames.CONTROL), c.Values())
  {
    hide ControlLayout;
    ControlKinds();
  }

  function EncodeSensor(s: Sensor): (r: seq<byte>)
    ensures |r| == 44
  {
    SensorFits(s);
    PayloadRoundTrip(Frames.SENSOR, s.Values());
    EncodePayload(Frames.SENSOR, s.Values()).value
  }

  function EncodeActuator(a: Actuator): (r: seq<byte>)
    ensures |r| == 48
  {
    ActuatorFits(a);
    PayloadRoundTrip(Frames.ACTUATOR, a.Values());
    EncodePayload(Frames.ACTUATOR, a.Values()).value
  }

  function EncodeControl(c: Control): (r: Option<seq<byte>>)
    ensures r.Some? <==> c.Countable()
    ensures r.Some? ==> |r.value| == 128
  {
    ControlFits(c);
    if c.Countable() then
      PayloadRoundTrip(Frames.CONTROL, c.Values());
      EncodePayload(Frames.CONTROL, c.Values())
    else None
  }

  lemma DecodeRangedEncoded(ftype: byte, values: seq<int>)
    requires Frames.KnownType(ftype) && EncodePayload(ftype, values).Some?
    ensures |EncodePayload(ftype, values).value| == Frames.PayloadSize(ftype)
    ensures DecodeRanged(ftype, EncodePayload(ftype, values).value) == MaskFlags(ftype, values)
  {
    hide Layout, EncodePayload, MaskFlags, Frames.PayloadSize;
    PayloadRoundTrip(ftype, values);
  }

  lemma SensorRoundTrip(s: Sensor)
    requires MaskFF07(s.flags) == s.flags
    ensures DecodeSensor(EncodeSensor(s)) == s
  {
    hide Layout, EncodePayload, DecodeRanged;
    SensorFits(s);
    PayloadRoundTripAccepts(Frames.SENSOR, s.Values());
    DecodeRangedEncoded(Frames.SENSOR, s.Values());
  }

  lemma ActuatorRoundTrip(a: Actuator)
    ensures DecodeActuator(EncodeActuator(a)) == a
  {
    hide Layout, EncodePayload, DecodeRanged;
    ActuatorFits(a);
    PayloadRoundTripAccepts(Frames.ACTUATOR, a.Values());
    DecodeRangedEncoded(Frames.ACTUATOR, a.Values());
  }

  lemma PayloadRoundTripAccepts(ftype: byte, values: seq<int>)
    requires Frames.KnownType(ftype) && Fits(Layout(ftype), values) && CountsOk(ftype, values)
    ensures EncodePayload(ftype, values).Some?
  {}

  /** A record with possible counts survives encoding and decoding field for field; any other is refused. */
  lemma ControlRoundTrip(c: Control)
    ensures EncodeControl(c).Some? <==> c.Countable()
    ensures c.Countable() ==> DecodeControl(EncodeControl(c).value) == Some(c)
  {
    hide Layout, EncodePayload, DecodeRanged;
    ControlFits(c);
    if c.Countable() {
      PayloadRoundTripAccepts(Frames.CONTROL, c.Values());
      DecodeRangedEncoded(Frames.CONTROL, c.Values());
    }
  }

  /** A datagram read as a reply; nothing if the frame is unusable. */
  function ReplyIn(data: seq<byte>): (v: Option<Actuator>) {
    var d := Frames.DecodeDatagram(data, {Frames.ACTUATOR});
    if d.Bad? then None
    else
      Frames.EncodeInvertsDecode(data, {Frames.ACTUATOR});
      Some(DecodeActuator(d.payload))
  }
}
