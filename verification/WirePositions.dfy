/** Where each named field of a sensor, actuator or control payload lies on the wire. */
module WirePositions {
  import opened Basics
  import opened Payload
  import Frames

  /** The bytes from one position up to another are this value, least byte first; a negative one in two's complement. */
  predicate Holds(data: seq<byte>, from: nat, to: nat, v: int) {
    from <= to <= |data| && -TWO64 <= v && data[from..to] == LE(to - from, if v < 0 then v + TWO64 else v)
  }

  predicate SensorAt(data: seq<byte>, s: Sensor) {
    && |data| == 44
    && Holds(data, 0, 8, s.tick) && Holds(data, 8, 16, s.sendNs) && Holds(data, 16, 24, s.theta)
    && Holds(data, 24, 32, s.omega) && Holds(data, 32, 36, s.flags) && Holds(data, 36, 40, s.cmdSeq)
    && Holds(data, 40, 44, s.reason)
  }

  predicate ActuatorAt(data: seq<byte>, a: Actuator) {
    && |data| == 48
    && Holds(data, 0, 8, a.tick) && Holds(data, 8, 16, a.vehTick) && Holds(data, 16, 24, a.sensorSendNs)
    && Holds(data, 24, 32, a.vehSendNs) && Holds(data, 32, 40, a.delta) && Holds(data, 40, 44, a.status)
    && Holds(data, 44, 48, a.staleness)
  }

  predicate ControlAt(data: seq<byte>, c: Control) {
    && |data| == 128
    && Holds(data, 0, 8, c.tick) && Holds(data, 8, 16, c.deadlineNs) && Holds(data, 16, 24, c.wokeNs)
    && Holds(data, 24, 32, c.doneNs) && Holds(data, 32, 40, c.sensorSendNs) && Holds(data, 40, 48, c.rxNs)
    && Holds(data, 48, 56, c.txNs) && Holds(data, 56, 64, c.sensorTick) && Holds(data, 64, 72, c.theta)
    && Holds(data, 72, 80, c.omega) && Holds(data, 80, 88, c.cmd) && Holds(data, 88, 96, c.iState)
    && Holds(data, 96, 104, c.dPrev) && Holds(data, 104, 112, c.drops) && Holds(data, 112, 116, c.staleness)
    && Holds(data, 116, 120, c.ackCmdSeq)
    && data[120..] == [c.rxCount, c.discardedOld, c.discardedSuperseded, c.discardedOther, c.state, c.reason, c.flags,
                       c.ackStatus]
  }

  /** A field read from a payload lies where its table says. */
  lemma FieldHolds(f: Field, data: seq<byte>, v: int)
    requires f.offset + Width(f.kind) <= |data| && v == Read(f, data)
    ensures Holds(data, f.offset, f.offset + Width(f.kind), v)
  {
    hide LE, UnLE;
    UnscalarRoundTrip(f.kind, data[f.offset..f.offset + Width(f.kind)]);
  }

  /** So do all that were read together. */
  lemma RangedHold(ftype: byte, data: seq<byte>)
    requires Frames.KnownType(ftype) && |data| == Frames.PayloadSize(ftype)
    ensures |DecodeRanged(ftype, data)| == |Layout(ftype)|
    ensures forall i | 0 <= i < |Layout(ftype)| ::
              Holds(data, Layout(ftype)[i].offset, Layout(ftype)[i].offset + Width(Layout(ftype)[i].kind),
                    DecodeRanged(ftype, data)[i])
  {
    hide Layout, Holds, Read, Width;
    ReadablePayload(ftype, data);
    forall i | 0 <= i < |Layout(ftype)|
      ensures Holds(data, Layout(ftype)[i].offset, Layout(ftype)[i].offset + Width(Layout(ftype)[i].kind),
                    DecodeRanged(ftype, data)[i])
    {
      assert Layout(ftype)[i] in Layout(ftype);
      FieldHolds(Layout(ftype)[i], data, DecodeRanged(ftype, data)[i]);
    }
  }

  /** What is decoded lies at its positions, whatever the bytes. */
  lemma SensorDecoded(data: seq<byte>)
    requires |data| == 44
    ensures SensorAt(data, DecodeSensor(data))
  {
    hide Holds, DecodeRanged;
    RangedHold(Frames.SENSOR, data);
    var l := Layout(Frames.SENSOR);
    assert l[0].offset == 0 && l[1].offset == 8 && l[2].offset == 16 && l[3].offset == 24 && l[4].offset == 32
           && l[5].offset == 36 && l[6].offset == 40;
  }

  lemma ActuatorDecoded(data: seq<byte>)
    requires |data| == 48
    ensures ActuatorAt(data, DecodeActuator(data))
  {
    hide Holds, DecodeRanged;
    RangedHold(Frames.ACTUATOR, data);
    var l := Layout(Frames.ACTUATOR);
    assert l[0].offset == 0 && l[1].offset == 8 && l[2].offset == 16 && l[3].offset == 24 && l[4].offset == 32
           && l[5].offset == 40 && l[6].offset == 44;
  }

  lemma ControlPlaces()
    ensures var l, at := ControlLayout(), [0, 8, 16, 24, 32, 40, 48, 56, 64, 72, 80, 88, 96, 104, 112, 116];
            && (forall i | 0 <= i < 16 :: l[i].offset == at[i])
            && (forall i | 16 <= i < 24 :: l[i].offset == 104 + i)
  {}

  lemma OneByte(data: seq<byte>, p: nat, b: byte)
    requires Holds(data, p, p + 1, b)
    ensures data[p] == b
  {
    assert data[p..p + 1] == LE(1, b) == [b % 256] + LE(0, b / 256);
    assert data[p..p + 1][0] == data[p];
  }

  lemma LastBytes(data: seq<byte>, c: Control)
    requires |data| == 128
    requires forall i | 16 <= i < 24 :: Holds(data, 104 + i, 105 + i, c.Values()[i])
    ensures data[120..] == [c.rxCount, c.discardedOld, c.discardedSuperseded, c.discardedOther, c.state, c.reason,
                            c.flags, c.ackStatus]
  {
    hide Holds;
    var v := c.Values();
    forall i | 16 <= i < 24
      ensures data[104 + i] == v[i]
    {
      assert Holds(data, 104 + i, 105 + i, v[i]);
      OneByte(data, 104 + i, v[i]);
    }
    assert v[16..] == [c.rxCount, c.discardedOld, c.discardedSuperseded, c.discardedOther, c.state, c.reason, c.flags,
                       c.ackStatus];
    assert data[120..] == v[16..];
  }

  lemma ControlDecoded(data: seq<byte>)
    requires |data| == 128 && DecodeControl(data).Some?
    ensures ControlAt(data, DecodeControl(data).value)
  {
    hide Holds, DecodeRanged, ControlLayout;
    RangedHold(Frames.CONTROL, data);
    ControlPlaces();
    ControlKinds();
    var l, c := Layout(Frames.CONTROL), DecodeControl(data).value;
    LastBytes(data, c);
  }

  lemma SensorBack(s: Sensor)
    ensures 0 <= MaskFF07(s.flags) < TWO32
    ensures DecodeSensor(EncodeSensor(s)) == s.(flags := MaskFF07(s.flags))
  {
    hide Layout, EncodePayload, DecodeRanged;
    SensorFits(s);
    PayloadRoundTripAccepts(Frames.SENSOR, s.Values());
    DecodeRangedEncoded(Frames.SENSOR, s.Values());
  }

  /** A sensor payload holds each value at its position, the flags without their reserved bits. */
  lemma SensorOnWire(s: Sensor)
    ensures 0 <= MaskFF07(s.flags) < TWO32
    ensures SensorAt(EncodeSensor(s), s.(flags := MaskFF07(s.flags)))
  {
    hide EncodeSensor, DecodeSensor, SensorAt;
    SensorBack(s);
    SensorDecoded(EncodeSensor(s));
  }

  /** An actuator payload holds each value at its position. */
  lemma ActuatorOnWire(a: Actuator)
    ensures ActuatorAt(EncodeActuator(a), a)
  {
    hide EncodeActuator, DecodeActuator, ActuatorAt;
    ActuatorRoundTrip(a);
    ActuatorDecoded(EncodeActuator(a));
  }

  /** And so does a control payload. */
  lemma ControlOnWire(c: Control)
    requires c.Countable()
    ensures ControlAt(EncodeControl(c).value, c)
  {
    hide DecodeControl, ControlAt, Control.Countable;
    ControlRoundTrip(c);
    ControlDecoded(EncodeControl(c).value);
  }
}
