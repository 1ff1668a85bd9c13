/** The datagram envelope: sync, version, type, length, sequence, payload, checksum. */
module Frames {
  import opened Basics
  import Crc

  const SYNC := 0xEB90
  const VERSION: byte := 1
  const MAX_PAYLOAD := 498
  const OVERHEAD := 14

  const SENSOR: byte := 4
  const ACTUATOR: byte := 5
  const CONTROL: byte := 6

  datatype DatagramError = BadSync | BadVersion | BadType | BadLength | BadCrc
  datatype Decoded = Good(kind: byte, seqNo: u32, payload: seq<byte>) | Bad(error: DatagramError)

  predicate KnownType(kind: byte) { 1 <= kind <= 6 }

  function PayloadSize(kind: byte): nat
    requires KnownType(kind)
  {
    [0, 56, 16, 16, 44, 48, 128][kind]
  }

  function Header(kind: byte, seqNo: u32, length: nat): (h: seq<byte>)
    ensures |h| == 10
  {
    LE(2, SYNC) + [VERSION, kind] + LE(2, length) + LE(4, seqNo)
  }

  function EncodeFrame(kind: byte, seqNo: u32, payload: seq<byte>): (f: seq<byte>)
    ensures |f| == OVERHEAD + |payload|
  {
    var body := Header(kind, seqNo, |payload|) + payload;
    body + LE(4, Crc.Crc32c(body[2..]))
  }

  function DecodeDatagram(data: seq<byte>, accepted: set<byte>): Decoded {
    if |data| < OVERHEAD then Bad(BadLength)
    else if Get16(data, 0) != SYNC then Bad(BadSync)
    else if data[2] != VERSION then Bad(BadVersion)
    else if !KnownType(data[3]) || data[3] !in accepted then Bad(BadType)
    else if Get16(data, 4) != PayloadSize(data[3]) || |data| != OVERHEAD + Get16(data, 4) then Bad(BadLength)
    else if Get32(data, |data| - 4) != Crc.Crc32c(data[2..|data| - 4]) then Bad(BadCrc)
    else Good(data[3], Get32(data, 6), data[10..|data| - 4])
  }

  // The encoder, as it fills a caller's buffer

  method Put(out: array<byte>, offset: nat, bytes: seq<byte>)
    requires offset + |bytes| <= out.Length
    modifies out
    ensures out[..offset + |bytes|] == old(out[..offset]) + bytes
    ensures forall k | offset + |bytes| <= k < out.Length :: out[k] == old(out[k])
  {
    for i := 0 to |bytes|
      invariant out[..offset + i] == old(out[..offset]) + bytes[..i]
      invariant forall k | offset + i <= k < out.Length :: out[k] == old(out[k])
    {
      ghost var before := out[..offset + i];
      out[offset + i] := bytes[i];
      assert out[..offset + i] == before;
      assert out[..offset + (i + 1)] == before + [bytes[i]];
      assert bytes[..i + 1] == bytes[..i] + [bytes[i]];
    }
    assert bytes[..|bytes|] == bytes;
  }

  method EncodeFrameInto(kind: byte, seqNo: u32, payload: seq<byte>, out: array<byte>) returns (n: nat)
    requires |payload| <= MAX_PAYLOAD && OVERHEAD + |payload| <= out.Length
    modifies out
    ensures n == OVERHEAD + |payload|
    ensures out[..n] == EncodeFrame(kind, seqNo, payload)
    ensures out[n..] == old(out[n..])
  {
    hide LE, Crc.Crc32c;
    Put(out, 0, LE(2, SYNC));
    assert out[..2] == LE(2, SYNC);
    Put(out, 2, [VERSION]);
    Put(out, 3, [kind]);
    assert out[..4] == LE(2, SYNC) + [VERSION, kind];
    Put(out, 4, LE(2, |payload|));
    Put(out, 6, LE(4, seqNo));
    assert out[..10] == Header(kind, seqNo, |payload|);
    Put(out, 10, payload);
    var end := 10 + |payload|;
    assert out[2..end] == out[..end][2..];
    Put(out, end, LE(4, Crc.Crc32c(out[2..end])));
    n := OVERHEAD + |payload|;
  }

  // Round trips

  lemma FrameFields(kind: byte, seqNo: u32, payload: seq<byte>)
    requires |payload| < 0x1_0000
    ensures var f := EncodeFrame(kind, seqNo, payload);
            && Get16(f, 0) == SYNC && f[2] == VERSION && f[3] == kind
            && Get16(f, 4) == |payload| && Get32(f, 6) == seqNo
            && f[10..|f| - 4] == payload
            && Get32(f, |f| - 4) == Crc.Crc32c(f[2..|f| - 4])
  {
    hide LE, Crc.Crc32c;
    var f := EncodeFrame(kind, seqNo, payload);
    var h := Header(kind, seqNo, |payload|);
    var body := h + payload;
    assert f[..10] == h;
    assert f[0..2] == LE(2, SYNC) && f[4..6] == LE(2, |payload|) && f[6..10] == LE(4, seqNo);
    Get16LE(f, 0, SYNC);
    Get16LE(f, 4, |payload|);
    Get32LE(f, 6, seqNo);
    assert f[2..|f| - 4] == body[2..];
    assert f[|f| - 4..|f|] == LE(4, Crc.Crc32c(body[2..]));
    Get32LE(f, |f| - 4, Crc.Crc32c(body[2..]));
  }

  /** Decoding accepts exactly the encodings of well-sized payloads, and inverts them. */
  lemma DecodeInvertsEncode(kind: byte, seqNo: u32, payload: seq<byte>, accepted: set<byte>)
    requires KnownType(kind) && kind in accepted && |payload| == PayloadSize(kind)
    ensures DecodeDatagram(EncodeFrame(kind, seqNo, payload), accepted) == Good(kind, seqNo, payload)
  {
    hide LE, Crc.Crc32c;
    FrameFields(kind, seqNo, payload);
  }

  /** Bytes with a good header and checksum are the encoding of their own contents. */
  lemma WellFormedIsEncoded(e: seq<byte>)
    requires OVERHEAD <= |e| && Get16(e, 0) == SYNC && e[2] == VERSION
    requires Get16(e, 4) == |e| - OVERHEAD
    requires Get32(e, |e| - 4) == Crc.Crc32c(e[2..|e| - 4])
    ensures e == EncodeFrame(e[3], Get32(e, 6), e[10..|e| - 4])
  {
    hide LE, Crc.Crc32c, Get16, Get32;
    var n := |e|;
    var payload := e[10..n - 4];
    Split16(e, 0);
    Split16(e, 4);
    Split32(e, 6);
    Split32(e, n - 4);
    assert e[..4] == e[0..2] + [e[2], e[3]];
    assert e[..6] == e[..4] + e[4..6];
    assert e[..10] == e[..6] + e[6..10] == Header(e[3], Get32(e, 6), |payload|);
    assert e[..n - 4] == e[..10] + payload;
    assert e[..n - 4][2..] == e[2..n - 4];
    assert e == e[..n - 4] + e[n - 4..n];
  }

  lemma EncodeInvertsDecode(data: seq<byte>, accepted: set<byte>)
    requires DecodeDatagram(data, accepted).Good?
    ensures var d := DecodeDatagram(data, accepted);
            && d.kind in accepted && KnownType(d.kind) && |d.payload| == PayloadSize(d.kind)
            && data == EncodeFrame(d.kind, d.seqNo, d.payload)
  {
    hide LE, Crc.Crc32c, EncodeFrame, Get16, Get32;
    WellFormedIsEncoded(data);
  }

  lemma Split16(data: seq<byte>, o: nat)
    requires o + 2 <= |data|
    ensures data[o..o + 2] == LE(2, Get16(data, o))
  {
    assert data[o..o + 2] == [data[o], data[o + 1]];
    UnLERoundTrip([data[o], data[o + 1]]);
    assert UnLE([data[o], data[o + 1]][1..]) == data[o + 1];
  }

  lemma Split32(data: seq<byte>, o: nat)
    requires o + 4 <= |data|
    ensures data[o..o + 4] == LE(4, Get32(data, o))
  {
    var t := data[o..o + 4];
    assert t == [data[o], data[o + 1], data[o + 2], data[o + 3]];
    UnLERoundTrip(t);
    assert t[1..][1..][1..] == [data[o + 3]];
    assert UnLE(t[1..][1..][1..]) == data[o + 3];
    assert UnLE(t[1..][1..]) == data[o + 2] + 256 * UnLE(t[1..][1..][1..]);
    assert UnLE(t[1..]) == data[o + 1] + 256 * UnLE(t[1..][1..]);
  }

  lemma EncodeInjective(k1: byte, s1: u32, p1: seq<byte>, k2: byte, s2: u32, p2: seq<byte>)
    requires |p1| < 0x1_0000 && |p2| < 0x1_0000
    requires EncodeFrame(k1, s1, p1) == EncodeFrame(k2, s2, p2)
    ensures k1 == k2 && s1 == s2 && p1 == p2
  {
    FrameFields(k1, s1, p1);
    FrameFields(k2, s2, p2);
  }

  // Corruption

  lemma ChangedWord32(s: seq<byte>, o: nat, i: nat, b: byte)
    requires o + 4 <= |s| && o <= i < o + 4 && s[i] != b
    ensures Get32(s[i := b], o) != Get32(s, o)
  {}

  /** A datagram with exactly one byte changed is never accepted. */
  lemma OneByteCorruptionRejected(data: seq<byte>, accepted: set<byte>, i: nat, b: byte)
    requires DecodeDatagram(data, accepted).Good?
    requires i < |data| && b != data[i]
    ensures DecodeDatagram(data[i := b], accepted).Bad?
    ensures i < 2 ==> DecodeDatagram(data[i := b], accepted).error == BadSync
    ensures 6 <= i ==> DecodeDatagram(data[i := b], accepted).error == BadCrc
  {
    hide Crc.Crc32c, PayloadSize;
    var bad, n := data[i := b], |data|;
    if i < 2 {
      assert Get16(bad, 0) != Get16(data, 0);
    } else if i >= n - 4 {
      ChangedWord32(data, n - 4, i, b);
      assert bad[2..n - 4] == data[2..n - 4];
    } else {
      assert bad[2..n - 4] == data[2..n - 4][i - 2 := b];
      Crc.OneByteChange(data[2..n - 4], i - 2, b);
      assert Get32(bad, n - 4) == Get32(data, n - 4);
    }
  }
}
