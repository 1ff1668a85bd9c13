/** The resynchronising stream decoder: one scan, two programs. */
module Stream {
  import opened Basics
  import Crc
  import opened Frames

  datatype FrameAt = FrameAt(kind: byte, seqNo: u32, offset: nat, length: nat) {
    function Start(): int { offset - 10 }
    function End(): nat { offset + length + 4 }
    function Size(): nat { OVERHEAD + length }
  }

  datatype Counters = Counters(framesOk: nat, crcErrors: nat, versionMismatch: nat, resyncs: nat,
                               discontinuities: nat, lost: nat)

  const NO_COUNTS := Counters(0, 0, 0, 0, 0, 0)

  /** What the bytes at one position are. */
  datatype Verdict = NoSync | Cut | WrongVersion | BadHead | BadSum | Valid(frame: FrameAt)

  predicate SyncAt(data: seq<byte>, pos: nat) {
    pos + 2 <= |data| && data[pos] == 0x90 && data[pos + 1] == 0xEB
  }

  function Examine(data: seq<byte>, pos: nat): (v: Verdict)
    ensures v.Valid? ==> v.frame.Start() == pos && v.frame.End() <= |data|
  {
    if !SyncAt(data, pos) then NoSync
    else if pos + 10 > |data| then Cut
    else if data[pos + 2] != VERSION then WrongVersion
    else if !KnownType(data[pos + 3]) || Get16(data, pos + 4) > MAX_PAYLOAD then BadHead
    else
      var length := Get16(data, pos + 4);
      var end := pos + OVERHEAD + length;
      if end > |data| then Cut
      else if Get32(data, end - 4) != Crc.Crc32c(data[pos + 2..end - 4]) then BadSum
      else Valid(FrameAt(data[pos + 3], Get32(data, pos + 6), pos + 10, length))
  }

  /** The state of a scan. */
  datatype Scan = Scan(pos: nat, locked: bool, expected: Option<u32>, consumed: nat,
                       frames: seq<FrameAt>, counts: Counters)

  const START := Scan(0, true, None, 0, [], NO_COUNTS)

  function Fail(s: Scan, v: Verdict): Scan {
    var c := s.counts;
    var c1 := if v.WrongVersion? then c.(versionMismatch := c.versionMismatch + 1)
              else if v.BadSum? then c.(crcErrors := c.crcErrors + 1) else c;
    var c2 := if s.locked then c1.(resyncs := c1.resyncs + 1) else c1;
    s.(pos := s.pos + 1, locked := false, counts := c2)
  }

  /** A sequence number ahead of the expected one is that many lost; one behind is a discontinuity. */
  function CountGap(c: Counters, expected: Option<u32>, seqNo: u32): Counters {
    var gap := if expected.Some? then (seqNo - expected.value) % TWO32 else 0;
    if 1 <= gap < 0x8000_0000 then c.(lost := c.lost + gap)
    else if gap >= 0x8000_0000 then c.(discontinuities := c.discontinuities + 1)
    else c
  }

  method NoteGap(before: Counters, expected: Option<u32>, seqNo: u32) returns (c: Counters)
    ensures c == CountGap(before, expected, seqNo)
  {
    c := before;
    if expected.Some? {
      var gap := (seqNo - expected.value) % TWO32;
      if 1 <= gap < 0x8000_0000 {
        c := c.(lost := c.lost + gap);
      } else if gap >= 0x8000_0000 {
        c := c.(discontinuities := c.discontinuities + 1);
      }
    }
  }

  function Accept(s: Scan, f: FrameAt): Scan {
    var c := s.counts.(framesOk := s.counts.framesOk + 1);
    Scan(f.End(), true, Some((f.seqNo + 1) % TWO32), s.consumed + f.Size(), s.frames + [f],
         CountGap(c, s.expected, f.seqNo))
  }

  predicate Running(data: seq<byte>, s: Scan) { s.pos + 2 <= |data| && !Examine(data, s.pos).Cut? }

  function Advance(data: seq<byte>, s: Scan): (t: Scan)
    requires Running(data, s)
    ensures s.pos < t.pos <= |data|
  {
    match Examine(data, s.pos)
    case NoSync => s.(pos := s.pos + 1)
    case Valid(f) => Accept(s, f)
    case v => Fail(s, v)
  }

  function Decode(data: seq<byte>, s: Scan): Scan
    decreases |data| - s.pos
  {
    if Running(data, s) then Decode(data, Advance(data, s)) else s
  }

  lemma Unroll(data: seq<byte>, s: Scan)
    ensures Decode(data, s) == if Running(data, s) then Decode(data, Advance(data, s)) else s
  {}

  function Skipped(data: seq<byte>, s: Scan): int { |data| - s.consumed }

  /** The byte-scanning program. */
  method DecodeByScanning(data: seq<byte>) returns (frames: seq<FrameAt>, counts: Counters, skipped: int)
    ensures var end := Decode(data, START);
            frames == end.frames && counts == end.counts && skipped == Skipped(data, end)
  {
    hide Crc.Crc32c, Get16, Get32, Decode;
    var ok, crcErrors, versions, resyncs, discontinuities, lost: nat := 0, 0, 0, 0, 0, 0;
    var locked, haveExpected, expected: u32 := true, false, 0;
    var consumed, pos: nat := 0, 0;
    frames := [];
    while pos + 2 <= |data|
      invariant 0 <= consumed
      invariant Decode(data, Scan(pos, locked, if haveExpected then Some(expected) else None, consumed, frames,
                                  Counters(ok, crcErrors, versions, resyncs, discontinuities, lost)))
             == Decode(data, START)
      decreases |data| - pos
    {
      Unroll(data, Scan(pos, locked, if haveExpected then Some(expected) else None, consumed, frames,
                        Counters(ok, crcErrors, versions, resyncs, discontinuities, lost)));
      if !(data[pos] == 0x90 && data[pos + 1] == 0xEB) { pos := pos + 1; continue; }
      if pos + OVERHEAD - 4 > |data| { break; }
      var version, kind, length := data[pos + 2], data[pos + 3], Get16(data, pos + 4);
      var isVersion, isCrc, failed := false, false, false;
      if version != VERSION {
        isVersion, failed := true, true;
      } else if !(1 <= kind <= 6) || length > MAX_PAYLOAD {
        failed := true;
      } else {
        var end := pos + OVERHEAD + length;
        if end > |data| { break; }
        if Get32(data, end - 4) != Crc.Crc32c(data[pos + 2..end - 4]) {
          isCrc, failed := true, true;
        }
      }
      if failed {
        if isVersion { versions := versions + 1; }
        if isCrc { crcErrors := crcErrors + 1; }
        if locked { resyncs, locked := resyncs + 1, false; }
        pos := pos + 1;
        continue;
      }
      var seqNo := Get32(data, pos + 6);
      frames := frames + [FrameAt(kind, seqNo, pos + 10, length)];
      ok, consumed := ok + 1, consumed + OVERHEAD + length;
      if haveExpected {
        var gap := (seqNo - expected) % TWO32;
        if gap >= 1 && gap < 0x8000_0000 { lost := lost + gap; }
        else if gap >= 0x8000_0000 { discontinuities := discontinuities + 1; }
      }
      expected, haveExpected, locked := (seqNo + 1) % TWO32, true, true;
      pos := pos + OVERHEAD + length;
    }
    counts := Counters(ok, crcErrors, versions, resyncs, discontinuities, lost);
    Unroll(data, Scan(pos, locked, if haveExpected then Some(expected) else None, consumed, frames, counts));
    skipped := |data| - consumed;
  }

  /** `data.find(sync, from)`: the least sync position, or none. */
  method FindSync(data: seq<byte>, from: nat) returns (at: Option<nat>)
    ensures at.None? ==> forall p: nat | from <= p :: !SyncAt(data, p)
    ensures at.Some? ==> from <= at.value && SyncAt(data, at.value)
                         && forall p | from <= p < at.value :: !SyncAt(data, p)
  {
    var p := from;
    while p + 2 <= |data|
      invariant from <= p && forall q | from <= q < p :: !SyncAt(data, q)
    {
      if SyncAt(data, p) { return Some(p); }
      p := p + 1;
    }
    at := None;
  }

  /** Two scans that differ at most in where they stopped. */
  predicate SameResult(a: Scan, b: Scan) {
    a.frames == b.frames && a.counts == b.counts && a.consumed == b.consumed
  }

  lemma {:induction false} SkipToSync(data: seq<byte>, s: Scan, to: nat)
    requires s.pos <= to <= |data|
    requires forall p: nat | s.pos <= p < to :: !SyncAt(data, p)
    ensures SameResult(Decode(data, s), Decode(data, s.(pos := to)))
    decreases |data| - s.pos
  {
    hide Crc.Crc32c, Get16, Get32;
    if s.pos < to {
      SkipToSync(data, s.(pos := s.pos + 1), to);
    }
  }

  datatype PyFrame = PyFrame(kind: byte, seqNo: u32, payload: seq<byte>)

  predicate Inside(frames: seq<FrameAt>, end: nat) {
    forall f <- frames :: f.End() <= end
  }

  function Payloaded(data: seq<byte>, f: FrameAt): PyFrame
    requires f.End() <= |data|
  {
    PyFrame(f.kind, f.seqNo, data[f.offset..f.offset + f.length])
  }

  function Extract(data: seq<byte>, frames: seq<FrameAt>): (r: seq<PyFrame>)
    requires Inside(frames, |data|)
    ensures |r| == |frames|
    ensures forall i | 0 <= i < |r| :: r[i] == Payloaded(data, frames[i])
  {
    if frames == [] then [] else
      var n := |frames| - 1;
      assert frames[n] in frames;
      Extract(data, frames[..n]) + [Payloaded(data, frames[n])]
  }

  lemma ExtractNil(data: seq<byte>)
    ensures Inside([], |data|) && Extract(data, []) == []
  {}

  lemma ExtractSnoc(data: seq<byte>, frames: seq<FrameAt>, f: FrameAt)
    requires Inside(frames, |data|) && f.End() <= |data|
    ensures Inside(frames + [f], |data|)
    ensures Extract(data, frames + [f]) == Extract(data, frames) + [Payloaded(data, f)]
  {
    assert (frames + [f])[..|frames|] == frames;
  }

  /** The find-based program. It returns payload bytes where the other returns positions. */
  method DecodeByFinding(data: seq<byte>) returns (frames: seq<PyFrame>, counts: Counters, skipped: int)
    ensures var end := Decode(data, START);
            && Inside(end.frames, |data|)
            && frames == Extract(data, end.frames)
            && counts == end.counts && skipped == Skipped(data, end)
  {
    hide Crc.Crc32c, Get16, Get32, Decode, Extract, Inside, CountGap;
    var c := NO_COUNTS;
    var expected: Option<u32> := None;
    var consumed, pos: nat := 0, 0;
    var locked := true;
    frames := [];
    ghost var at: seq<FrameAt> := [];
    ExtractNil(data);
    while true
      invariant pos <= |data|
      invariant Inside(at, |data|)
      invariant frames == Extract(data, at)
      invariant 0 <= consumed
      invariant SameResult(Decode(data, Scan(pos, locked, expected, consumed, at, c)), Decode(data, START))
      decreases |data| - pos
    {
      ghost var here := Scan(pos, locked, expected, consumed, at, c);
      var syncAt := FindSync(data, pos);
      if syncAt.None? {
        SkipToSync(data, here, |data|);
        Unroll(data, here.(pos := |data|));
        break;
      }
      SkipToSync(data, here, syncAt.value);
      pos := syncAt.value;
      Unroll(data, here.(pos := pos));
      if pos + 10 > |data| { break; }
      var version, kind, length, seqNo := data[pos + 2], data[pos + 3], Get16(data, pos + 4), Get32(data, pos + 6);
      if version != VERSION {
        c := c.(versionMismatch := c.versionMismatch + 1);
        if locked { c := c.(resyncs := c.resyncs + 1); locked := false; }
        pos := pos + 1;
        continue;
      }
      if !KnownType(kind) || length > MAX_PAYLOAD {
        if locked { c := c.(resyncs := c.resyncs + 1); locked := false; }
        pos := pos + 1;
        continue;
      }
      var end := pos + 10 + length + 4;
      if end > |data| { break; }
      if Get32(data, end - 4) != Crc.Crc32c(data[pos + 2..end - 4]) {
        c := c.(crcErrors := c.crcErrors + 1);
        if locked { c := c.(resyncs := c.resyncs + 1); locked := false; }
        pos := pos + 1;
        continue;
      }
      var payload := data[pos + 10..end - 4];
      frames := frames + [PyFrame(kind, seqNo, payload)];
      at := at + [FrameAt(kind, seqNo, pos + 10, length)];
      ExtractSnoc(data, here.frames, FrameAt(kind, seqNo, pos + 10, length));
      c := c.(framesOk := c.framesOk + 1);
      consumed := consumed + (end - pos);
      c := NoteGap(c, expected, seqNo);
      expected, locked, pos := Some((seqNo + 1) % TWO32), true, end;
    }
    counts, skipped := c, |data| - consumed;
  }

  // What a scan means

  /** The bytes of `f` are the encoding of its own contents. */
  predicate Genuine(data: seq<byte>, f: FrameAt) {
    && 10 <= f.offset && f.End() <= |data| && KnownType(f.kind) && f.length <= MAX_PAYLOAD
    && data[f.Start()..f.End()] == EncodeFrame(f.kind, f.seqNo, data[f.offset..f.offset + f.length])
  }

  predicate Covered(p: nat, frames: seq<FrameAt>) {
    exists f <- frames :: f.Start() <= p < f.End()
  }

  function TotalSize(frames: seq<FrameAt>): nat {
    if frames == [] then 0 else TotalSize(frames[..|frames| - 1]) + frames[|frames| - 1].Size()
  }

  ghost predicate Sound(data: seq<byte>, s: Scan) {
    && s.pos <= |data|
    && (forall f <- s.frames :: Genuine(data, f) && f.End() <= s.pos)
    && (forall i, j | 0 <= i < j < |s.frames| :: s.frames[i].End() <= s.frames[j].Start())
    && (forall p: nat | p < s.pos && !Covered(p, s.frames) :: !Examine(data, p).Valid?)
    && s.consumed == TotalSize(s.frames) <= s.pos
    && s.counts.framesOk == |s.frames|
  }

  lemma Embedded(before: seq<byte>, e: seq<byte>, after: seq<byte>, i: nat, j: nat)
    requires i <= j <= |e|
    ensures (before + e + after)[|before| + i..|before| + j] == e[i..j]
  {}

  lemma EmbeddedWords(before: seq<byte>, e: seq<byte>, after: seq<byte>, i: nat)
    ensures i < |e| ==> (before + e + after)[|before| + i] == e[i]
    ensures i + 2 <= |e| ==> Get16(before + e + after, |before| + i) == Get16(e, i)
    ensures i + 4 <= |e| ==> Get32(before + e + after, |before| + i) == Get32(e, i)
  {}

  lemma ValidIsGenuine(data: seq<byte>, pos: nat)
    requires Examine(data, pos).Valid?
    ensures Genuine(data, Examine(data, pos).frame)
  {
    hide Crc.Crc32c, LE, EncodeFrame, Get16, Get32;
    var f := Examine(data, pos).frame;
    var before, e, after := data[..pos], data[pos..f.End()], data[f.End()..];
    assert data == before + e + after;
    EmbeddedWords(before, e, after, 0);
    EmbeddedWords(before, e, after, 2);
    EmbeddedWords(before, e, after, 3);
    EmbeddedWords(before, e, after, 4);
    EmbeddedWords(before, e, after, 6);
    EmbeddedWords(before, e, after, |e| - 4);
    Embedded(before, e, after, 2, |e| - 4);
    Embedded(before, e, after, 10, |e| - 4);
    SyncValue(data, pos);
    assert pos + 0 == pos && pos + (|e| - 4) == f.End() - 4;
    WellFormedIsEncoded(e);
  }

  lemma SyncValue(data: seq<byte>, pos: nat)
    requires SyncAt(data, pos)
    ensures Get16(data, pos) == SYNC
  {}

  lemma CoveredGrows(p: nat, frames: seq<FrameAt>, f: FrameAt)
    ensures Covered(p, frames + [f]) <==> Covered(p, frames) || f.Start() <= p < f.End()
  {
    var all := frames + [f];
    if Covered(p, frames) {
      var g :| g in frames && g.Start() <= p < g.End();
      assert g in all;
    }
    assert f in all;
  }

  lemma AcceptShape(s: Scan, f: FrameAt)
    ensures var t := Accept(s, f);
            && t.pos == f.End() && t.frames == s.frames + [f] && t.consumed == s.consumed + f.Size()
            && t.counts.framesOk == s.counts.framesOk + 1
  {}

  lemma AcceptSound(data: seq<byte>, s: Scan, f: FrameAt)
    requires Sound(data, s) && f.Start() == s.pos && Genuine(data, f) && f.End() <= |data|
    ensures Sound(data, Accept(s, f))
  {
    hide Accept, Genuine, Examine, Covered;
    AcceptShape(s, f);
    var t := Accept(s, f);
    assert t.frames[..|s.frames|] == s.frames;
    forall p: nat | p < t.pos && !Covered(p, t.frames)
      ensures !Examine(data, p).Valid?
    {
      CoveredGrows(p, s.frames, f);
    }
  }

  lemma AdvanceSound(data: seq<byte>, s: Scan)
    requires Sound(data, s) && Running(data, s)
    ensures Sound(data, Advance(data, s))
  {
    hide Accept, Genuine, Examine, Covered;
    if Examine(data, s.pos).Valid? {
      ValidIsGenuine(data, s.pos);
      AcceptSound(data, s, Examine(data, s.pos).frame);
    }
  }

  lemma {:induction false} DecodeSound(data: seq<byte>, s: Scan)
    requires Sound(data, s)
    ensures Sound(data, Decode(data, s)) && !Running(data, Decode(data, s))
    decreases |data| - s.pos
  {
    hide Sound, Examine, Advance;
    if Running(data, s) {
      AdvanceSound(data, s);
      DecodeSound(data, Advance(data, s));
    }
  }

  /** Every decoded frame is genuine, frames are disjoint and in order, no uncovered position before the stop
      starts a valid frame, and every byte is either consumed or skipped. */
  lemma StreamSoundAndComplete(data: seq<byte>)
    ensures var end := Decode(data, START);
            && (forall f <- end.frames :: Genuine(data, f))
            && (forall i, j | 0 <= i < j < |end.frames| :: end.frames[i].End() <= end.frames[j].Start())
            && (forall p: nat | p < end.pos && !Covered(p, end.frames) :: !Examine(data, p).Valid?)
            && TotalSize(end.frames) + Skipped(data, end) == |data|
            && 0 <= Skipped(data, end)
            && (end.pos + 2 <= |data| ==> Examine(data, end.pos).Cut?)
  {
    DecodeSound(data, START);
  }

  // A clean recording decodes to what was written

  predicate Writable(fs: seq<PyFrame>) {
    forall f <- fs :: KnownType(f.kind) && |f.payload| <= MAX_PAYLOAD
  }

  function Concat(fs: seq<PyFrame>): seq<byte> {
    if fs == [] then [] else Concat(fs[..|fs| - 1]) + Bytes(fs[|fs| - 1])
  }

  function Bytes(f: PyFrame): seq<byte> { EncodeFrame(f.kind, f.seqNo, f.payload) }

  /** Where the frames of a concatenation lie. */
  function Placed(fs: seq<PyFrame>): (r: seq<FrameAt>)
    ensures |r| == |fs|
  {
    if fs == [] then [] else
      var n := |fs| - 1;
      Placed(fs[..n]) + [FrameAt(fs[n].kind, fs[n].seqNo, |Concat(fs[..n])| + 10, |fs[n].payload|)]
  }

  /** The counters a clean concatenation produces depend on the sequence numbers alone. */
  function Counted(fs: seq<PyFrame>): (Counters, Option<u32>) {
    if fs == [] then (NO_COUNTS, None) else
      var n := |fs| - 1;
      var (c, expected) := Counted(fs[..n]);
      var s := Accept(Scan(0, true, expected, 0, [], c), FrameAt(fs[n].kind, fs[n].seqNo, 10, |fs[n].payload|));
      (s.counts, s.expected)
  }

  function Written(fs: seq<PyFrame>): Scan {
    var (c, expected) := Counted(fs);
    Scan(|Concat(fs)|, true, expected, |Concat(fs)|, Placed(fs), c)
  }

  lemma ExamineEncoded(before: seq<byte>, f: PyFrame, after: seq<byte>)
    requires KnownType(f.kind) && |f.payload| <= MAX_PAYLOAD
    ensures Examine(before + Bytes(f) + after, |before|)
         == Valid(FrameAt(f.kind, f.seqNo, |before| + 10, |f.payload|))
  {
    hide Crc.Crc32c, LE, EncodeFrame, Get16, Get32;
    var e, o := Bytes(f), |before|;
    var data := before + e + after;
    FrameFields(f.kind, f.seqNo, f.payload);
    assert data[o] == e[0] == 0x90 && data[o + 1] == e[1] == 0xEB by { SyncFirst(e); }
    EmbeddedWords(before, e, after, 2);
    EmbeddedWords(before, e, after, 3);
    EmbeddedWords(before, e, after, 4);
    EmbeddedWords(before, e, after, 6);
    EmbeddedWords(before, e, after, |e| - 4);
    Embedded(before, e, after, 2, |e| - 4);
    assert o + (|e| - 4) == o + |e| - 4;
  }

  lemma SyncFirst(e: seq<byte>)
    requires |e| >= 2 && Get16(e, 0) == SYNC
    ensures e[0] == 0x90 && e[1] == 0xEB
  {}

  lemma {:induction false} DecodeWritten(fs: seq<PyFrame>, rest: seq<byte>)
    requires Writable(fs)
    ensures Decode(Concat(fs) + rest, START) == Decode(Concat(fs) + rest, Written(fs))
    decreases |fs|
  {
    hide Crc.Crc32c, LE, EncodeFrame, Examine, Fail;
    if fs != [] {
      var n := |fs| - 1;
      var init, f := fs[..n], fs[n];
      var tail := Bytes(f) + rest;
      assert Concat(fs) + rest == Concat(init) + tail;
      DecodeWritten(init, tail);
      ExamineEncoded(Concat(init), f, rest);
      assert Concat(init) + Bytes(f) + rest == Concat(fs) + rest;
      assert Advance(Concat(fs) + rest, Written(init)) == Written(fs);
    }
  }

  /** Decoding a concatenation of encoded frames returns exactly those frames, with nothing skipped. */
  lemma DecodeConcat(fs: seq<PyFrame>)
    requires Writable(fs)
    ensures var data, end := Concat(fs), Decode(Concat(fs), START);
            && Inside(end.frames, |data|)
            && Extract(data, end.frames) == fs
            && Skipped(data, end) == 0
            && end.counts.crcErrors == end.counts.versionMismatch == end.counts.resyncs == 0
            && end.counts == Counted(fs).0
  {
    hide Decode, Concat, EncodeFrame, Counted, Placed, Payloaded;
    var data := Concat(fs);
    assert data + [] == data;
    DecodeWritten(fs, []);
    Unroll(data, Written(fs));
    NotRunningAtEnd(data, Written(fs));
    PlacedInside(fs);
    forall i | 0 <= i < |fs|
      ensures Extract(Concat(fs), Placed(fs))[i] == fs[i]
    {
      PlacedAt(fs, [], i);
    }
    CleanCounts(fs);
  }

  lemma NotRunningAtEnd(data: seq<byte>, s: Scan)
    requires s.pos == |data|
    ensures !Running(data, s)
  {}

  lemma {:induction false} CleanCounts(fs: seq<PyFrame>)
    ensures var c := Counted(fs).0; c.crcErrors == c.versionMismatch == c.resyncs == 0 && c.framesOk == |fs|
    decreases |fs|
  {
    if fs != [] {
      CleanCounts(fs[..|fs| - 1]);
    }
  }

  lemma {:induction false} PlacedInside(fs: seq<PyFrame>)
    requires Writable(fs)
    ensures Inside(Placed(fs), |Concat(fs)|)
    decreases |fs|
  {
    hide EncodeFrame;
    if fs != [] {
      PlacedInside(fs[..|fs| - 1]);
    }
  }

  lemma {:induction false} PlacedAt(fs: seq<PyFrame>, rest: seq<byte>, i: nat)
    requires Writable(fs) && i < |fs|
    ensures Placed(fs)[i].End() <= |Concat(fs)|
    ensures Payloaded(Concat(fs) + rest, Placed(fs)[i]) == fs[i]
    decreases |fs|
  {
    hide Bytes;
    PlacedInside(fs);
    assert Placed(fs)[i] in Placed(fs);
    var n := |fs| - 1;
    var init, f := fs[..n], fs[n];
    assert Concat(fs) + rest == Concat(init) + (Bytes(f) + rest);
    if i < n {
      PlacedAt(init, Bytes(f) + rest, i);
    } else {
      BytesPayload(f);
      Embedded(Concat(init), Bytes(f), rest, 10, 10 + |f.payload|);
    }
  }

  lemma BytesPayload(f: PyFrame)
    requires |f.payload| <= MAX_PAYLOAD
    ensures |Bytes(f)| == OVERHEAD + |f.payload| && Bytes(f)[10..10 + |f.payload|] == f.payload
  {
    hide EncodeFrame;
    FrameFields(f.kind, f.seqNo, f.payload);
  }

  /** Frames numbered consecutively, with wrap at 2^32, are counted without loss. */
  ghost predicate Consecutive(fs: seq<PyFrame>, first: u32) {
    forall i | 0 <= i < |fs| :: fs[i].seqNo == (first + i) % TWO32
  }

  lemma Wrap(a: nat)
    ensures (a % TWO32 + 1) % TWO32 == (a + 1) % TWO32
  {}

  lemma AcceptExpected(c: Counters, expected: Option<u32>, f: FrameAt)
    requires expected.Some? ==> expected.value == f.seqNo
    ensures Accept(Scan(0, true, expected, 0, [], c), f).counts == c.(framesOk := c.framesOk + 1)
    ensures Accept(Scan(0, true, expected, 0, [], c), f).expected == Some((f.seqNo + 1) % TWO32)
  {}

  lemma {:induction false} ConsecutiveLosesNothing(fs: seq<PyFrame>, first: u32)
    requires Consecutive(fs, first)
    ensures Counted(fs).0 == Counters(|fs|, 0, 0, 0, 0, 0)
    ensures Counted(fs).1 == if fs == [] then None else Some((first + |fs|) % TWO32)
    decreases |fs|
  {
    hide Accept;
    if fs != [] {
      var n := |fs| - 1;
      ConsecutiveLosesNothing(fs[..n], first);
      var (c, expected) := Counted(fs[..n]);
      Wrap(first + n);
      AcceptExpected(c, expected, FrameAt(fs[n].kind, fs[n].seqNo, 10, |fs[n].payload|));
    }
  }
}
