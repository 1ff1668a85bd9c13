/** What the counters of a decoded stream mean, read off the positions of the stream and the numbers of its frames. */
module StreamCounts {
  import opened Basics
  import opened Stream

  // Sequence numbers

  /** How many sequence numbers lie strictly between two, going forward. */
  function Between(a: u32, b: u32): u32 { (b - a - 1) % TWO32 }

  /** Numbers skipped between neighbours; more than half the circle is no skip but a step back. */
  function LostIn(seqs: seq<u32>): nat
    decreases |seqs|
  {
    var n := |seqs|;
    if n < 2 then 0
    else LostIn(seqs[..n - 1]) + var g := Between(seqs[n - 2], seqs[n - 1]); if g < 0x8000_0000 then g else 0
  }

  function StepsBack(seqs: seq<u32>): nat
    decreases |seqs|
  {
    var n := |seqs|;
    if n < 2 then 0
    else StepsBack(seqs[..n - 1]) + if Between(seqs[n - 2], seqs[n - 1]) >= 0x8000_0000 then 1 else 0
  }

  function SeqsOf(frames: seq<FrameAt>): (s: seq<u32>)
    ensures |s| == |frames| && forall i | 0 <= i < |frames| :: s[i] == frames[i].seqNo
  {
    seq(|frames|, i requires 0 <= i < |frames| => frames[i].seqNo)
  }

  // Positions

  predicate Failing(v: Verdict) { v.WrongVersion? || v.BadHead? || v.BadSum? }

  /** Positions below `n` outside every frame whose verdict is `v`. */
  function Positions(data: seq<byte>, frames: seq<FrameAt>, n: nat, v: Verdict): nat {
    if n == 0 then 0
    else
      Positions(data, frames, n - 1, v)
        + if !Covered(n - 1, frames) && Examine(data, n - 1) == v then 1 else 0
  }

  /** Nothing has failed since the start or the last frame. */
  predicate InStep(data: seq<byte>, frames: seq<FrameAt>, n: nat) {
    n == 0 || Covered(n - 1, frames) || (InStep(data, frames, n - 1) && !Failing(Examine(data, n - 1)))
  }

  /** Positions below `n` at which the decoder falls out of step. */
  function Falls(data: seq<byte>, frames: seq<FrameAt>, n: nat): nat {
    if n == 0 then 0
    else
      Falls(data, frames, n - 1)
        + if !Covered(n - 1, frames) && Failing(Examine(data, n - 1)) && InStep(data, frames, n - 1) then 1 else 0
  }

  /** The counters of a scan, by what they mean. */
  ghost predicate Accounted(data: seq<byte>, s: Scan) {
    var seqs := SeqsOf(s.frames);
    && s.counts.framesOk == |s.frames| && s.counts.lost == LostIn(seqs) && s.counts.discontinuities == StepsBack(seqs)
    && s.expected == (if seqs == [] then None else Some((seqs[|seqs| - 1] + 1) % TWO32))
    && s.counts.versionMismatch == Positions(data, s.frames, s.pos, WrongVersion)
    && s.counts.crcErrors == Positions(data, s.frames, s.pos, BadSum)
    && s.counts.resyncs == Falls(data, s.frames, s.pos) && s.locked == InStep(data, s.frames, s.pos)
    && (forall f <- s.frames :: f.End() <= s.pos)
  }

  lemma StartAccounted(data: seq<byte>)
    ensures Accounted(data, START)
  {}

  lemma SeqsNext(frames: seq<FrameAt>, f: FrameAt)
    ensures SeqsOf(frames + [f]) == SeqsOf(frames) + [f.seqNo]
  {}

  lemma LostNext(seqs: seq<u32>, b: u32)
    ensures var g := if seqs == [] then 0 else Between(seqs[|seqs| - 1], b);
            && LostIn(seqs + [b]) == LostIn(seqs) + (if g < 0x8000_0000 then g else 0)
            && StepsBack(seqs + [b]) == StepsBack(seqs) + (if g >= 0x8000_0000 then 1 else 0)
  {
    assert (seqs + [b])[..|seqs|] == seqs;
  }

  lemma SameGap(last: u32, b: u32)
    ensures (b - (last + 1) % TWO32) % TWO32 == Between(last, b)
  {}

  /** Counting up to a position only looks below it. */
  lemma {:induction false} LaterFrame(data: seq<byte>, frames: seq<FrameAt>, f: FrameAt, n: nat)
    requires n <= f.Start()
    ensures Positions(data, frames + [f], n, WrongVersion) == Positions(data, frames, n, WrongVersion)
    ensures Positions(data, frames + [f], n, BadSum) == Positions(data, frames, n, BadSum)
    ensures Falls(data, frames + [f], n) == Falls(data, frames, n)
    ensures InStep(data, frames + [f], n) == InStep(data, frames, n)
    decreases n
  {
    hide Examine, Covered, Failing;
    if n > 0 {
      LaterFrame(data, frames, f, n - 1);
      CoveredGrows(n - 1, frames, f);
    }
  }

  /** Nothing is counted inside a frame, and the decoder leaves it in step. */
  lemma {:induction false} InsideFrame(data: seq<byte>, frames: seq<FrameAt>, f: FrameAt, n: nat)
    requires 0 <= f.Start() < n <= f.End()
    ensures Positions(data, frames + [f], n, WrongVersion) == Positions(data, frames + [f], f.Start(), WrongVersion)
    ensures Positions(data, frames + [f], n, BadSum) == Positions(data, frames + [f], f.Start(), BadSum)
    ensures Falls(data, frames + [f], n) == Falls(data, frames + [f], f.Start())
    ensures InStep(data, frames + [f], n)
    decreases n
  {
    hide Examine, Covered, Failing;
    CoveredGrows(n - 1, frames, f);
    if n - 1 > f.Start() {
      InsideFrame(data, frames, f, n - 1);
    }
  }

  lemma AcceptNumbers(s: Scan, f: FrameAt)
    requires s.counts.lost == LostIn(SeqsOf(s.frames)) && s.counts.discontinuities == StepsBack(SeqsOf(s.frames))
    requires s.expected == if s.frames == [] then None else Some((s.frames[|s.frames| - 1].seqNo + 1) % TWO32)
    ensures var c, seqs := Accept(s, f).counts, SeqsOf(s.frames + [f]);
            c.lost == LostIn(seqs) && c.discontinuities == StepsBack(seqs)
  {
    hide LostIn, StepsBack, Between;
    SeqsNext(s.frames, f);
    LostNext(SeqsOf(s.frames), f.seqNo);
    if s.frames != [] {
      SameGap(s.frames[|s.frames| - 1].seqNo, f.seqNo);
    }
  }

  lemma AcceptFields(s: Scan, f: FrameAt)
    ensures var t := Accept(s, f);
            && t.pos == f.End() && t.locked && t.expected == Some((f.seqNo + 1) % TWO32) && t.frames == s.frames + [f]
            && t.counts.framesOk == s.counts.framesOk + 1 && t.counts.crcErrors == s.counts.crcErrors
            && t.counts.versionMismatch == s.counts.versionMismatch && t.counts.resyncs == s.counts.resyncs
  {}

  lemma AcceptAccounted(data: seq<byte>, s: Scan, f: FrameAt)
    requires Accounted(data, s) && f.Start() == s.pos
    ensures Accounted(data, Accept(s, f))
  {
    hide Accept, LostIn, StepsBack, Positions, Falls, InStep, Examine;
    AcceptFields(s, f);
    AcceptNumbers(s, f);
    SeqsNext(s.frames, f);
    LaterFrame(data, s.frames, f, s.pos);
    InsideFrame(data, s.frames, f, f.End());
  }

  lemma Uncovered(frames: seq<FrameAt>, p: nat)
    requires forall f <- frames :: f.End() <= p
    ensures !Covered(p, frames)
  {}

  /** One position passed over, whatever it failed for. */
  lemma PassedAccounted(data: seq<byte>, s: Scan)
    requires Accounted(data, s) && Running(data, s) && !Examine(data, s.pos).Valid?
    ensures Accounted(data, Advance(data, s))
  {
    hide LostIn, StepsBack, Examine, Covered, SeqsOf;
    Uncovered(s.frames, s.pos);
  }

  lemma {:induction false} DecodeAccounted(data: seq<byte>, s: Scan)
    requires Accounted(data, s)
    ensures Accounted(data, Decode(data, s))
    decreases |data| - s.pos
  {
    hide Accounted, Examine, Accept, Fail;
    if Running(data, s) {
      if Examine(data, s.pos).Valid? {
        AcceptAccounted(data, s, Examine(data, s.pos).frame);
      } else {
        PassedAccounted(data, s);
      }
      DecodeAccounted(data, Advance(data, s));
    }
  }

  /** On every byte string: frames counted are frames found; numbers lost are those skipped between neighbours, and
      discontinuities the steps back; a version mismatch or a checksum error is a position outside every frame that
      has it; a resynchronisation is a position at which the decoder falls out of step. */
  lemma CountersMean(data: seq<byte>)
    ensures var end := Decode(data, START);
            var c, seqs := end.counts, SeqsOf(end.frames);
            && c.framesOk == |end.frames| && c.lost == LostIn(seqs) && c.discontinuities == StepsBack(seqs)
            && c.versionMismatch == Positions(data, end.frames, end.pos, WrongVersion)
            && c.crcErrors == Positions(data, end.frames, end.pos, BadSum)
            && c.resyncs == Falls(data, end.frames, end.pos)
  {
    StartAccounted(data);
    DecodeAccounted(data, START);
  }

  // A numbered run with frames removed

  /** The frames of a consecutively numbered run that were kept, at these places of the run; fewer than half a circle
      is missing between neighbours. */
  ghost predicate KeptOf(fs: seq<PyFrame>, first: u32, places: seq<nat>) {
    && |places| == |fs| && (forall i | 0 <= i < |fs| :: fs[i].seqNo as int == (first + places[i]) % TWO32)
    && (forall i | 0 < i < |fs| :: places[i - 1] < places[i] <= places[i - 1] + 0x8000_0000)
  }

  function NumbersOf(fs: seq<PyFrame>): (s: seq<u32>)
    ensures |s| == |fs| && forall i | 0 <= i < |fs| :: s[i] == fs[i].seqNo
  {
    seq(|fs|, i requires 0 <= i < |fs| => fs[i].seqNo)
  }

  lemma PlacesApart(first: nat, a: nat, b: nat)
    requires a < b <= a + 0x8000_0000
    ensures Between((first + a) % TWO32, (first + b) % TWO32) == b - a - 1
  {
    var q := (first + a) / TWO32;
    var x := first + a - q * TWO32;
    assert (first + a) % TWO32 == x;
    assert (first + b) % TWO32 == if x + (b - a) < TWO32 then x + (b - a) else x + (b - a) - TWO32 by {
      ModAdd(x, b - a, q);
    }
  }

  lemma ModAdd(x: nat, d: nat, q: nat)
    requires x < TWO32 && d <= 0x8000_0000
    ensures (q * TWO32 + x + d) % TWO32 == if x + d < TWO32 then x + d else x + d - TWO32
  {}

  lemma {:induction false} RemovedAreLost(fs: seq<PyFrame>, first: u32, places: seq<nat>)
    requires KeptOf(fs, first, places)
    ensures LostIn(NumbersOf(fs)) == (if fs == [] then 0 else places[|fs| - 1] - places[0] - (|fs| - 1))
    ensures StepsBack(NumbersOf(fs)) == 0
    decreases |fs|
  {
    hide Between;
    if |fs| >= 2 {
      var n := |fs| - 1;
      RemovedAreLost(fs[..n], first, places[..n]);
      assert NumbersOf(fs)[..n] == NumbersOf(fs[..n]);
      PlacesApart(first, places[n - 1], places[n]);
    }
  }

  lemma SameNumbers(data: seq<byte>, frames: seq<FrameAt>, fs: seq<PyFrame>)
    requires Inside(frames, |data|) && Extract(data, frames) == fs
    ensures SeqsOf(frames) == NumbersOf(fs)
  {}

  /** The counters of what a concatenation decodes to depend on its sequence numbers alone. */
  lemma CountsOf(fs: seq<PyFrame>)
    requires Writable(fs)
    ensures var c := Decode(Concat(fs), START).counts;
            c.framesOk == |fs| && c.lost == LostIn(NumbersOf(fs)) && c.discontinuities == StepsBack(NumbersOf(fs))
  {
    hide Decode, Concat, Extract, LostIn, StepsBack;
    DecodeConcat(fs);
    CountersMean(Concat(fs));
    SameNumbers(Concat(fs), Decode(Concat(fs), START).frames, fs);
  }

  /** Decoding what was kept of a numbered run, across the wrap: the frames removed between the first and the last kept
      one are the lost ones, and nothing is a discontinuity. */
  lemma LostAreRemoved(fs: seq<PyFrame>, first: u32, places: seq<nat>)
    requires Writable(fs) && KeptOf(fs, first, places)
    ensures var c := Decode(Concat(fs), START).counts;
            && c.framesOk == |fs| && c.discontinuities == 0
            && c.lost == (if fs == [] then 0 else places[|fs| - 1] - places[0] + 1 - |fs|)
  {
    hide Decode, Concat, LostIn, StepsBack;
    CountsOf(fs);
    RemovedAreLost(fs, first, places);
  }

  /** A frame numbered up to half a circle behind the expected number is one discontinuity, and nothing lost. */
  lemma StepBackCounts(fs: seq<PyFrame>, f: PyFrame, back: nat)
    requires fs != [] && Writable(fs + [f]) && 1 <= back <= 0x8000_0000
    requires f.seqNo as int == (fs[|fs| - 1].seqNo + 1 - back) % TWO32
    ensures var c, d := Decode(Concat(fs), START).counts, Decode(Concat(fs + [f]), START).counts;
            d.discontinuities == c.discontinuities + 1 && d.lost == c.lost && d.framesOk == c.framesOk + 1
  {
    hide Decode, Concat, LostIn, StepsBack, Between;
    WritablePart(fs, f);
    CountsOf(fs);
    CountsOf(fs + [f]);
    BackNumbers(fs, f, back);
  }

  lemma BackNumbers(fs: seq<PyFrame>, f: PyFrame, back: nat)
    requires fs != [] && 1 <= back <= 0x8000_0000
    requires f.seqNo as int == (fs[|fs| - 1].seqNo + 1 - back) % TWO32
    ensures LostIn(NumbersOf(fs + [f])) == LostIn(NumbersOf(fs))
    ensures StepsBack(NumbersOf(fs + [f])) == StepsBack(NumbersOf(fs)) + 1
  {
    hide LostIn, StepsBack, Between;
    assert NumbersOf(fs + [f]) == NumbersOf(fs) + [f.seqNo];
    LostNext(NumbersOf(fs), f.seqNo);
    BackGap(fs[|fs| - 1].seqNo, f.seqNo, back);
  }

  lemma WritablePart(fs: seq<PyFrame>, f: PyFrame)
    requires Writable(fs + [f])
    ensures Writable(fs)
  {
    assert forall g <- fs :: g in fs + [f];
  }

  lemma BackGap(last: u32, b: u32, back: nat)
    requires 1 <= back <= 0x8000_0000 && b as int == (last + 1 - back) % TWO32
    ensures Between(last, b) >= 0x8000_0000
  {
    assert Between(last, b) == TWO32 - back;
  }
}
