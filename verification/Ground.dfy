/** Ground evidence: a constant-memory receiver and a one-pass merge of its recording with the vehicle's. */
module Ground {
  import opened Basics
  import opened Payload
  import Frames

  datatype Frame = Frame(seqNo: u32, tick: u64, raw: seq<byte>)

  /** A datagram read as a control frame; nothing if the frame, the counts or a value is unusable. */
  function ControlFrame(data: seq<byte>): Option<Frame> {
    var d := Frames.DecodeDatagram(data, {Frames.CONTROL});
    if d.Bad? then None
    else
      Frames.EncodeInvertsDecode(data, {Frames.CONTROL});
      var c := DecodeControl(d.payload);
      if c.None? || !(IsFinite(c.value.theta) && IsFinite(c.value.omega) && IsFinite(c.value.cmd)
                      && IsFinite(c.value.iState) && IsFinite(c.value.dPrev)) then None
      else Some(Frame(d.seqNo, c.value.tick, data))
  }

  /** Frames as they are read from datagrams or from a recording. */
  predicate Genuine(fs: seq<Frame>) { forall f <- fs :: ControlFrame(f.raw) == Some(f) }

  predicate Increasing(fs: seq<Frame>) { forall i, j | 0 <= i < j < |fs| :: fs[i].tick < fs[j].tick }

  predicate Contiguous(fs: seq<Frame>, first: nat) { forall i | 0 <= i < |fs| :: fs[i].seqNo == (first + i) % TWO32 }

  /** `a` is what is left of `b` after deleting some of its elements. */
  predicate Subsequence(a: seq<Frame>, b: seq<Frame>)
    decreases |b|
  {
    if a == [] then true
    else if b == [] then false
    else (a[0] == b[0] && Subsequence(a[1..], b[1..])) || Subsequence(a, b[1..])
  }

  // The receiver

  datatype Counts = Counts(received: nat, foreign: nat, malformed: nat, duplicate: nat, outOfOrder: nat, conflict: nat,
                           recorded: nat, writeFailed: nat)
  {
    function Dispositions(): nat { foreign + malformed + duplicate + outOfOrder + conflict + recorded + writeFailed }
  }

  datatype State = State(source: Option<nat>, last: Option<Frame>, counts: Counts, recording: seq<Frame>)

  const NOTHING := State(None, None, Counts(0, 0, 0, 0, 0, 0, 0, 0), [])

  /** One datagram from a source; the flag says that the write failed, which ends the collection. */
  function Accepted(s: State, data: seq<byte>, source: nat, writable: bool): (State, bool) {
    var c := s.counts.(received := s.counts.received + 1);
    if s.source.Some? && s.source.value != source then (s.(counts := c.(foreign := c.foreign + 1)), false)
    else
      var frame := ControlFrame(data);
      if frame.None? then (s.(counts := c.(malformed := c.malformed + 1)), false)
      else
        var f, t := frame.value, s.(source := Some(source));
        if s.last.Some? && f.tick < s.last.value.tick then (t.(counts := c.(outOfOrder := c.outOfOrder + 1)), false)
        else if s.last.Some? && f.tick == s.last.value.tick then
          (if f.raw == s.last.value.raw then t.(counts := c.(duplicate := c.duplicate + 1))
           else t.(counts := c.(conflict := c.conflict + 1)), false)
        else if !writable then (t.(counts := c.(writeFailed := c.writeFailed + 1)), true)
        else (t.(counts := c.(recorded := c.recorded + 1), last := Some(f), recording := s.recording + [f]), false)
  }

  class Receiver {
    var source: Option<nat>
    var last: Option<Frame>
    var counts: Counts
    var recording: seq<Frame>

    function Value(): State
      reads this
    {
      State(source, last, counts, recording)
    }

    constructor ()
      ensures Value() == NOTHING
    {
      source, last, counts, recording := None, None, Counts(0, 0, 0, 0, 0, 0, 0, 0), [];
    }

    method Accept(data: seq<byte>, from: nat, writable: bool) returns (failed: bool)
      modifies this
      ensures (Value(), failed) == Accepted(old(Value()), data, from, writable)
    {
      hide ControlFrame;
      counts := counts.(received := counts.received + 1);
      if source.Some? && from != source.value {
        counts := counts.(foreign := counts.foreign + 1);
        return false;
      }
      var frame := ControlFrame(data);
      if frame.None? {
        counts := counts.(malformed := counts.malformed + 1);
        return false;
      }
      if source.None? { source := Some(from); }
      var f := frame.value;
      if last.Some? {
        if f.tick < last.value.tick {
          counts := counts.(outOfOrder := counts.outOfOrder + 1);
          return false;
        }
        if f.tick == last.value.tick {
          if f.raw == last.value.raw {
            counts := counts.(duplicate := counts.duplicate + 1);
          } else {
            counts := counts.(conflict := counts.conflict + 1);
          }
          return false;
        }
      }
      if !writable {
        counts := counts.(writeFailed := counts.writeFailed + 1);
        return true;
      }
      recording := recording + [f];
      counts := counts.(recorded := counts.recorded + 1);
      last := Some(f);
      return false;
    }
  }

  datatype Delivery = Delivery(data: seq<byte>, source: nat, writable: bool)

  /** The receiver after some deliveries. */
  function After(deliveries: seq<Delivery>): State
    decreases |deliveries|
  {
    if deliveries == [] then NOTHING
    else
      var d := deliveries[|deliveries| - 1];
      Accepted(After(deliveries[..|deliveries| - 1]), d.data, d.source, d.writable).0
  }

  predicate Kept(s: State) {
    && s.counts.received == s.counts.Dispositions() && s.counts.recorded == |s.recording|
    && Increasing(s.recording) && Genuine(s.recording)
    && s.last == (if s.recording == [] then None else Some(s.recording[|s.recording| - 1]))
    && (s.recording != [] ==> s.source.Some?)
  }

  lemma FrameIsGenuine(data: seq<byte>)
    ensures ControlFrame(data).Some? ==> ControlFrame(data).value.raw == data
  {}

  /** A datagram that is only counted. */
  lemma CountedKeeps(s: State, n: State)
    requires Kept(s) && n.recording == s.recording && n.last == s.last && (s.source.Some? ==> n.source.Some?)
    requires n.counts.recorded == s.counts.recorded && n.counts.received == n.counts.Dispositions()
    ensures Kept(n)
  {
    hide Increasing, Genuine;
  }

  /** A frame above the last one. */
  lemma RecordedKeeps(s: State, n: State, f: Frame)
    requires Kept(s) && (s.last.Some? ==> s.last.value.tick < f.tick) && ControlFrame(f.raw) == Some(f)
    requires n.recording == s.recording + [f] && n.last == Some(f) && n.source.Some?
    requires n.counts.recorded == s.counts.recorded + 1 && n.counts.received == n.counts.Dispositions()
    ensures Kept(n)
  {
    hide ControlFrame;
  }

  lemma AcceptedKeeps(s: State, d: Delivery)
    requires Kept(s)
    ensures Kept(Accepted(s, d.data, d.source, d.writable).0)
  {
    hide ControlFrame, Increasing, Genuine, Kept;
    var n := Accepted(s, d.data, d.source, d.writable).0;
    FrameIsGenuine(d.data);
    KeptCounts(s);
    if n.recording == s.recording {
      CountedKeeps(s, n);
    } else {
      RecordedKeeps(s, n, ControlFrame(d.data).value);
    }
  }

  lemma KeptCounts(s: State)
    requires Kept(s)
    ensures s.counts.received == s.counts.Dispositions()
  {}

  /** Whatever arrives, from wherever: every datagram has exactly one disposition, and the recording is genuine and
      strictly increasing in ticks. */
  lemma {:induction false} ReceiverKept(deliveries: seq<Delivery>)
    ensures Kept(After(deliveries))
    decreases |deliveries|
  {
    hide Kept, Accepted;
    if deliveries == [] {
      NothingKept(After(deliveries));
    } else {
      ReceiverKept(deliveries[..|deliveries| - 1]);
      AcceptedKeeps(After(deliveries[..|deliveries| - 1]), deliveries[|deliveries| - 1]);
    }
  }

  lemma NothingKept(s: State)
    requires s == NOTHING
    ensures Kept(s)
  {}

  // Subsequences

  lemma {:induction false} SubsequenceTail(a: seq<Frame>, b: seq<Frame>)
    requires a != [] && Subsequence(a, b)
    ensures Subsequence(a[1..], b) && a[0] in b && |a| <= |b|
    decreases |b|
  {
    if a[0] == b[0] && Subsequence(a[1..], b[1..]) {
      if a[1..] != [] {
        SubsequenceTail(a[1..], b[1..]);
      }
    } else {
      SubsequenceTail(a, b[1..]);
    }
  }

  /** A common head may always be matched. */
  lemma SubsequenceGreedy(a: seq<Frame>, b: seq<Frame>)
    requires a != [] && b != [] && a[0] == b[0]
    ensures Subsequence(a, b) <==> Subsequence(a[1..], b[1..])
  {
    if Subsequence(a, b[1..]) {
      SubsequenceTail(a, b[1..]);
    }
  }

  /** Increasing frames that all occur in an increasing run are a subsequence of it. */
  lemma {:induction false} MembersAreSubsequence(a: seq<Frame>, b: seq<Frame>)
    requires Increasing(a) && Increasing(b) && forall f <- a :: f in b
    ensures Subsequence(a, b)
    decreases |b|
  {
    if a != [] {
      assert a[0] in b;
      if a[0] == b[0] {
        forall f <- a[1..]
          ensures f in b[1..]
        {
          var j :| 1 <= j < |a| && f == a[j];
          assert a[j] in a;
          var k :| 0 <= k < |b| && f == b[k];
          assert b[1..][k - 1] == f;
        }
        MembersAreSubsequence(a[1..], b[1..]);
      } else {
        forall f <- a
          ensures f in b[1..]
        {
          var j :| 0 <= j < |a| && f == a[j];
          var k :| 0 <= k < |b| && a[0] == b[k];
        }
        MembersAreSubsequence(a, b[1..]);
      }
    }
  }

  // The merge

  datatype Populations = Populations(vehicle: nat, ground: nat, leading: nat, interior: nat, trailing: nat) {
    function Lost(): nat { leading + interior + trailing }
  }

  /** Both streams are what the merge demands. */
  predicate Mergeable(vehicle: seq<Frame>, ground: seq<Frame>, start: nat) {
    Contiguous(vehicle, start) && Increasing(vehicle) && Subsequence(ground, vehicle)
  }

  /** Strictly increasing positions of the ground frames in the vehicle stream. */
  predicate Matching(vehicle: seq<Frame>, ground: seq<Frame>, matches: seq<nat>) {
    && |matches| <= |ground|
    && (forall i | 0 <= i < |matches| :: matches[i] < |vehicle| && ground[i] == vehicle[matches[i]])
    && (forall i, j | 0 <= i < j < |matches| :: matches[i] < matches[j])
  }

  /** The state of the merge after `n` vehicle frames, with the ground frames matched so far. */
  predicate Merged(vehicle: seq<Frame>, ground: seq<Frame>, start: nat, n: nat, matches: seq<nat>, leading: nat,
                   interior: nat)
  {
    var k := |matches|;
    && n <= |vehicle| && Matching(vehicle[..n], ground, matches)
    && Contiguous(vehicle[..n], start) && Increasing(vehicle[..n])
    && (Increasing(vehicle) ==> (Subsequence(ground, vehicle) <==> Subsequence(ground[k..], vehicle[n..])))
    && (if k == 0 then leading == interior == 0
        else leading == matches[0] && leading + interior + k == matches[k - 1] + 1)
  }

  lemma MergeStarts(vehicle: seq<Frame>, ground: seq<Frame>, start: nat)
    ensures Merged(vehicle, ground, start, 0, [], 0, 0)
  {
    hide Subsequence;
    assert ground[0..] == ground && vehicle[0..] == vehicle;
  }

  lemma OneMore(vehicle: seq<Frame>, ground: seq<Frame>, start: nat, n: nat, matches: seq<nat>, leading: nat,
                interior: nat)
    requires Merged(vehicle, ground, start, n, matches, leading, interior)
    requires n < |vehicle| && vehicle[n].seqNo == (start + n) % TWO32
    requires n > 0 ==> vehicle[n - 1].tick < vehicle[n].tick
    ensures Contiguous(vehicle[..n + 1], start) && Increasing(vehicle[..n + 1])
  {
    hide Subsequence, Matching;
    assert vehicle[..n + 1] == vehicle[..n] + [vehicle[n]];
    assert n > 0 ==> vehicle[..n][n - 1] == vehicle[n - 1];
  }

  lemma RestSplits(s: seq<Frame>, n: nat)
    requires n < |s|
    ensures s[n..] != [] && s[n..][0] == s[n] && s[n..][1..] == s[n + 1..]
  {}

  lemma MatchingGrows(vehicle: seq<Frame>, ground: seq<Frame>, n: nat, matches: seq<nat>)
    requires n < |vehicle| && Matching(vehicle[..n], ground, matches)
    ensures Matching(vehicle[..n + 1], ground, matches)
    ensures |matches| < |ground| && ground[|matches|] == vehicle[n]
            ==> Matching(vehicle[..n + 1], ground, matches + [n])
  {}

  /** A vehicle frame with no ground frame. */
  lemma MergeSkips(vehicle: seq<Frame>, ground: seq<Frame>, start: nat, n: nat, matches: seq<nat>, leading: nat,
                   interior: nat)
    requires Merged(vehicle, ground, start, n, matches, leading, interior) && n < |vehicle|
    requires Contiguous(vehicle[..n + 1], start) && Increasing(vehicle[..n + 1])
    requires |matches| < |ground| ==> ground[|matches|] != vehicle[n]
    ensures Merged(vehicle, ground, start, n + 1, matches, leading, interior)
  {
    hide Contiguous, Increasing, Matching;
    MatchingGrows(vehicle, ground, n, matches);
    RestSplits(vehicle, n);
    if |matches| < |ground| {
      RestSplits(ground, |matches|);
    }
  }

  /** A vehicle frame that is the next ground frame. */
  lemma MergeMatches(vehicle: seq<Frame>, ground: seq<Frame>, start: nat, n: nat, matches: seq<nat>, leading: nat,
                     interior: nat)
    requires Merged(vehicle, ground, start, n, matches, leading, interior) && n < |vehicle|
    requires Contiguous(vehicle[..n + 1], start) && Increasing(vehicle[..n + 1])
    requires |matches| < |ground| && ground[|matches|] == vehicle[n]
    ensures var k := |matches|;
            && k < |ground| && (k > 0 ==> matches[k - 1] < n)
            && Merged(vehicle, ground, start, n + 1, matches + [n], if k == 0 then n else leading,
                      if k == 0 then interior else interior + (n - matches[k - 1] - 1))
  {
    hide Contiguous, Increasing, Subsequence;
    MatchingGrows(vehicle, ground, n, matches);
    RestSplits(vehicle, n);
    RestSplits(ground, |matches|);
    SubsequenceGreedy(ground[|matches|..], vehicle[n..]);
  }

  /** A frame at or below the tick of position `n`, other than the one there, is nowhere from there on. */
  lemma Absent(vehicle: seq<Frame>, n: nat, rest: seq<Frame>)
    requires n < |vehicle| && rest != [] && rest[0].tick <= vehicle[n].tick && rest[0] != vehicle[n]
    ensures Increasing(vehicle) ==> !Subsequence(rest, vehicle[n..])
  {
    if Increasing(vehicle) {
      forall k | 0 <= k < |vehicle[n..]|
        ensures vehicle[n..][k] != rest[0]
      {
        assert vehicle[n..][k] == vehicle[n + k];
      }
      if Subsequence(rest, vehicle[n..]) { SubsequenceTail(rest, vehicle[n..]); }
    }
  }

  lemma MergeFails(vehicle: seq<Frame>, ground: seq<Frame>, start: nat, n: nat, matches: seq<nat>, leading: nat,
                   interior: nat)
    requires Merged(vehicle, ground, start, n, matches, leading, interior) && n < |vehicle| && |matches| < |ground|
    requires ground[|matches|].tick <= vehicle[n].tick && ground[|matches|] != vehicle[n]
    ensures !Mergeable(vehicle, ground, start)
  {
    hide Contiguous, Increasing, Matching, Subsequence;
    RestSplits(ground, |matches|);
    Absent(vehicle, n, ground[|matches|..]);
  }

  lemma MergeEnds(vehicle: seq<Frame>, ground: seq<Frame>, start: nat, matches: seq<nat>, leading: nat, interior: nat)
    requires Merged(vehicle, ground, start, |vehicle|, matches, leading, interior)
    ensures Mergeable(vehicle, ground, start) <==> |matches| == |ground|
    ensures Matching(vehicle, ground, matches) && |matches| <= |ground|
    ensures if matches == [] then leading == interior == 0
            else leading == matches[0] && leading + interior + |matches| == matches[|matches| - 1] + 1 <= |vehicle|
  {
    hide Contiguous, Increasing;
    assert vehicle[..|vehicle|] == vehicle && vehicle[|vehicle|..] == [];
    if |matches| == |ground| {
      assert ground[|matches|..] == [];
    } else {
      RestSplits(ground, |matches|);
    }
  }

  lemma SameRaw(frames: seq<Frame>, others: seq<Frame>, i: nat, j: nat)
    requires Genuine(frames) && Genuine(others) && i < |frames| && j < |others| && frames[i].raw == others[j].raw
    ensures frames[i] == others[j]
  {
    assert frames[i] in frames && others[j] in others;
  }

  /** The loop's variables after `n` vehicle frames: how many ground frames are matched, and where the last one was. */
  predicate Tracked(vehicle: seq<Frame>, ground: seq<Frame>, start: nat, n: nat, matches: seq<nat>, groundCount: nat,
                    lastMatch: Option<nat>, leading: nat, interior: nat)
  {
    && Merged(vehicle, ground, start, n, matches, leading, interior) && groundCount == |matches| <= |ground|
    && lastMatch == if matches == [] then None else Some(matches[|matches| - 1])
  }

  /** The next vehicle frame against the next ground frame. */
  method MergeFrame(vehicle: seq<Frame>, ground: seq<Frame>, start: nat, n: nat, matched: nat, last: Option<nat>,
                    before: nat, between: nat, ghost ms: seq<nat>)
    returns (ok: bool, groundCount: nat, lastMatch: Option<nat>, leading: nat, interior: nat, ghost matches: seq<nat>)
    requires Genuine(vehicle) && Genuine(ground) && n < |vehicle|
    requires Tracked(vehicle, ground, start, n, ms, matched, last, before, between)
    requires vehicle[n].seqNo == (start + n) % TWO32 && (n > 0 ==> vehicle[n - 1].tick < vehicle[n].tick)
    ensures ok ==> Tracked(vehicle, ground, start, n + 1, matches, groundCount, lastMatch, leading, interior)
    ensures !ok ==> !Mergeable(vehicle, ground, start)
  {
    hide Genuine, Mergeable, Merged, Matching, Contiguous, Increasing, Subsequence, ControlFrame;
    ok, groundCount, lastMatch, leading, interior, matches := true, matched, last, before, between, ms;
    OneMore(vehicle, ground, start, n, ms, before, between);
    if groundCount < |ground| && ground[groundCount].tick <= vehicle[n].tick {
      var f, g := vehicle[n], ground[groundCount];
      if g.tick < f.tick || g.raw != f.raw {
        MergeFails(vehicle, ground, start, n, ms, before, between);
        ok := false;
        return;
      }
      // a ground tick at a vehicle tick is above the one matched before: vehicle ticks increase
      GroundAdvances(vehicle, ground, start, n, ms, before, between);
      SameRaw(vehicle, ground, n, groundCount);
      MergeMatches(vehicle, ground, start, n, ms, before, between);
      if lastMatch.None? {
        leading := n;
      } else {
        interior := interior + (n - lastMatch.value - 1);
      }
      lastMatch, matches, groundCount := Some(n), matches + [n], groundCount + 1;
    } else {
      MergeSkips(vehicle, ground, start, n, ms, before, between);
    }
  }

  /** The merge succeeds exactly when the vehicle stream is contiguous and increasing and the ground stream is a
      subsequence of it; and then what is not matched is what was lost. */
  method MatchStreams(vehicle: seq<Frame>, ground: seq<Frame>, start: nat)
    returns (result: Option<Populations>, ghost matches: seq<nat>)
    requires Genuine(vehicle) && Genuine(ground)
    ensures result.Some? <==> Mergeable(vehicle, ground, start)
    ensures result.Some? ==>
              var p := result.value;
              && p.vehicle == |vehicle| && p.ground == |ground| && p.Lost() == |vehicle| - |ground|
              && Matching(vehicle, ground, matches) && |matches| == |ground|
              && p.leading == (if ground == [] then 0 else matches[0])
              && p.trailing == (if ground == [] then |vehicle| else |vehicle| - 1 - matches[|matches| - 1])
  {
    hide Genuine, Mergeable, Merged, Matching, Contiguous, Increasing, Subsequence, ControlFrame;
    var vehicleCount: nat, groundCount: nat, leading: nat, interior: nat := 0, 0, 0, 0;
    var previousVehicle: Option<u64>, lastMatch: Option<nat> := None, None;
    matches := [];
    MergeStarts(vehicle, ground, start);
    while vehicleCount < |vehicle|
      invariant vehicleCount <= |vehicle|
      invariant Tracked(vehicle, ground, start, vehicleCount, matches, groundCount, lastMatch, leading, interior)
      invariant previousVehicle == if vehicleCount == 0 then None else Some(vehicle[vehicleCount - 1].tick)
    {
      var f := vehicle[vehicleCount];
      if f.seqNo != (start + vehicleCount) % TWO32 || (previousVehicle.Some? && f.tick <= previousVehicle.value) {
        OutOfPlace(vehicle, ground, vehicleCount, start);
        return None, matches;
      }
      previousVehicle := Some(f.tick);
      var ok;
      ok, groundCount, lastMatch, leading, interior, matches :=
        MergeFrame(vehicle, ground, start, vehicleCount, groundCount, lastMatch, leading, interior, matches);
      if !ok { return None, matches; }
      vehicleCount := vehicleCount + 1;
    }
    MergeEnds(vehicle, ground, start, matches, leading, interior);
    if groundCount < |ground| { return None, matches; }
    var trailing := if lastMatch.None? then vehicleCount else vehicleCount - lastMatch.value - 1;
    result := Some(Populations(vehicleCount, groundCount, leading, interior, trailing));
  }

  lemma OutOfPlace(vehicle: seq<Frame>, ground: seq<Frame>, n: nat, start: nat)
    requires n < |vehicle|
    requires vehicle[n].seqNo != (start + n) % TWO32 || (n > 0 && vehicle[n].tick <= vehicle[n - 1].tick)
    ensures !Mergeable(vehicle, ground, start)
  {
    hide Subsequence;
  }

  /** A ground frame at the tick of the next vehicle frame is above the ground frame before it. */
  lemma GroundAdvances(vehicle: seq<Frame>, ground: seq<Frame>, start: nat, n: nat, matches: seq<nat>, leading: nat,
                       interior: nat)
    requires Merged(vehicle, ground, start, n, matches, leading, interior) && n < |vehicle| && |matches| < |ground|
    requires Increasing(vehicle[..n + 1]) && ground[|matches|].tick == vehicle[n].tick
    ensures |matches| > 0 ==> ground[|matches| - 1].tick < ground[|matches|].tick
  {
    hide Subsequence;
    if |matches| > 0 {
      var m := matches[|matches| - 1];
      assert vehicle[..n + 1][m].tick < vehicle[..n + 1][n].tick;
    }
  }

  // Delivery of one vehicle run

  /** Every delivery carries a frame of the run, from one source, and can be written. */
  predicate DeliversFrom(deliveries: seq<Delivery>, sent: seq<Frame>, source: nat) {
    forall d <- deliveries :: d.source == source && d.writable && exists f <- sent :: f.raw == d.data
  }

  predicate OnlyFrom(s: State, sent: seq<Frame>, source: nat) {
    && (forall f <- s.recording :: f in sent) && s.counts.foreign == s.counts.malformed == s.counts.conflict == 0
    && s.counts.writeFailed == 0 && (s.source.Some? ==> s.source.value == source)
  }

  lemma AcceptedFrom(s: State, d: Delivery, sent: seq<Frame>, source: nat, f: Frame)
    requires Kept(s) && OnlyFrom(s, sent, source) && d.source == source && d.writable
    requires f in sent && f.raw == d.data && Genuine(sent) && Increasing(sent)
    ensures OnlyFrom(Accepted(s, d.data, d.source, d.writable).0, sent, source)
  {
    hide ControlFrame;
    if s.last.Some? && f.tick == s.last.value.tick {
      assert s.last.value in sent;
      var i :| 0 <= i < |sent| && sent[i] == f;
      var j :| 0 <= j < |sent| && sent[j] == s.last.value;
    }
  }

  lemma {:induction false} DeliveredFrom(deliveries: seq<Delivery>, sent: seq<Frame>, source: nat)
    requires DeliversFrom(deliveries, sent, source) && Genuine(sent) && Increasing(sent)
    ensures OnlyFrom(After(deliveries), sent, source)
    decreases |deliveries|
  {
    hide OnlyFrom, Accepted, Genuine, Increasing;
    if deliveries == [] {
      NothingFrom(After(deliveries), sent, source);
    } else {
      var init, d := deliveries[..|deliveries| - 1], deliveries[|deliveries| - 1];
      assert d in deliveries && forall e <- init :: e in deliveries;
      DeliveredFrom(init, sent, source);
      ReceiverKept(init);
      var f :| f in sent && f.raw == d.data;
      AcceptedFrom(After(init), d, sent, source, f);
    }
  }

  lemma NothingFrom(s: State, sent: seq<Frame>, source: nat)
    requires s == NOTHING
    ensures OnlyFrom(s, sent, source)
  {}

  lemma {:induction false} SubsequenceTrans(a: seq<Frame>, b: seq<Frame>, c: seq<Frame>)
    requires Subsequence(a, b) && Subsequence(b, c)
    ensures Subsequence(a, c) && |a| <= |c|
    decreases |b| + |c|
  {
    if a != [] {
      SubsequenceTail(a, b);
      if b[0] == c[0] && Subsequence(b[1..], c[1..]) {
        if a[0] == b[0] && Subsequence(a[1..], b[1..]) {
          SubsequenceTrans(a[1..], b[1..], c[1..]);
        } else {
          SubsequenceTrans(a, b[1..], c[1..]);
        }
      } else {
        SubsequenceTrans(a, b, c[1..]);
      }
    }
  }

  /** However the sent frames of a run are lost, repeated and reordered on the way, what the receiver records of them is
      a subsequence of them, so the merge with the run accepts it. */
  lemma DeliveryIsAccepted(deliveries: seq<Delivery>, sent: seq<Frame>, vehicle: seq<Frame>, source: nat)
    requires DeliversFrom(deliveries, sent, source) && Genuine(vehicle) && Contiguous(vehicle, 0) && Increasing(vehicle)
    requires Genuine(sent) && Increasing(sent) && Subsequence(sent, vehicle)
    ensures var s := After(deliveries);
            && s.counts.received == s.counts.Dispositions() && Genuine(s.recording) && Increasing(s.recording)
            && Subsequence(s.recording, sent) && Mergeable(vehicle, s.recording, 0)
            && s.counts.conflict == s.counts.malformed == s.counts.foreign == 0
  {
    hide Subsequence, Genuine, After;
    ReceiverKept(deliveries);
    DeliveredFrom(deliveries, sent, source);
    MembersAreSubsequence(After(deliveries).recording, sent);
    SubsequenceTrans(After(deliveries).recording, sent, vehicle);
  }

  /** The population equations of the offline check, for a run of which `sent` frames went out and the rest failed. */
  lemma PopulationsAddUp(p: Populations, vehicle: seq<Frame>, sent: seq<Frame>, recorded: seq<Frame>)
    requires Subsequence(sent, vehicle) && Subsequence(recorded, sent)
    requires p.vehicle == |vehicle| && p.ground == |recorded| && p.Lost() == |vehicle| - |recorded|
    ensures var failed := |vehicle| - |sent|;
            && 0 <= p.ground <= |sent| <= p.vehicle && failed <= p.Lost() && p.vehicle == p.ground + p.Lost()
            && p.Lost() == failed + (|sent| - p.ground)
  {
    SubsequenceTrans(recorded, sent, vehicle);
    SubsequenceShort(sent, vehicle);
    SubsequenceShort(recorded, sent);
  }

  lemma SubsequenceShort(a: seq<Frame>, b: seq<Frame>)
    requires Subsequence(a, b)
    ensures |a| <= |b|
  {
    if a != [] {
      SubsequenceTail(a, b);
    }
  }
}
