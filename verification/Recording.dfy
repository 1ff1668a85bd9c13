/** The recording: the drain thread over the ring, its shutdown handshake, and what the file decodes to. */
module Recording {
  import opened Basics
  import opened Frames
  import opened Payload
  import opened Ring
  import Stream

  const BATCH := 512
  const HEADER := 32

  /** The control record as its producer pushed it: stamped with the drops so far. */
  function RecordOf(e: Entry<Control>): Control { e.value.(drops := e.drops % TWO64) }

  function PayloadOf(e: Entry<Control>): Option<seq<byte>> { EncodeControl(RecordOf(e)) }

  /** The entries whose counts the payload accepts; the others are never written. */
  function Encodable(entries: seq<Entry<Control>>): seq<Entry<Control>>
    decreases |entries|
  {
    if entries == [] then []
    else
      var e := entries[|entries| - 1];
      Encodable(entries[..|entries| - 1]) + if PayloadOf(e).Some? then [e] else []
  }

  /** The frames of some encodable entries, numbered from zero and wrapping at 2^32. */
  function FramesOf(entries: seq<Entry<Control>>): (fs: seq<Stream.PyFrame>)
    ensures |fs| == |entries|
    decreases |entries|
  {
    if entries == [] then []
    else
      var n := |entries| - 1;
      var payload := PayloadOf(entries[n]);
      FramesOf(entries[..n]) + [Stream.PyFrame(CONTROL, n % TWO32, if payload.Some? then payload.value else [])]
  }

  /** What the drain has put in the file; `short` counts the writes that fell short, and `flushed` says that no flush
      has failed. The program itself keeps only `failed`. */
  datatype File = File(bytes: seq<byte>, seqNo: u32, records: nat, short: nat, flushed: bool, failed: bool)

  /** The outcome of a write: all bytes, or only so many of them. */
  predicate Whole(put: Option<nat>, frame: seq<byte>) { put.Some? ==> put.value >= |frame| }

  function WriteOne(f: File, e: Entry<Control>, put: Option<nat>): File {
    var payload := PayloadOf(e);
    if payload.None? then f.(failed := true)
    else
      var frame := EncodeFrame(CONTROL, f.seqNo, payload.value);
      var next := f.(seqNo := (f.seqNo + 1) % TWO32);
      if Whole(put, frame) then next.(bytes := f.bytes + frame, records := f.records + 1)
      else next.(bytes := f.bytes + frame[..put.value], short := f.short + 1, failed := true)
  }

  /** The outcome of the `i`-th write of a batch. */
  function PutAt(puts: seq<nat>, i: nat): Option<nat> { if i < |puts| then Some(puts[i]) else None }

  function WriteAll(f: File, batch: seq<Entry<Control>>, puts: seq<nat>): File
    decreases |batch|
  {
    if batch == [] then f
    else WriteOne(WriteAll(f, batch[..|batch| - 1], puts), batch[|batch| - 1], PutAt(puts, |batch| - 1))
  }

  /** The flush before the file is closed; a failed one leaves only the first `kept` bytes. */
  function Flush(f: File, ok: bool, kept: nat): File {
    if ok then f else f.(bytes := f.bytes[..Min(kept, |f.bytes|)], flushed := false, failed := true)
  }

  /** The inner loop of the drain. */
  method WriteBatch(batch: seq<Entry<Control>>, puts: seq<nat>, before: File) returns (f: File)
    ensures f == WriteAll(before, batch, puts)
  {
    hide EncodeFrame, EncodeControl;
    var bytes, seqNo: u32, records, short, failed :=
      before.bytes, before.seqNo, before.records, before.short, before.failed;
    for i := 0 to |batch|
      invariant File(bytes, seqNo, records, short, before.flushed, failed) == WriteAll(before, batch[..i], puts)
    {
      assert batch[..i + 1][..i] == batch[..i];
      var payload := EncodeControl(RecordOf(batch[i]));
      if payload.None? {
        failed := true;
      } else {
        var frame := EncodeFrame(CONTROL, seqNo, payload.value);
        var put := PutAt(puts, i);
        var written := if put.None? then |frame| else Min(put.value, |frame|);
        bytes, seqNo := bytes + frame[..written], (seqNo + 1) % TWO32;
        if written != |frame| {
          short, failed := short + 1, true;
        } else {
          assert frame[..written] == frame;
          records := records + 1;
        }
      }
    }
    assert batch[..|batch|] == batch;
    f := File(bytes, seqNo, records, short, before.flushed, failed);
  }

  // The drain thread beside the control thread

  datatype Pc = Polling | Draining | Asking | Exited

  datatype Recorder = Recorder(ring: Shared<Control>, stop: bool, stopSeen: bool, pc: Pc, file: File)

  /** What the file system makes of a step of the drain. */
  datatype Io = Io(puts: seq<nat>, flush: bool, kept: nat)

  /** A step of either thread. The control thread stores the stop flag between pushes and pushes nothing after it. */
  datatype Action = Push(record: Control) | Produce | Stop | Drain(io: Io)

  function Start(header: seq<byte>): Recorder {
    Recorder(Empty(), false, false, Polling, File(header, 0, 0, 0, true, false))
  }

  /** One atomic step of the drain: start a pop, a step of the pop, or the load of the stop flag. The last pop ends with
      the flush. */
  function DrainStep(r: Recorder, io: Io): (t: Recorder)
    requires |r.ring.slots| == SLOTS
    ensures |t.ring.slots| == SLOTS
  {
    match r.pc
    case Polling => r.(ring := Advance(r.ring, Pop(BATCH)), pc := Draining)
    case Draining =>
      var ring := Advance(r.ring, Consume);
      if !ring.consumer.Waiting? || |ring.popped| < |r.ring.popped| then r.(ring := ring)
      else
        var batch := ring.popped[|r.ring.popped|..];
        if batch == [] && r.stopSeen then r.(ring := ring, file := Flush(r.file, io.flush, io.kept), pc := Exited)
        else r.(ring := ring, file := WriteAll(r.file, batch, io.puts), pc := if batch != [] then Polling else Asking)
    case Asking => r.(stopSeen := r.stop, pc := Polling)
    case Exited => r
  }

  function Act(r: Recorder, a: Action): (t: Recorder)
    requires |r.ring.slots| == SLOTS
    ensures |t.ring.slots| == SLOTS
  {
    match a
    case Push(v) => if r.stop then r else r.(ring := Advance(r.ring, Step.Push(v)))
    case Produce => r.(ring := Advance(r.ring, Step.Produce))
    case Stop => if r.ring.producer.Resting? then r.(stop := true) else r
    case Drain(io) => DrainStep(r, io)
  }

  function After(header: seq<byte>, actions: seq<Action>): (r: Recorder)
    ensures |r.ring.slots| == SLOTS
    decreases |actions|
  {
    if actions == [] then Start(header) else Act(After(header, actions[..|actions| - 1]), actions[|actions| - 1])
  }

  /** After the stop flag is seen, the head a pop works with is the final one. */
  ghost predicate Handshaken(r: Recorder) {
    && (r.stopSeen ==> r.stop) && (r.stop ==> r.ring.producer.Resting?)
    && (r.pc == Draining <==> !r.ring.consumer.Waiting?)
    && (r.ring.consumer.Loaded? || r.ring.consumer.Copying? ==> r.ring.consumer.max == BATCH)
    && (r.stopSeen && !r.ring.consumer.Waiting? ==> r.ring.consumer.head == r.ring.head)
    && (r.pc == Exited ==> r.stopSeen && r.ring.tail == r.ring.head)
  }

  /** As long as every write and flush succeeds, the file holds the header and the frames of everything popped that
      could be encoded; and a failure is noted exactly when a record was refused, a write fell short or the flush
      failed. */
  predicate FileOf(f: File, popped: seq<Entry<Control>>, header: seq<byte>) {
    var e := Encodable(popped);
    && (f.short == 0 && f.flushed ==> f.bytes == header + Stream.Concat(FramesOf(e)))
    && f.seqNo == |e| % TWO32 && f.records + f.short == |e|
    && (f.failed <==> e != popped || f.short > 0 || !f.flushed)
  }

  ghost predicate Sound(r: Recorder, header: seq<byte>) {
    Linear(r.ring) && |r.ring.slots| == SLOTS && Handshaken(r) && FileOf(r.file, r.ring.popped, header)
  }

  // The file grows with what is popped

  lemma EncodableNext(entries: seq<Entry<Control>>, e: Entry<Control>)
    ensures Encodable(entries + [e]) == Encodable(entries) + if PayloadOf(e).Some? then [e] else []
  {
    hide PayloadOf;
    assert (entries + [e])[..|entries|] == entries;
  }

  lemma FramesNext(entries: seq<Entry<Control>>, e: Entry<Control>)
    requires PayloadOf(e).Some?
    ensures FramesOf(entries + [e])
         == FramesOf(entries) + [Stream.PyFrame(CONTROL, |entries| % TWO32, PayloadOf(e).value)]
    ensures Stream.Concat(FramesOf(entries + [e]))
         == Stream.Concat(FramesOf(entries)) + EncodeFrame(CONTROL, |entries| % TWO32, PayloadOf(e).value)
  {
    hide PayloadOf, EncodeFrame;
    assert (entries + [e])[..|entries|] == entries;
    var fs := FramesOf(entries + [e]);
    assert fs[..|entries|] == FramesOf(entries);
  }

  lemma WriteNext(f: File, popped: seq<Entry<Control>>, header: seq<byte>, e: Entry<Control>, put: Option<nat>)
    requires FileOf(f, popped, header)
    ensures FileOf(WriteOne(f, e, put), popped + [e], header)
  {
    hide PayloadOf, EncodeFrame, Encodable, FramesOf, Stream.Concat;
    EncodableNext(popped, e);
    EncodableShort(popped);
    var all := Encodable(popped);
    if PayloadOf(e).Some? {
      FramesNext(all, e);
      Stream.Wrap(|all|);
      assert (all + [e])[..|all|] == all && (popped + [e])[..|popped|] == popped;
    } else {
      assert all + [] == all;
    }
  }

  lemma {:induction false} EncodableShort(entries: seq<Entry<Control>>)
    ensures |Encodable(entries)| <= |entries| && (|Encodable(entries)| == |entries| ==> Encodable(entries) == entries)
    decreases |entries|
  {
    hide PayloadOf;
    if entries != [] {
      EncodableShort(entries[..|entries| - 1]);
    }
  }

  lemma {:induction false} WriteGrows(f: File, popped: seq<Entry<Control>>, batch: seq<Entry<Control>>, puts: seq<nat>,
                                       header: seq<byte>)
    requires FileOf(f, popped, header)
    ensures FileOf(WriteAll(f, batch, puts), popped + batch, header)
    decreases |batch|
  {
    hide FileOf, WriteOne;
    if batch == [] {
      assert popped + batch == popped;
    } else {
      var n := |batch| - 1;
      WriteGrows(f, popped, batch[..n], puts, header);
      WriteNext(WriteAll(f, batch[..n], puts), popped + batch[..n], header, batch[n], PutAt(puts, n));
      assert popped + batch == popped + batch[..n] + [batch[n]];
    }
  }

  // Every interleaving of the two threads

  lemma StartSound(r: Recorder, header: seq<byte>)
    requires r == Start(header) && |r.ring.slots| == SLOTS
    ensures Sound(r, header)
  {
    hide Linear, Empty, FileOf;
    EmptyLinear(r.ring);
    EmptyParts(r.ring);
    NothingFiled(r.file, r.ring.popped, header);
  }

  lemma EmptyParts(s: Shared<Control>)
    requires s == Empty()
    ensures s.producer.Resting? && s.consumer.Waiting? && s.popped == [] && s.head == s.tail == 0
  {}

  lemma NothingFiled(f: File, popped: seq<Entry<Control>>, header: seq<byte>)
    requires popped == [] && f == File(header, 0, 0, 0, true, false)
    ensures FileOf(f, popped, header)
  {
    assert Stream.Concat(FramesOf(Encodable(popped))) == [];
  }

  /** What a step of the consumer does to the rest of the ring, and when it ends a pop. */
  lemma ConsumeParts(s: Shared<Control>)
    requires Linear(s)
    ensures var t := Advance(s, Consume);
            && t.head == s.head && t.producer == s.producer && t.attempts == s.attempts
            && (if s.consumer.Copying? && t.consumer.Waiting? then
                  && t.popped == s.popped + s.consumer.out && t.tail == s.consumer.tail
                  && (s.consumer.tail == s.consumer.head || |s.consumer.out| >= s.consumer.max)
                else t.popped == s.popped && t.tail == s.tail)
            && (!s.consumer.Waiting? && !t.consumer.Waiting? ==>
                  t.consumer.head == s.consumer.head && t.consumer.max == s.consumer.max)
            && (s.consumer.Waiting? ==> t.consumer.Waiting?) && (s.consumer.Loaded? ==> !t.consumer.Waiting?)
            && (s.consumer.Copying? ==> |s.consumer.out| == s.consumer.tail - s.tail)
  {
    hide Accepted, Refused, Stamped, Stored;
  }

  lemma FlushKeeps(f: File, popped: seq<Entry<Control>>, header: seq<byte>, ok: bool, kept: nat)
    requires FileOf(f, popped, header)
    ensures FileOf(Flush(f, ok, kept), popped, header)
  {
    hide Encodable, FramesOf, Stream.Concat;
  }

  lemma DrainKeeps(r: Recorder, header: seq<byte>, io: Io)
    requires Sound(r, header)
    ensures Sound(DrainStep(r, io), header)
  {
    hide Linear, Advance, FileOf, WriteAll, Flush;
    match r.pc {
      case Polling =>
        AdvanceKeeps(r.ring, Pop(BATCH));
        PopParts(r.ring, BATCH);
      case Draining =>
        AdvanceKeeps(r.ring, Consume);
        ConsumeParts(r.ring);
        var ring := Advance(r.ring, Consume);
        if ring.consumer.Waiting? {
          WriteGrows(r.file, r.ring.popped, ring.popped[|r.ring.popped|..], io.puts, header);
          FlushKeeps(r.file, r.ring.popped, header, io.flush, io.kept);
          var batch := ring.popped[|r.ring.popped|..];
          assert r.ring.popped + batch == ring.popped && (batch == [] ==> r.ring.popped == ring.popped);
        }
      case Asking =>
      case Exited =>
    }
  }

  lemma PopParts(s: Shared<Control>, max: nat)
    requires |s.slots| == SLOTS && s.consumer.Waiting?
    ensures var t := Advance(s, Pop(max));
            t == s.(consumer := Loaded(s.head, max))
  {}

  /** A step of the producer leaves the consumer's side alone, and a resting producer does nothing. */
  lemma ProduceParts(s: Shared<Control>, v: Control)
    requires |s.slots| == SLOTS
    ensures var t := Advance(s, Step.Produce);
            && t.consumer == s.consumer && t.popped == s.popped && t.tail == s.tail && (s.producer.Resting? ==> t == s)
    ensures var t := Advance(s, Step.Push(v));
            && t.consumer == s.consumer && t.popped == s.popped && t.tail == s.tail && t.head == s.head
  {}

  lemma ActKeeps(r: Recorder, a: Action, header: seq<byte>)
    requires Sound(r, header)
    ensures Sound(Act(r, a), header)
  {
    hide Linear, Advance, FileOf, DrainStep;
    match a {
      case Push(v) =>
        AdvanceKeeps(r.ring, Step.Push(v));
        ProduceParts(r.ring, v);
      case Produce =>
        AdvanceKeeps(r.ring, Step.Produce);
        ProduceParts(r.ring, NO_RECORD);
      case Stop =>
      case Drain(io) => DrainKeeps(r, header, io);
    }
  }

  lemma {:induction false} EveryRunSound(header: seq<byte>, actions: seq<Action>)
    ensures Sound(After(header, actions), header)
    decreases |actions|
  {
    hide Sound, Act, Start;
    if actions == [] {
      StartSound(After(header, actions), header);
    } else {
      EveryRunSound(header, actions[..|actions| - 1]);
      ActKeeps(After(header, actions[..|actions| - 1]), actions[|actions| - 1], header);
    }
  }

  /** When the drain thread has exited, it has written every accepted push, in order, that could be encoded at all, and
      noted any failure to. */
  lemma ExitedHasEverything(header: seq<byte>, actions: seq<Action>)
    requires After(header, actions).pc == Exited
    ensures var r := After(header, actions);
            r.stop && r.ring.popped == Accepted(r.ring.attempts) && FileOf(r.file, Accepted(r.ring.attempts), header)
  {
    hide After, Accepted, Refused, Stamped, Stored, Copied, FileOf;
    EveryRunSound(header, actions);
    var r := After(header, actions);
    assert Accepted(r.ring.attempts)[..|Accepted(r.ring.attempts)|] == Accepted(r.ring.attempts);
  }

  // Reading the file back

  predicate AllEncodable(entries: seq<Entry<Control>>) { forall e <- entries :: PayloadOf(e).Some? }

  lemma {:induction false} EncodableAll(entries: seq<Entry<Control>>)
    requires AllEncodable(entries)
    ensures Encodable(entries) == entries
    decreases |entries|
  {
    hide PayloadOf;
    if entries != [] {
      var n := |entries| - 1;
      assert entries[n] in entries;
      forall e <- entries[..n]
        ensures PayloadOf(e).Some?
      {
        assert e in entries;
      }
      EncodableAll(entries[..n]);
    }
  }

  lemma {:induction false} FrameAtIndex(entries: seq<Entry<Control>>, i: nat)
    requires AllEncodable(entries) && i < |entries|
    ensures PayloadOf(entries[i]).Some?
    ensures FramesOf(entries)[i] == Stream.PyFrame(CONTROL, i % TWO32, PayloadOf(entries[i]).value)
    decreases |entries|
  {
    hide PayloadOf;
    assert entries[i] in entries;
    var n := |entries| - 1;
    if i < n {
      forall e <- entries[..n]
        ensures PayloadOf(e).Some?
      {
        assert e in entries;
      }
      FrameAtIndex(entries[..n], i);
    }
  }

  /** Decoding the recorded stream gives back the records field for field, in order, with nothing lost, skipped or
      resynchronised, whatever the sequence number wraps to. */
  lemma RecordingDecodes(entries: seq<Entry<Control>>)
    requires AllEncodable(entries)
    ensures var data := Stream.Concat(FramesOf(entries));
            var end := Stream.Decode(data, Stream.START);
            && end.counts == Stream.Counters(|entries|, 0, 0, 0, 0, 0) && Stream.Skipped(data, end) == 0
            && Stream.Inside(end.frames, |data|)
            && var frames := Stream.Extract(data, end.frames);
               && |frames| == |entries|
               && forall i | 0 <= i < |frames| ::
                    && frames[i].kind == CONTROL && |frames[i].payload| == 128
                    && DecodeControl(frames[i].payload) == Some(RecordOf(entries[i]))
  {
    hide Stream.Decode, Stream.Concat, Stream.Extract, EncodePayload, DecodeControl, EncodeFrame, FramesOf, RecordOf,
         Stream.Counted;
    var fs := FramesOf(entries);
    forall i | 0 <= i < |fs|
      ensures fs[i].kind == CONTROL && fs[i].seqNo == (0 + i) % TWO32 && |fs[i].payload| == 128
      ensures DecodeControl(fs[i].payload) == Some(RecordOf(entries[i]))
    {
      FrameAtIndex(entries, i);
      ControlRoundTrip(RecordOf(entries[i]));
    }
    Stream.DecodeConcat(fs);
    Stream.ConsecutiveLosesNothing(fs, 0);
  }

  lemma EncodableIsAll(entries: seq<Entry<Control>>)
    requires Encodable(entries) == entries
    ensures AllEncodable(entries)
    decreases |entries|
  {
    hide PayloadOf;
    if entries != [] {
      var n := |entries| - 1;
      EncodableShort(entries[..n]);
      EncodableIsAll(entries[..n]);
    }
  }

  /** End to end: once the drain has exited without noting a failure, the file after its header decodes to every record
      pushed before the stop. It notes none exactly when every such record had possible counts and every write and the
      flush succeeded. */
  lemma RecordingIsComplete(header: seq<byte>, actions: seq<Action>)
    requires |header| == HEADER && After(header, actions).pc == Exited && !After(header, actions).file.failed
    ensures |After(header, actions).file.bytes| >= HEADER
    ensures var r, pushed := After(header, actions), Accepted(After(header, actions).ring.attempts);
            var data := r.file.bytes[HEADER..];
            var end := Stream.Decode(data, Stream.START);
            && header <= r.file.bytes && AllEncodable(pushed) && r.file.records == |pushed|
            && end.counts == Stream.Counters(|pushed|, 0, 0, 0, 0, 0) && Stream.Skipped(data, end) == 0
            && Stream.Inside(end.frames, |data|)
            && var frames := Stream.Extract(data, end.frames);
               && |frames| == |pushed|
               && forall i | 0 <= i < |frames| ::
                    |frames[i].payload| == 128 && DecodeControl(frames[i].payload) == Some(RecordOf(pushed[i]))
  {
    hide After, Accepted, Stream.Decode, Stream.Concat, Stream.Extract, DecodeControl, FramesOf, RecordOf, Encodable,
         AllEncodable;
    var r := After(header, actions);
    ExitedHasEverything(header, actions);
    EncodableIsAll(r.ring.popped);
    RecordingDecodes(r.ring.popped);
    assert r.file.bytes[HEADER..] == Stream.Concat(FramesOf(r.ring.popped));
  }

  /** A drain that exits notes no failure exactly when nothing it was given failed. */
  lemma FailureIsNoted(header: seq<byte>, actions: seq<Action>)
    requires After(header, actions).pc == Exited
    ensures var r := After(header, actions);
            r.file.failed <==> !AllEncodable(Accepted(r.ring.attempts)) || r.file.short > 0 || !r.file.flushed
  {
    hide After, Accepted, Stream.Concat, FramesOf, Encodable, AllEncodable;
    var r := After(header, actions);
    ExitedHasEverything(header, actions);
    if AllEncodable(r.ring.popped) {
      EncodableAll(r.ring.popped);
    } else if Encodable(r.ring.popped) == r.ring.popped {
      EncodableIsAll(r.ring.popped);
    }
  }
}
