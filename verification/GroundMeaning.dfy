/** What the ground receiver makes of every datagram, read off the deliveries before it. */
module GroundMeaning {
  import opened Basics
  import opened Ground

  /** Where the first usable frame came from. */
  function FirstSource(deliveries: seq<Delivery>): Option<nat>
    decreases |deliveries|
  {
    if deliveries == [] then None
    else
      var n := |deliveries| - 1;
      var before := FirstSource(deliveries[..n]);
      if before.Some? then before
      else if ControlFrame(deliveries[n].data).Some? then Some(deliveries[n].source) else None
  }

  function One(b: bool): nat { if b then 1 else 0 }

  /** A frame above everything recorded. */
  predicate Advances(f: Frame, recording: seq<Frame>) { forall g <- recording :: g.tick < f.tick }

  /** How a datagram is disposed of: foreign, once a usable frame came from elsewhere; malformed; above everything
      recorded, and then recorded if it can be written; the last recorded frame again; another frame of its tick; or
      one of an earlier tick. */
  ghost predicate Disposed(before: State, d: Delivery, after: State, source: Option<nat>) {
    var a, b, rec, f := before.counts, after.counts, before.recording, ControlFrame(d.data);
    var foreign := source.Some? && source.value != d.source;
    var usable := !foreign && f.Some?;
    var advances := usable && Advances(f.value, rec);
    var known := usable && !advances;
    var level := known && f.value.tick == rec[|rec| - 1].tick;
    && b.received == a.received + 1 && b.foreign == a.foreign + One(foreign)
    && b.malformed == a.malformed + One(!foreign && f.None?)
    && b.recorded == a.recorded + One(advances && d.writable)
    && b.writeFailed == a.writeFailed + One(advances && !d.writable)
    && b.duplicate == a.duplicate + One(known && d.data == rec[|rec| - 1].raw)
    && b.conflict == a.conflict + One(level && d.data != rec[|rec| - 1].raw)
    && b.outOfOrder == a.outOfOrder + One(known && !level)
    && after.recording == (if advances && d.writable then rec + [f.value] else rec)
    && after.source == (if source.Some? then source else if f.Some? then Some(d.source) else None)
  }

  /** Above the last is above all, when ticks increase. */
  lemma AboveLast(rec: seq<Frame>, f: Frame)
    requires Increasing(rec)
    ensures Advances(f, rec) <==> (rec != [] ==> rec[|rec| - 1].tick < f.tick)
  {
    if rec != [] {
      var last := rec[|rec| - 1];
      assert last in rec;
      forall g | g in rec
        ensures g.tick <= last.tick
      {
        var i :| 0 <= i < |rec| && rec[i] == g;
      }
    }
  }

  /** The last recorded frame again, byte for byte, is a frame of its tick. */
  lemma SameBytes(rec: seq<Frame>, data: seq<byte>)
    requires Genuine(rec) && rec != [] && data == rec[|rec| - 1].raw
    ensures ControlFrame(data) == Some(rec[|rec| - 1])
  {
    assert rec[|rec| - 1] in rec;
  }

  lemma DeliveryMeans(s: State, d: Delivery)
    requires Kept(s)
    ensures Disposed(s, d, Accepted(s, d.data, d.source, d.writable).0, s.source)
  {
    hide ControlFrame, Genuine, Increasing, Advances;
    var rec, f := s.recording, ControlFrame(d.data);
    FrameIsGenuine(d.data);
    if f.Some? {
      AboveLast(rec, f.value);
    }
    if rec != [] && d.data == rec[|rec| - 1].raw {
      SameBytes(rec, d.data);
    }
  }

  /** Over any deliveries, from anywhere: the receiver binds to where the first usable frame came from, and disposes of
      every datagram by that and by what it has recorded. */
  lemma {:induction false} EveryDeliveryMeans(deliveries: seq<Delivery>, d: Delivery)
    ensures var s := After(deliveries);
            && s.source == FirstSource(deliveries)
            && Disposed(s, d, Accepted(s, d.data, d.source, d.writable).0, FirstSource(deliveries))
    decreases |deliveries|
  {
    hide Disposed, Accepted, Kept;
    ReceiverKept(deliveries);
    DeliveryMeans(After(deliveries), d);
    if deliveries != [] {
      var n := |deliveries| - 1;
      EveryDeliveryMeans(deliveries[..n], deliveries[n]);
      SourceNext(After(deliveries[..n]), deliveries[n], After(deliveries), FirstSource(deliveries[..n]));
    }
  }

  lemma SourceNext(before: State, d: Delivery, after: State, source: Option<nat>)
    requires Disposed(before, d, after, source)
    ensures after.source == if source.Some? then source else if ControlFrame(d.data).Some? then Some(d.source) else None
  {}
}
