/** What a batch of replies comes to in the free-run simulator, read off the datagrams and the draws; and what a body
    applies and a frame offered is counted as. */
module FreeModelMeaning {
  import opened Basics
  import opened Payload
  import opened Headless
  import opened FreeModel
  import opened HeadlessMeaning
  import Rng

  // The fates of a batch

  /** What becomes of one datagram. */
  datatype Fate =
    | Unreadable
    | LostReply(reply: Actuator)
    | LostNotice
    | Reply(reply: Actuator)
    | Notice(reason: nat)
    | BadReply(reply: Actuator)
    | BadNotice

  function Readable(packets: seq<seq<byte>>): nat
    decreases |packets|
  {
    var n := |packets| - 1;
    if packets == [] then 0 else Readable(packets[..n]) + if ReplyIn(packets[n]).Some? then 1 else 0
  }

  /** A readable one is lost by the next draw of the downlink, or by the scenario unless it is a terminal notice. A
      surviving notice must name one of eight reasons, a surviving reply must be finite. */
  function FateOfReply(sc: Scenario, seed: u64, draw: nat, v: Actuator, tick: nat): (f: Fate)
    ensures !f.Unreadable?
  {
    var notice, reason := v.status % 256 == 3, v.status / 256 % 256;
    if Lost(seed, 1, draw, sc.lossDown, if notice then None else sc.forcedDown(tick)) then
      if notice then LostNotice else LostReply(v)
    else if notice then if 1 <= reason <= 8 then Notice(reason) else BadNotice
    else if IsFinite(v.delta) then Reply(v)
    else BadReply(v)
  }

  function FateOf(sc: Scenario, seed: u64, draw: nat, data: seq<byte>, tick: nat): (f: Fate)
    ensures f.Unreadable? <==> ReplyIn(data).None?
  {
    var reply := ReplyIn(data);
    if reply.None? then Unreadable else FateOfReply(sc, seed, draw, reply.value, tick)
  }

  predicate Bad(f: Fate) { f.BadReply? || f.BadNotice? }

  predicate Normal(f: Fate) { f.LostReply? || f.Reply? || f.BadReply? }

  predicate Terminal(f: Fate) { f.LostNotice? || f.Notice? || f.BadNotice? }

  predicate IsLostReply(f: Fate) { f.LostReply? }
  predicate IsUnreadable(f: Fate) { f.Unreadable? }
  predicate IsBadReply(f: Fate) { f.BadReply? }
  predicate IsLostNotice(f: Fate) { f.LostNotice? }
  predicate Read(f: Fate) { !f.Unreadable? }
  predicate Surviving(f: Fate) { f.Notice? || f.BadNotice? }

  function Fates(sc: Scenario, seed: u64, first: nat, packets: seq<seq<byte>>, tick: nat): (fates: seq<Fate>)
    ensures |fates| == |packets|
    decreases |packets|
  {
    var n := |packets| - 1;
    if packets == [] then []
    else
      Fates(sc, seed, first, packets[..n], tick)
        + [FateOf(sc, seed, first + Readable(packets[..n]), packets[n], tick)]
  }

  /** Those that are looked at: all of them, or those up to the first bad one. */
  function Heard(fates: seq<Fate>): (heard: seq<Fate>)
    decreases |fates|
  {
    if fates == [] then []
    else
      var n := |fates| - 1;
      var before := Heard(fates[..n]);
      if EndsBadly(before) then before else before + [fates[n]]
  }

  lemma {:induction false} HeardMeans(fates: seq<Fate>)
    ensures var heard := Heard(fates);
            && |heard| <= |fates| && heard == fates[..|heard|] && (|heard| < |fates| ==> EndsBadly(heard))
            && forall i | 0 <= i < |heard| - 1 :: !Bad(heard[i])
    decreases |fates|
  {
    if fates != [] {
      HeardMeans(fates[..|fates| - 1]);
    }
  }

  predicate EndsBadly(fates: seq<Fate>) { fates != [] && Bad(fates[|fates| - 1]) }

  /** How many of them satisfy a predicate. */
  function Tally(fates: seq<Fate>, p: Fate -> bool): nat
    decreases |fates|
  {
    var n := |fates| - 1;
    if fates == [] then 0 else Tally(fates[..n], p) + if p(fates[n]) then 1 else 0
  }

  /** The places of the usable replies, in order. */
  function Places(fates: seq<Fate>): (places: seq<nat>)
    ensures forall m | 0 <= m < |places| :: places[m] < |fates| && fates[places[m]].Reply?
    ensures forall i | 0 <= i < |fates| && fates[i].Reply? :: i in places
    ensures forall m, k | 0 <= m < k < |places| :: places[m] < places[k]
    decreases |fates|
  {
    if fates == [] then []
    else
      var n := |fates| - 1;
      Places(fates[..n]) + if fates[n].Reply? then [n] else []
  }

  function Replies(fates: seq<Fate>): (replies: seq<Actuator>)
    ensures |replies| == |Places(fates)|
    ensures forall m | 0 <= m < |replies| :: replies[m] == fates[Places(fates)[m]].reply
  {
    seq(|Places(fates)|, m requires 0 <= m < |Places(fates)| => fates[Places(fates)[m]].reply)
  }

  /** The reason of the last notice, or what was seen before. */
  function SeenIn(fates: seq<Fate>, before: Option<nat>): Option<nat>
    decreases |fates|
  {
    var n := |fates| - 1;
    if fates == [] then before else if fates[n].Notice? then Some(fates[n].reason) else SeenIn(fates[..n], before)
  }

  /** The highest tick of an ordinary reply, and of what was seen before. */
  predicate Highest(fates: seq<Fate>, before: Option<u64>, highest: Option<u64>) {
    && (forall i | 0 <= i < |fates| && Normal(fates[i]) :: highest.Some? && fates[i].reply.tick <= highest.value)
    && (before.Some? ==> highest.Some? && before.value <= highest.value)
    && (highest.Some? ==> before == highest
                          || exists i | 0 <= i < |fates| :: Normal(fates[i]) && fates[i].reply.tick == highest.value)
  }

  function DownTallied(c: DownCounts, fates: seq<Fate>, highest: Option<u64>): DownCounts {
    DownCounts(c.received + Tally(fates, Normal), c.lost + Tally(fates, IsLostReply), c.selected,
               c.superseded, c.malformed + Tally(fates, IsUnreadable), c.invalid + Tally(fates, IsBadReply), highest)
  }

  function TermTallied(c: TermCounts, fates: seq<Fate>): TermCounts {
    c.(downRaw := c.downRaw + Tally(fates, Terminal), downLost := c.downLost + Tally(fates, IsLostNotice),
       downSurvived := c.downSurvived + Tally(fates, Surviving))
  }

  /** Nothing but the downlink's books, the notice seen and a raise may differ. */
  predicate Received(s: Model, t: Model, fates: seq<Fate>) {
    && t == s.(down := t.down, term := t.term, downDraws := s.downDraws + Tally(fates, Read),
               downStream := t.downStream, vehicleSeen := SeenIn(fates, s.vehicleSeen), raised := t.raised)
    && t.down == DownTallied(s.down, fates, t.down.lastTick) && Highest(fates, s.down.lastTick, t.down.lastTick)
    && t.term == TermTallied(s.term, fates)
    && t.raised == EndsBadly(fates)
  }

  predicate Streaming(s: Model, seed: u64) {
    s.downStream == Rng.StateAfter(Rng.StreamState(seed, 1), s.downDraws)
  }

  lemma TallyOne(f: Fate)
    ensures forall p: Fate -> bool :: Tally([f], p) == if p(f) then 1 else 0
  {
    forall p: Fate -> bool
      ensures Tally([f], p) == if p(f) then 1 else 0
    {
      assert [f][..0] == [];
    }
  }

  lemma HighestOne(f: Fate, before: Option<u64>)
    ensures !Normal(f) ==> Highest([f], before, before)
    ensures Normal(f) ==> Highest([f], before, Some(if before.None? then f.reply.tick
                                                     else Max(before.value, f.reply.tick)))
  {
    assert Normal(f) ==> Normal([f][0]);
  }

  lemma SeenOne(f: Fate, before: Option<nat>)
    ensures SeenIn([f], before) == if f.Notice? then Some(f.reason) else before
  {
    assert [f][..0] == [];
  }

  function One(b: bool): nat { if b then 1 else 0 }

  /** What one fate adds. */
  predicate Adds(s: Model, t: Model, f: Fate) {
    && t == s.(down := t.down, term := t.term, downDraws := s.downDraws + One(Read(f)), downStream := t.downStream,
               vehicleSeen := if f.Notice? then Some(f.reason) else s.vehicleSeen, raised := Bad(f))
    && t.down == DownCounts(s.down.received + One(Normal(f)), s.down.lost + One(f.LostReply?), s.down.selected,
                            s.down.superseded, s.down.malformed + One(f.Unreadable?), s.down.invalid + One(f.BadReply?),
                            t.down.lastTick)
    && t.down.lastTick == (if !Normal(f) then s.down.lastTick
                           else Some(if s.down.lastTick.None? then f.reply.tick
                                     else Max(s.down.lastTick.value, f.reply.tick)))
    && t.term == s.term.(downRaw := s.term.downRaw + One(Terminal(f)), downLost := s.term.downLost + One(f.LostNotice?),
                         downSurvived := s.term.downSurvived + One(Surviving(f)))
  }

  lemma AddsReceived(s: Model, t: Model, f: Fate)
    requires Adds(s, t, f)
    ensures Received(s, t, [f])
  {
    hide Tally, Highest, SeenIn;
    TallyOne(f);
    HighestOne(f, s.down.lastTick);
    SeenOne(f, s.vehicleSeen);
  }

  lemma TakeReplyAdds(sc: Scenario, seed: u64, s: Model, survivors: seq<Actuator>, v: Actuator, f: Fate, tick: nat)
    requires Streaming(s, seed) && !s.raised && f == FateOfReply(sc, seed, s.downDraws, v, tick)
    ensures var (t, rest) := TakeReply(sc, s, survivors, v, tick);
            Adds(s, t, f) && Streaming(t, seed) && rest == survivors + if f.Reply? then [f.reply] else []
  {
    hide IsFinite, Rng.StreamState, Rng.StateAfter, Rng.DrawDrop, Lost;
    DrawMeans(seed, 1, s.downDraws, sc.lossDown, if IsTerminal(v) then None else sc.forcedDown(tick));
  }

  /** One datagram more. */
  lemma TakeOneMeans(sc: Scenario, seed: u64, s: Model, survivors: seq<Actuator>, data: seq<byte>, tick: nat)
    requires Streaming(s, seed) && !s.raised
    ensures var f, (t, rest) := FateOf(sc, seed, s.downDraws, data, tick), TakeOne(sc, s, survivors, data, tick);
            && Received(s, t, [f]) && Streaming(t, seed)
            && rest == survivors + if f.Reply? then [f.reply] else []
  {
    hide ReplyIn, Received, TakeReply, Lost, FateOfReply;
    var v, f := ReplyIn(data), FateOf(sc, seed, s.downDraws, data, tick);
    if v.Some? {
      TakeReplyAdds(sc, seed, s, survivors, v.value, f, tick);
    }
    AddsReceived(s, TakeOne(sc, s, survivors, data, tick).0, f);
  }

  // One after another

  lemma TallyMore(fates: seq<Fate>, f: Fate)
    ensures forall p: Fate -> bool :: Tally(fates + [f], p) == Tally(fates, p) + Tally([f], p)
  {
    forall p: Fate -> bool
      ensures Tally(fates + [f], p) == Tally(fates, p) + Tally([f], p)
    {
      assert (fates + [f])[..|fates|] == fates && [f][..0] == [];
    }
  }

  lemma SeenMore(fates: seq<Fate>, f: Fate, before: Option<nat>)
    ensures SeenIn(fates + [f], before) == SeenIn([f], SeenIn(fates, before))
  {
    assert (fates + [f])[..|fates|] == fates && [f][..0] == [];
  }

  lemma HighestMore(fates: seq<Fate>, f: Fate, a: Option<u64>, b: Option<u64>, c: Option<u64>)
    requires Highest(fates, a, b) && Highest([f], b, c)
    ensures Highest(fates + [f], a, c)
  {
    var all := fates + [f];
    assert all[|fates|] == f == [f][0];
    assert forall i | 0 <= i < |fates| :: all[i] == fates[i];
    if c.Some? && a != c {
      if b != c {
        assert Normal(all[|fates|]) && all[|fates|].reply.tick == c.value;
      } else {
        var i :| 0 <= i < |fates| && Normal(fates[i]) && fates[i].reply.tick == b.value;
        assert Normal(all[i]) && all[i].reply.tick == c.value;
      }
    }
  }

  lemma RepliesMore(fates: seq<Fate>, f: Fate)
    ensures Replies(fates + [f]) == Replies(fates) + if f.Reply? then [f.reply] else []
  {
    var all := fates + [f];
    assert all[..|fates|] == fates;
    assert Places(all) == Places(fates) + if f.Reply? then [|fates|] else [];
  }

  lemma ReceivedMore(s: Model, t: Model, u: Model, fates: seq<Fate>, f: Fate)
    requires Received(s, t, fates) && !t.raised && Received(t, u, [f])
    ensures Received(s, u, fates + [f])
  {
    hide Tally, SeenIn, Highest;
    TallyMore(fates, f);
    SeenMore(fates, f, s.vehicleSeen);
    HighestMore(fates, f, s.down.lastTick, t.down.lastTick, u.down.lastTick);
  }

  lemma NoneReceived(s: Model)
    requires !s.raised
    ensures Received(s, s, [])
  {}

  lemma {:induction false} FatesPrefix(sc: Scenario, seed: u64, first: nat, packets: seq<seq<byte>>, tick: nat, m: nat)
    requires m <= |packets|
    ensures Fates(sc, seed, first, packets, tick)[..m] == Fates(sc, seed, first, packets[..m], tick)
    decreases |packets|
  {
    hide FateOf, Readable, Fates;
    var n := |packets| - 1;
    if m == |packets| {
      assert packets[..m] == packets;
    } else {
      FatesPrefix(sc, seed, first, packets[..n], tick, m);
      FatesNext(sc, seed, first, packets, tick);
      assert packets[..n][..m] == packets[..m];
    }
  }

  /** The fate of the datagram at a place is decided by the draw after those of the readable ones before it. */
  lemma FateAt(sc: Scenario, seed: u64, first: nat, packets: seq<seq<byte>>, tick: nat, i: nat)
    requires i < |packets|
    ensures Fates(sc, seed, first, packets, tick)[i]
         == FateOf(sc, seed, first + Readable(packets[..i]), packets[i], tick)
  {
    hide FateOf, Readable, Fates;
    var upTo := packets[..i + 1];
    FatesPrefix(sc, seed, first, packets, tick, i + 1);
    FatesNext(sc, seed, first, upTo, tick);
    assert upTo[..i] == packets[..i] && upTo[i] == packets[i];
    assert Fates(sc, seed, first, packets, tick)[..i + 1][i] == Fates(sc, seed, first, packets, tick)[i];
  }

  lemma {:induction false} DrawsRead(sc: Scenario, seed: u64, first: nat, packets: seq<seq<byte>>, tick: nat)
    ensures Tally(Fates(sc, seed, first, packets, tick), Read) == Readable(packets)
    decreases |packets|
  {
    hide FateOf, ReplyIn, Fates;
    FatesNext(sc, seed, first, packets, tick);
    if packets != [] {
      var n := |packets| - 1;
      DrawsRead(sc, seed, first, packets[..n], tick);
      var f := FateOf(sc, seed, first + Readable(packets[..n]), packets[n], tick);
      TallyMore(Fates(sc, seed, first, packets[..n], tick), f);
      TallyOne(f);
    }
  }

  lemma TakeMore(sc: Scenario, seed: u64, s: Model, t: Model, survivors: seq<Actuator>, fates: seq<Fate>,
                 data: seq<byte>, tick: nat)
    requires Received(s, t, fates) && Streaming(t, seed) && survivors == Replies(fates) && !t.raised
    ensures var (u, rest) := TakeOne(sc, t, survivors, data, tick);
            var all := fates + [FateOf(sc, seed, t.downDraws, data, tick)];
            Received(s, u, all) && Streaming(u, seed) && rest == Replies(all)
  {
    hide FateOf, TakeOne, Received, Streaming, Replies;
    TakeOneMeans(sc, seed, t, survivors, data, tick);
    var f := FateOf(sc, seed, t.downDraws, data, tick);
    ReceivedMore(s, t, TakeOne(sc, t, survivors, data, tick).0, fates, f);
    RepliesMore(fates, f);
  }

  /** The next datagram, unless one before it was bad. */
  lemma TakeStep(sc: Scenario, seed: u64, s: Model, t: Model, survivors: seq<Actuator>, fates: seq<Fate>,
                 data: seq<byte>, tick: nat)
    requires Received(s, t, Heard(fates)) && Streaming(t, seed) && survivors == Replies(Heard(fates))
    ensures var (u, rest) := if t.raised then (t, survivors) else TakeOne(sc, t, survivors, data, tick);
            var heard := Heard(fates + [FateOf(sc, seed, s.downDraws + Tally(fates, Read), data, tick)]);
            Received(s, u, heard) && Streaming(u, seed) && rest == Replies(heard)
  {
    hide FateOf, TakeOne, Received, Streaming, Tally, Replies, Heard, EndsBadly;
    var f := FateOf(sc, seed, s.downDraws + Tally(fates, Read), data, tick);
    HeardNext(fates, f);
    RaisedMeans(s, t, Heard(fates));
    if !t.raised {
      DrawsOf(s, t, fates);
      TakeMore(sc, seed, s, t, survivors, fates, data, tick);
      assert Heard(fates + [f]) == fates + [f];
    } else {
      assert Heard(fates + [f]) == Heard(fates);
    }
  }

  /** A batch is received as its fates say. */
  lemma {:induction false} TakeAllMeans(sc: Scenario, seed: u64, s: Model, packets: seq<seq<byte>>, tick: nat)
    requires Streaming(s, seed) && !s.raised
    ensures var (t, survivors) := TakeAll(sc, s, packets, tick);
            var heard := Heard(Fates(sc, seed, s.downDraws, packets, tick));
            Received(s, t, heard) && Streaming(t, seed) && survivors == Replies(heard)
    decreases |packets|
  {
    hide FateOf, TakeOne, Received, Streaming, Tally, Fates, Readable, Replies, Heard, EndsBadly, TakeAll;
    TakeAllNext(sc, s, packets, tick);
    FatesNext(sc, seed, s.downDraws, packets, tick);
    HeardNothing();
    if packets == [] {
      NoneReceived(s);
    } else {
      var n := |packets| - 1;
      TakeAllMeans(sc, seed, s, packets[..n], tick);
      DrawsRead(sc, seed, s.downDraws, packets[..n], tick);
      TakeStep(sc, seed, s, TakeAll(sc, s, packets[..n], tick).0, TakeAll(sc, s, packets[..n], tick).1,
               Fates(sc, seed, s.downDraws, packets[..n], tick), packets[n], tick);
    }
  }

  lemma TakeAllNext(sc: Scenario, s: Model, packets: seq<seq<byte>>, tick: nat)
    ensures TakeAll(sc, s, packets, tick)
         == if packets == [] then (s, [])
            else
              var n := |packets| - 1;
              var (t, survivors) := TakeAll(sc, s, packets[..n], tick);
              if t.raised then (t, survivors) else TakeOne(sc, t, survivors, packets[n], tick)
  {
    hide TakeOne;
  }

  lemma HeardNothing()
    ensures Heard([]) == [] && Replies([]) == []
  {}

  lemma FatesNext(sc: Scenario, seed: u64, first: nat, packets: seq<seq<byte>>, tick: nat)
    ensures var n := |packets| - 1;
            Fates(sc, seed, first, packets, tick)
              == if packets == [] then []
                 else Fates(sc, seed, first, packets[..n], tick)
                      + [FateOf(sc, seed, first + Readable(packets[..n]), packets[n], tick)]
  {}

  lemma HeardNext(fates: seq<Fate>, f: Fate)
    ensures Heard(fates + [f]) == if EndsBadly(Heard(fates)) then Heard(fates) else fates + [f]
    ensures !EndsBadly(Heard(fates)) ==> Heard(fates) == fates
  {
    HeardMeans(fates);
    assert (fates + [f])[..|fates|] == fates;
  }

  lemma RaisedMeans(s: Model, t: Model, fates: seq<Fate>)
    requires Received(s, t, fates)
    ensures t.raised == EndsBadly(fates)
  {}

  lemma DrawsOf(s: Model, t: Model, fates: seq<Fate>)
    requires Received(s, t, fates)
    ensures t.downDraws == s.downDraws + Tally(fates, Read)
  {}

  // What a batch comes to

  predicate IsReply(f: Fate) { f.Reply? }

  /** A usable reply that none outdoes, and the first such. */
  predicate Selects(fates: seq<Fate>, i: nat, delta: word) {
    && i < |fates| && fates[i].Reply? && fates[i].reply.delta == delta
    && (forall j | 0 <= j < |fates| && fates[j].Reply? :: fates[j].reply.tick <= fates[i].reply.tick)
    && (forall j | 0 <= j < i && fates[j].Reply? :: fates[j].reply.tick < fates[i].reply.tick)
  }

  lemma NewestSelects(fates: seq<Fate>)
    requires Replies(fates) != []
    ensures exists i :: Selects(fates, i, Newest(Replies(fates)).delta)
  {
    var places := Places(fates);
    var m := NewestIsFirst(Replies(fates));
    forall j | 0 <= j < |fates| && fates[j].Reply?
      ensures fates[j].reply.tick <= fates[places[m]].reply.tick
      ensures j < places[m] ==> fates[j].reply.tick < fates[places[m]].reply.tick
    {
      assert j in places;
      var n :| 0 <= n < |places| && places[n] == j;
      assert Replies(fates)[n] == fates[j].reply;
    }
    assert Selects(fates, places[m], Newest(Replies(fates)).delta);
  }

  predicate AnyReply(fates: seq<Fate>) { exists i | 0 <= i < |fates| :: fates[i].Reply? }

  lemma SomeReply(fates: seq<Fate>)
    ensures Replies(fates) != [] <==> AnyReply(fates)
  {
    if Replies(fates) != [] {
      assert fates[Places(fates)[0]].Reply?;
    }
  }

  /** On every batch, from any state of the stream: the call raises exactly when it meets a bad datagram; a request is
      selected exactly when no notice has been seen and some reply is usable, and it is that of the newest. */
  lemma ReceiveMeans(sc: Scenario, seed: u64, s: Model, packets: seq<seq<byte>>, tick: nat)
    requires Streaming(s, seed) && !s.raised
    ensures var (t, selected) := Receive(sc, s, packets, tick);
            var fates := Heard(Fates(sc, seed, s.downDraws, packets, tick));
            && t.raised == EndsBadly(fates) && t.vehicleSeen == SeenIn(fates, s.vehicleSeen)
            && (selected.Some? <==>
                  !t.raised && t.vehicleSeen.None? && AnyReply(fates))
            && (selected.Some? ==> exists i :: Selects(fates, i, selected.value))
  {
    hide TakeAll, Newest, Fates, Heard, EndsBadly, Received, SeenIn, Selects, Replies, AnyReply, Streaming;
    TakeAllMeans(sc, seed, s, packets, tick);
    var fates := Heard(Fates(sc, seed, s.downDraws, packets, tick));
    var t := TakeAll(sc, s, packets, tick).0;
    RaisedMeans(s, t, fates);
    SeenMeans(s, t, fates);
    SomeReply(fates);
    if AnyReply(fates) {
      NewestSelects(fates);
    }
  }

  lemma SeenMeans(s: Model, t: Model, fates: seq<Fate>)
    requires Received(s, t, fates)
    ensures t.vehicleSeen == SeenIn(fates, s.vehicleSeen)
  {}

  lemma {:induction false} RepliesTallied(fates: seq<Fate>)
    ensures |Replies(fates)| == Tally(fates, IsReply)
    decreases |fates|
  {
    if fates != [] {
      RepliesTallied(fates[..|fates| - 1]);
    }
  }

  /** And its books: every datagram looked at is counted for what became of it, a usable reply as selected or
      superseded, and a notice ends the run. */
  lemma ReceiveCounts(sc: Scenario, seed: u64, s: Model, packets: seq<seq<byte>>, tick: nat)
    requires Streaming(s, seed) && !s.raised
    ensures var (t, selected) := Receive(sc, s, packets, tick);
            var fates := Heard(Fates(sc, seed, s.downDraws, packets, tick));
            && Received(s, t.(reason := s.reason, down := t.down.(selected := s.down.selected,
                                                                  superseded := s.down.superseded)), fates)
            && t.down.selected == s.down.selected + One(selected.Some?)
            && (!t.raised ==>
                  t.down.superseded == s.down.superseded + Tally(fates, IsReply) - One(selected.Some?))
            && (t.raised ==> t.down.superseded == s.down.superseded)
            && t.reason == (if !t.raised && t.vehicleSeen.Some? && s.reason.None? then Some(4) else s.reason)
  {
    hide TakeAll, Newest, Fates, Heard, EndsBadly, Received, SeenIn, Tally, Replies;
    TakeAllMeans(sc, seed, s, packets, tick);
    var fates := Heard(Fates(sc, seed, s.downDraws, packets, tick));
    RepliesTallied(fates);
    var t := TakeAll(sc, s, packets, tick).0;
    KeptBooks(s, t, fates);
    assert t.(reason := s.reason, down := t.down.(selected := s.down.selected, superseded := s.down.superseded)) == t;
  }

  lemma KeptBooks(s: Model, t: Model, fates: seq<Fate>)
    requires Received(s, t, fates)
    ensures t.reason == s.reason && t.down.selected == s.down.selected && t.down.superseded == s.down.superseded
  {}

  // Bodies and offers

  /** A body of the plant: what leaves the delay line is applied, or the last request still when nothing does. */
  lemma AdvanceMeans(sc: Scenario, s: Model, k: nat, selected: Option<word>)
    requires s.reason.None?
    ensures var (t, arriving) := Advance(sc, s, k, selected);
            && s.delay + [selected] == [arriving] + t.delay && Applies(t.applied, s.applied, arriving)
            && t.truth == sc.plant(k, s.truth, t.applied) && t.raised == s.raised
            && t.reason == (if LossSeen(k + 1, t.truth).Some? then LossSeen(k + 1, t.truth)
                            else if k + 1 == sc.ticks - 1 then Some(1) else None)
  {
    hide Applies, IsFinite, AbsExceeds, ActuatorStep;
    AppliesMeans(s.applied, Released(s.delay, selected).0);
  }

  /** A sample offered: generated, and exactly one of lost, refused and transmitted; a loss or a transmission against
      its draw is a forced one, and the prologue is never lost. */
  lemma SampleMeans(sc: Scenario, seed: u64, s: Model, tick: nat, prologue: bool, cached: bool, sent: bool)
    requires s.upStream == Rng.StateAfter(Rng.StreamState(seed, 0), s.upDraws) && !s.raised
    ensures var t := Offer(sc, s, tick, false, prologue, cached, sent);
            var raw := Lost(seed, 0, s.upDraws, sc.lossUp, None);
            var lost := !prologue && Lost(seed, 0, s.upDraws, sc.lossUp, sc.forcedUp(tick));
            && t.up == UpCounts(s.up.generated + 1, s.up.lost + One(lost), s.up.transmitted + One(!lost && sent),
                                s.up.txFail + One(!lost && !sent), s.up.forcedTransmit + One(!lost && sent && raw),
                                s.up.forcedDrop + One(lost && !raw))
            && t.raised == (prologue && !sent) && t.upDraws == s.upDraws + 1 && t.term == s.term
  {
    hide Lost, Rng.StreamState, Rng.StateAfter, Rng.DrawDrop;
    DrawMeans(seed, 0, s.upDraws, sc.lossUp, None);
    DrawMeans(seed, 0, s.upDraws, sc.lossUp, if prologue then Some(false) else sc.forcedUp(tick));
    LostMeans(seed, s.upDraws, sc.lossUp);
  }

  lemma LostMeans(seed: u64, draw: nat, p: real)
    ensures !Lost(seed, 0, draw, p, Some(false))
  {}

  /** A terminal notice offered is lost by its draw alone. */
  lemma NoticeMeans(sc: Scenario, seed: u64, s: Model, tick: nat, cached: bool, sent: bool)
    requires s.upStream == Rng.StateAfter(Rng.StreamState(seed, 0), s.upDraws) && !s.raised
    ensures var t, c := Offer(sc, s, tick, true, false, cached, sent), s.term;
            var lost := Lost(seed, 0, s.upDraws, sc.lossUp, None);
            && t.term == c.(upAttempts := c.upAttempts + 1, upLost := c.upLost + One(lost),
                            upTxFail := c.upTxFail + One(!lost && !sent),
                            upTransmitted := c.upTransmitted + One(!lost && sent))
            && !t.raised && t.upDraws == s.upDraws + 1 && t.up == s.up
  {
    hide Lost, Rng.StreamState, Rng.StateAfter, Rng.DrawDrop;
    DrawMeans(seed, 0, s.upDraws, sc.lossUp, None);
  }

  /** However the network behaves, the bodies end by the last but one tick of the scenario. */
  lemma {:induction false} BodiesBounded(sc: Scenario, s: Model, batches: seq<(seq<seq<byte>>, bool)>)
    requires sc.ticks >= 2
    ensures var b := RunBodies(sc, s, batches);
            |b.arriving| <= sc.ticks - 1 && (|b.arriving| == sc.ticks - 1 ==> b.over)
    decreases |batches|
  {
    hide Receive, Advance, Offer;
    if batches != [] {
      BodiesBounded(sc, s, batches[..|batches| - 1]);
    }
  }
}
