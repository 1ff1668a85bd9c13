/** The shifting slot array and the promoted candidate of free-run admission. */
module AdmissionSlots {
  import opened Basics
  import opened Admission
  import opened AdmissionRuns
  import opened AdmissionOrder

  /** The normal frame a datagram offers as candidate: it was classified current. */
  function OfferedBy(cfg: Config, s: State, packet: Packet): seq<Frame>
    requires Kept(cfg, s)
  {
    var r := ReadingOf(packet);
    if r.Sensed? && !r.frame.Terminal() && Received(cfg, s, packet).1 == Some(Current) then [r.frame] else []
  }

  function Newer(candidate: Option<Frame>, f: Frame): Option<Frame> {
    if candidate.None? || f.Tick() > candidate.value.Tick() then Some(f) else candidate
  }

  /** What a frame of a given class does to the slots and to the candidate. */
  predicate SlotEffect(cfg: Config, s: State, t: State, kind: SensorClass, f: Frame) {
    && t.open == s.open && t.expected == s.expected && t.cycles == s.cycles
    && (if kind == Future then
          && |s.future| == SLOTS && cfg.Valid() && s.expected < f.Tick() <= s.expected + cfg.skewMax
          && s.future[f.Tick() - s.expected - 1].None?
          && t.future == s.future[f.Tick() - s.expected - 1 := Some(f)]
        else t.future == s.future)
    && t.candidate == (if kind == Current && !f.Terminal() then Newer(s.candidate, f) else s.candidate)
    && (kind == Current ==> f.Tick() <= s.expected)
  }

  lemma PlacedSlots(cfg: Config, s: State, f: Frame)
    requires SlotsAt(cfg, s.future, s.expected) && Identity(s, f).None?
    ensures SlotEffect(cfg, s, Placed(cfg, s, f).0, Placed(cfg, s, f).1, f)
  {
    hide Identity, Logged, Full;
    if s.expected < f.Tick() && f.Tick() - s.expected <= cfg.skewMax {
      ParkingSlotFree(cfg, s, f);
    }
  }

  lemma ClassifiedSlots(cfg: Config, s: State, f: Frame)
    requires SlotsAt(cfg, s.future, s.expected)
    ensures SlotEffect(cfg, s, Classified(cfg, s, f).0, Classified(cfg, s, f).1, f)
  {
    hide Identity, Logged, Full, Placed;
    if Identity(s, f).None? {
      PlacedSlots(cfg, s, f);
    }
  }

  lemma ReceivedSlots(cfg: Config, s: State, packet: Packet)
    requires Kept(cfg, s)
    ensures var (t, kind) := Received(cfg, s, packet);
            && t.open == s.open && t.expected == s.expected && t.cycles == s.cycles
            && (if CanReceive(s) && ReadingOf(packet).Sensed? then
                  kind.Some? && SlotEffect(cfg, s, t, kind.value, ReadingOf(packet).frame)
                else
                  t.future == s.future && t.candidate == s.candidate && kind != Some(Future) && kind != Some(Current))
  {
    hide NormalParked, ReadingOf, CountBad, Classified, Balanced, Bounded, Ordered, Kept, Newer;
    KeptSlots(cfg, s);
    if CanReceive(s) && ReadingOf(packet).Sensed? {
      var f := ReadingOf(packet).frame;
      ClassifiedSlots(cfg, Counted(s.(cycle := s.cycle.(rxCount := s.cycle.rxCount + 1)), f), f);
    }
  }

  lemma KeptSlots(cfg: Config, s: State)
    requires Kept(cfg, s)
    ensures SlotsAt(cfg, s.future, s.expected)
  {
    hide NormalParked, Balanced, Bounded, Ordered;
  }

  // The slots as a map from tick to the first frame parked under it

  function Lookup(s: State, tick: u64): Option<Frame>
    requires |s.future| == SLOTS
  {
    if s.expected < tick <= s.expected + SLOTS then s.future[tick - s.expected - 1] else None
  }

  predicate Agrees(s: State, m: map<u64, Frame>)
    requires |s.future| == SLOTS
  {
    forall tick: u64 :: Lookup(s, tick) == if tick in m then Some(m[tick]) else None
  }

  /** Opening a cycle forgets what is due or past; parking adds a tick that was not there. */
  function Forget(m: map<u64, Frame>, expected: u64): map<u64, Frame> {
    map tick | tick in m && tick > expected :: m[tick]
  }

  function MapApply(cfg: Config, s: State, m: map<u64, Frame>, op: Op): map<u64, Frame>
    requires Kept(cfg, s)
  {
    match op
    case Begin(expected) => if CanBegin(cfg, s, expected) then Forget(m, expected) else m
    case Datagram(packet) =>
      if Received(cfg, s, packet).1 == Some(Future) && ReadingOf(packet).Sensed? then
        m[ReadingOf(packet).frame.Tick() := ReadingOf(packet).frame]
      else m
    case Finish => m
  }

  function MapOf(cfg: Config, ops: seq<Op>): map<u64, Frame>
    requires cfg.Valid()
    decreases |ops|
  {
    if ops == [] then map[]
    else MapApply(cfg, Run(cfg, ops[..|ops| - 1]), MapOf(cfg, ops[..|ops| - 1]), ops[|ops| - 1])
  }

  lemma BeginAgrees(cfg: Config, s: State, m: map<u64, Frame>, expected: u64)
    requires Kept(cfg, s) && CanBegin(cfg, s, expected) && |s.future| == SLOTS && Agrees(s, m)
    ensures |BeginCycle(cfg, s, expected).future| == SLOTS && Agrees(BeginCycle(cfg, s, expected), Forget(m, expected))
  {
    hide BeginCycle, Kept, NormalParked, TerminalParked, CanBegin;
    var d := BegunFields(cfg, s, expected);
    var t := BeginCycle(cfg, s, expected);
    forall tick: u64
      ensures Lookup(t, tick) == if tick in Forget(m, expected) then Some(Forget(m, expected)[tick]) else None
    {
      assert Lookup(s, tick) == if tick in m then Some(m[tick]) else None;
      if s.cycles == 0 {
        assert Lookup(s, tick).None?;
      }
    }
  }

  /** A parked frame's tick is never in the map already: the first frame parked under a tick stays. */
  lemma ReceiveAgrees(cfg: Config, s: State, m: map<u64, Frame>, packet: Packet)
    requires Kept(cfg, s) && |s.future| == SLOTS && Agrees(s, m)
    ensures |Received(cfg, s, packet).0.future| == SLOTS
    ensures Agrees(Received(cfg, s, packet).0, MapApply(cfg, s, m, Datagram(packet)))
    ensures Received(cfg, s, packet).1 == Some(Future) ==>
              ReadingOf(packet).Sensed? && ReadingOf(packet).frame.Tick() !in m
  {
    hide Received, Kept, NormalParked, ReadingOf, Newer;
    KeptSlots(cfg, s);
    ReceivedSlots(cfg, s, packet);
    var t := Received(cfg, s, packet).0;
    var n := MapApply(cfg, s, m, Datagram(packet));
    if Received(cfg, s, packet).1 == Some(Future) {
      var f := ReadingOf(packet).frame;
      assert Lookup(s, f.Tick()).None?;
    }
    forall tick: u64
      ensures Lookup(t, tick) == if tick in n then Some(n[tick]) else None
    {
      assert Lookup(s, tick) == if tick in m then Some(m[tick]) else None;
    }
  }

  /** Over any run the shifting array is the map. */
  lemma {:induction false} SlotsAreMap(cfg: Config, ops: seq<Op>)
    requires cfg.Valid()
    ensures |Run(cfg, ops).future| == SLOTS && Agrees(Run(cfg, ops), MapOf(cfg, ops))
    decreases |ops|
  {
    hide Run, Kept, Agrees, Received, BeginCycle, Finished, Forget;
    if ops == [] {
      StartAgrees(cfg, ops);
    } else {
      var s, m, op := Run(cfg, ops[..|ops| - 1]), MapOf(cfg, ops[..|ops| - 1]), ops[|ops| - 1];
      SlotsAreMap(cfg, ops[..|ops| - 1]);
      RunNext(cfg, ops);
      match op {
        case Begin(expected) =>
          if CanBegin(cfg, s, expected) {
            BeginAgrees(cfg, s, m, expected);
          } else {
            RefusedAgrees(cfg, s, m, expected);
          }
        case Datagram(packet) => ReceiveAgrees(cfg, s, m, packet);
        case Finish => FinishAgrees(cfg, s, m);
      }
    }
  }

  lemma StartAgrees(cfg: Config, ops: seq<Op>)
    requires cfg.Valid() && ops == []
    ensures |Run(cfg, ops).future| == SLOTS && Agrees(Run(cfg, ops), map[])
  {
    hide Kept, NormalParked;
  }

  lemma RefusedAgrees(cfg: Config, s: State, m: map<u64, Frame>, expected: u64)
    requires |s.future| == SLOTS && Agrees(s, m) && !CanBegin(cfg, s, expected)
    ensures |BeginCycle(cfg, s, expected).future| == SLOTS && Agrees(BeginCycle(cfg, s, expected), m)
  {
    hide CanBegin, Shift, Opened;
  }

  lemma FinishAgrees(cfg: Config, s: State, m: map<u64, Frame>)
    requires |s.future| == SLOTS && Agrees(s, m)
    ensures |Finished(cfg, s).future| == SLOTS && Agrees(Finished(cfg, s), m)
  {
    hide Staleness;
  }

  // The candidate of a cycle

  function Batch(cfg: Config, s: State, packets: seq<Packet>): (t: State)
    requires Kept(cfg, s)
    ensures Kept(cfg, t)
    decreases |packets|
  {
    hide Kept, Received;
    if packets == [] then s
    else
      var n := Batch(cfg, s, packets[..|packets| - 1]);
      KeptSlots(cfg, n);
      ReceivedKeeps(cfg, n, packets[|packets| - 1]);
      Received(cfg, n, packets[|packets| - 1]).0
  }

  /** Everything offered as candidate while a batch is received. */
  function Offers(cfg: Config, s: State, packets: seq<Packet>): seq<Frame>
    requires Kept(cfg, s)
    decreases |packets|
  {
    hide Kept, Received, OfferedBy;
    if packets == [] then []
    else
      Offers(cfg, s, packets[..|packets| - 1])
        + OfferedBy(cfg, Batch(cfg, s, packets[..|packets| - 1]), packets[|packets| - 1])
  }

  /** The choice is the first of the newest: no offer is newer, and none before it is as new. */
  ghost predicate FirstNewest(offers: seq<Frame>, choice: Option<Frame>) {
    if offers == [] then choice.None?
    else exists k :: 0 <= k < |offers| && choice == Some(offers[k])
                     && (forall j | 0 <= j < |offers| :: offers[j].Tick() <= offers[k].Tick())
                     && (forall j | 0 <= j < k :: offers[j].Tick() < offers[k].Tick())
  }

  lemma OfferNext(offers: seq<Frame>, choice: Option<Frame>, f: Frame)
    requires FirstNewest(offers, choice)
    ensures FirstNewest(offers + [f], Newer(choice, f))
  {
    var all := offers + [f];
    if offers == [] {
      assert all[0] == f;
    } else {
      var k :| 0 <= k < |offers| && choice == Some(offers[k])
               && (forall j | 0 <= j < |offers| :: offers[j].Tick() <= offers[k].Tick())
               && (forall j | 0 <= j < k :: offers[j].Tick() < offers[k].Tick());
      var w := if f.Tick() > offers[k].Tick() then |offers| else k;
      assert Newer(choice, f) == Some(all[w]);
    }
  }

  function Due(s: State): seq<Frame> { if s.candidate.Some? then [s.candidate.value] else [] }

  /** The candidate of a cycle is the first newest among the due frame and the offers of the batch. */
  lemma {:induction false} ChoiceIsNewest(cfg: Config, s: State, packets: seq<Packet>)
    requires Kept(cfg, s)
    ensures FirstNewest(Due(s) + Offers(cfg, s, packets), Batch(cfg, s, packets).candidate)
    decreases |packets|
  {
    hide Kept, Received, FirstNewest, ReadingOf;
    if packets == [] {
      assert Due(s) + [] == Due(s);
      DueAlone(s);
    } else {
      var n, p := Batch(cfg, s, packets[..|packets| - 1]), packets[|packets| - 1];
      var before := Due(s) + Offers(cfg, s, packets[..|packets| - 1]);
      ChoiceIsNewest(cfg, s, packets[..|packets| - 1]);
      ReceivedOffers(cfg, n, p);
      assert Due(s) + Offers(cfg, s, packets) == before + OfferedBy(cfg, n, p);
      if OfferedBy(cfg, n, p) != [] {
        OfferNext(before, n.candidate, OfferedBy(cfg, n, p)[0]);
        assert OfferedBy(cfg, n, p) == [OfferedBy(cfg, n, p)[0]];
      } else {
        assert before + [] == before;
      }
    }
  }

  lemma DueAlone(s: State)
    ensures FirstNewest(Due(s), s.candidate)
  {
    if s.candidate.Some? {
      assert Due(s)[0] == s.candidate.value;
    }
  }

  lemma ReceivedOffers(cfg: Config, s: State, packet: Packet)
    requires Kept(cfg, s)
    ensures var t, o := Received(cfg, s, packet).0, OfferedBy(cfg, s, packet);
            && t.candidate == (if o == [] then s.candidate else Newer(s.candidate, o[0]))
            && (o != [] ==> o[0].Tick() <= s.expected)
            && t.expected == s.expected && t.open == s.open && t.cycles == s.cycles
  {
    hide Kept, Received, ReadingOf, Newer;
    KeptSlots(cfg, s);
    ReceivedSlots(cfg, s, packet);
    ReceivedClosed(cfg, s, packet);
  }

  lemma ReceivedClosed(cfg: Config, s: State, packet: Packet)
    requires Kept(cfg, s)
    ensures |s.future| == SLOTS && cfg.Valid() && (!CanReceive(s) ==> Received(cfg, s, packet).1.None?)
  {
    hide Kept, Classified, ReadingOf;
    KeptSlots(cfg, s);
  }

  // Promotion: consecutive cycles

  /** A parked frame stays in its slot, and a due candidate stays the candidate, whatever else arrives. */
  lemma {:induction false} BatchStays(cfg: Config, s: State, packets: seq<Packet>, i: nat)
    requires Kept(cfg, s) && i < SLOTS
    ensures var t := Batch(cfg, s, packets);
            && t.expected == s.expected && t.open == s.open && t.cycles == s.cycles && |t.future| == |s.future| == SLOTS
            && (s.future[i].Some? ==> t.future[i] == s.future[i])
            && (s.candidate.Some? && s.candidate.value.Tick() == s.expected ==> t.candidate == s.candidate)
    decreases |packets|
  {
    hide Kept, Received, ReadingOf;
    KeptSlots(cfg, s);
    if packets != [] {
      var n, p := Batch(cfg, s, packets[..|packets| - 1]), packets[|packets| - 1];
      BatchStays(cfg, s, packets[..|packets| - 1], i);
      KeptSlots(cfg, n);
      ReceivedSlots(cfg, n, p);
      ReceivedOffers(cfg, n, p);
    }
  }

  /** One whole cycle at the next expected tick. */
  function CycleOf(cfg: Config, s: State, expected: u64, packets: seq<Packet>): (t: State)
    requires Kept(cfg, s)
    ensures Kept(cfg, t) && !t.open
  {
    BegunKeeps(cfg, s, expected);
    var o := BeginCycle(cfg, s, expected);
    var b := Batch(cfg, o, packets);
    FinishedKeeps(cfg, b);
    Finished(cfg, b)
  }

  lemma CycleFields(cfg: Config, s: State, packets: seq<Packet>, i: nat)
    requires Kept(cfg, s) && !s.open && s.cycles > 0 && s.expected < MAX64 && i < SLOTS
    requires s.future[i].Some?
    ensures var t := CycleOf(cfg, s, s.expected + 1, packets);
            && !t.open && t.expected == s.expected + 1 && t.cycles == s.cycles + 1 && |t.future| == SLOTS
            && (i > 0 ==> t.future[i - 1] == s.future[i])
            && (i == 0 && !s.future[0].value.Terminal() ==>
                  && t.candidate == s.future[0]
                  && (if s.future[0].value.Valid() then t.cycle.admitted == Some(s.future[0].value.sample)
                      else t.cycle.admitted.None? && t.cycle.counts.invalid > 0))
  {
    hide Kept, BeginCycle, Batch, NormalParked, TerminalParked, Staleness;
    KeptSlots(cfg, s);
    NextCanBegin(cfg, s);
    var d := BegunFields(cfg, s, s.expected + 1);
    BegunKeeps(cfg, s, s.expected + 1);
    var o := BeginCycle(cfg, s, s.expected + 1);
    BatchStays(cfg, o, packets, if i > 0 then i - 1 else 0);
    OpenAdmits(cfg, Batch(cfg, o, packets));
  }

  lemma NextCanBegin(cfg: Config, s: State)
    requires Kept(cfg, s) && !s.open && s.cycles > 0 && s.expected < MAX64
    ensures CanBegin(cfg, s, s.expected + 1)
  {
    hide NormalParked;
  }

  lemma OpenAdmits(cfg: Config, s: State)
    requires Kept(cfg, s)
    ensures s.open ==> s.cycle.admitted.None?
  {
    hide NormalParked, SlotsAt, Balanced, Bounded;
  }

  /** Consecutive cycles from tick `first` on, one per batch. */
  function Cycles(cfg: Config, s: State, first: nat, batches: seq<seq<Packet>>): (t: State)
    requires Kept(cfg, s) && first + |batches| <= TWO64
    ensures Kept(cfg, t)
    decreases |batches|
  {
    hide Kept, CycleOf;
    if batches == [] then s else Cycles(cfg, CycleOf(cfg, s, first, batches[0]), first + 1, batches[1..])
  }

  /** With consecutive cycles a parked normal frame becomes the candidate exactly in the cycle of its own tick,
      and is that cycle's choice whatever else arrives. */
  lemma {:induction false} ParkedIsPromoted(cfg: Config, s: State, i: nat, batches: seq<seq<Packet>>)
    requires Kept(cfg, s) && !s.open && s.cycles > 0 && i < SLOTS && |s.future| == SLOTS
    requires s.future[i].Some? && !s.future[i].value.Terminal() && |batches| == i + 1
    requires s.expected + |batches| <= MAX64
    ensures var t, f := Cycles(cfg, s, s.expected + 1, batches), s.future[i].value;
            && t.expected == f.Tick() && t.candidate == Some(f)
            && (if f.Valid() then t.cycle.admitted == Some(f.sample)
                else t.cycle.admitted.None? && t.cycle.counts.invalid > 0)
    decreases i
  {
    hide Kept, CycleOf;
    KeptSlots(cfg, s);
    CycleFields(cfg, s, batches[0], i);
    var n := CycleOf(cfg, s, s.expected + 1, batches[0]);
    if i > 0 {
      KeptSlots(cfg, n);
      ParkedIsPromoted(cfg, n, i - 1, batches[1..]);
    } else {
      assert batches[1..] == [];
    }
  }

  /** Every accepted opening is of the next tick. */
  predicate Steady(cfg: Config, ops: seq<Op>)
    requires cfg.Valid()
    decreases |ops|
  {
    ops == [] ||
      (Steady(cfg, ops[..|ops| - 1])
       && var s, op := Run(cfg, ops[..|ops| - 1]), ops[|ops| - 1];
          op.Begin? && CanBegin(cfg, s, op.expected) && s.cycles > 0 ==> op.expected == s.expected + 1)
  }

  predicate NothingExpired(s: State) {
    s.terminals.futureExpired == 0 && s.episode.futureExpired == 0 && s.recorded.futureExpired == 0
    && s.cycle.counts.futureExpired == 0
  }

  /** With consecutive cycles no parked frame ever expires. */
  lemma {:induction false} SteadyNeverExpires(cfg: Config, ops: seq<Op>)
    requires cfg.Valid() && Steady(cfg, ops)
    ensures NothingExpired(Run(cfg, ops))
    decreases |ops|
  {
    hide Run, Kept, Received, BeginCycle, Finished, NothingExpired;
    if ops == [] {
      StartUnexpired(cfg, ops);
    } else {
      var s, op := Run(cfg, ops[..|ops| - 1]), ops[|ops| - 1];
      SteadyNeverExpires(cfg, ops[..|ops| - 1]);
      KeptSlots(cfg, s);
      RunNext(cfg, ops);
      match op {
        case Begin(expected) => BegunUnexpired(cfg, s, expected);
        case Datagram(packet) => ReceivedUnexpired(cfg, s, packet);
        case Finish => FinishedUnexpired(cfg, s);
      }
    }
  }

  lemma StartUnexpired(cfg: Config, ops: seq<Op>)
    requires cfg.Valid() && ops == []
    ensures NothingExpired(Run(cfg, ops))
  {
    hide Kept;
  }

  lemma BegunUnexpired(cfg: Config, s: State, expected: u64)
    requires Kept(cfg, s) && NothingExpired(s) && |s.future| == SLOTS
    requires CanBegin(cfg, s, expected) && s.cycles > 0 ==> expected == s.expected + 1
    ensures NothingExpired(BeginCycle(cfg, s, expected))
  {
    hide Kept, Shift, Opened, NormalParked, TerminalParked;
    if CanBegin(cfg, s, expected) {
      hide BeginCycle;
      var d := BegunFields(cfg, s, expected);
      if s.cycles > 0 {
        NothingParked(s.future[..Min(SLOTS, d - 1)]);
      } else {
        NoneParked(s.future[..Min(SLOTS, d - 1)]);
        NoTerminalParked(s.future[..Min(SLOTS, d - 1)]);
      }
    }
  }

  lemma {:induction false} NoTerminalParked(a: seq<Option<Frame>>)
    requires forall i | 0 <= i < |a| :: a[i].None?
    ensures TerminalParked(a) == 0
    decreases |a|
  {
    if a != [] {
      NoTerminalParked(a[..|a| - 1]);
    }
  }

  lemma ReceivedUnexpired(cfg: Config, s: State, packet: Packet)
    requires |s.future| == SLOTS && cfg.Valid() && NothingExpired(s)
    ensures NothingExpired(Received(cfg, s, packet).0)
  {
    hide ReadingOf, Classified;
    if CanReceive(s) && ReadingOf(packet).Sensed? {
      var n := s.(cycle := s.cycle.(rxCount := s.cycle.rxCount + 1));
      ClassifiedUnexpired(cfg, Counted(n, ReadingOf(packet).frame), ReadingOf(packet).frame);
    }
  }

  lemma ClassifiedUnexpired(cfg: Config, s: State, f: Frame)
    requires |s.future| == SLOTS && cfg.Valid() && NothingExpired(s)
    ensures NothingExpired(Classified(cfg, s, f).0)
  {
    hide Identity, Remember, Resolved;
    ResolvedUnexpired(cfg, s.(terminalSeen := if f.Terminal() then s.terminalSeen + [f] else s.terminalSeen,
                              newest := Remember(s.newest, f)), f);
  }

  lemma ResolvedUnexpired(cfg: Config, s: State, f: Frame)
    requires |s.future| == SLOTS && cfg.Valid() && NothingExpired(s)
    ensures NothingExpired(Resolved(cfg, s, f).0)
  {
    hide Notify, LegalReason;
  }

  lemma FinishedUnexpired(cfg: Config, s: State)
    requires NothingExpired(s)
    ensures NothingExpired(Finished(cfg, s))
  {
    hide Staleness;
  }
}
