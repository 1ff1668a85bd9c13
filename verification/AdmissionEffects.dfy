/** What one datagram does to free-run admission, class by class: counters, discards, faults and notices. */
module AdmissionEffects {
  import opened Basics
  import opened Admission
  import opened AdmissionRuns
  import opened AdmissionIdentity
  import AdmissionSlots
  import Frames

  // Classes

  /** Which class a frame gets, in order of the questions asked. */
  lemma ClassMeans(cfg: Config, s: State, f: Frame)
    requires |s.future| == SLOTS && cfg.Valid()
    ensures var kind := Classified(cfg, s, f).1;
            var repeats := !Unusable(f) && Identity(s, f).Some?;
            var fresh_ := !Unusable(f) && !repeats;
            var stale := fresh_ && !f.Terminal() && s.held.Some? && f.Tick() <= s.held.value.tick;
            && (kind == Nonfinite <==> Unusable(f))
            && (kind == Duplicate || kind == Conflict <==> repeats)
            && (kind == Old <==> stale)
            && (kind == Current <==> fresh_ && !stale && f.Tick() <= s.expected)
            && (kind == Future <==> fresh_ && !stale && s.expected < f.Tick() <= s.expected + cfg.skewMax)
            && (kind == ExcessiveSkew <==> fresh_ && !stale && f.Tick() > s.expected + cfg.skewMax)
  {
    hide Identity, Logged, Full, Presented, Repeated;
  }

  // Counters

  /** The one counter a normal frame of a class adds to, beside the receipts. */
  function Tallied(c: Counts, kind: SensorClass, contested: bool): Counts {
    match kind
    case Nonfinite => c.(nonfinite := c.nonfinite + 1)
    case Duplicate => c.(duplicate := c.duplicate + 1)
    case Conflict => c.(conflict := c.conflict + 1)
    case Old => c.(aged := c.aged + 1)
    case ExcessiveSkew => c.(skewExcess := c.skewExcess + 1)
    case Current => if contested then c.(superseded := c.superseded + 1) else c
    case _ => c
  }

  function NoticeTallied(c: TerminalCounts, kind: SensorClass, illegal: bool): TerminalCounts {
    var d := if illegal then c.(illegalReason := c.illegalReason + 1) else c;
    match kind
    case Duplicate => d.(duplicate := d.duplicate + 1)
    case Conflict => d.(conflict := d.conflict + 1)
    case ExcessiveSkew => d.(skewExcess := d.skewExcess + 1)
    case _ => d
  }

  /** A notice whose tick has come is judged by its reason, each time it comes. */
  predicate Illegal(s: State, f: Frame, kind: SensorClass) {
    f.Terminal() && f.Tick() <= s.expected && kind != Conflict && f.sample.reason !in {1, 2, 3}
  }

  /** The loser of a contest for the candidate, or the frame itself. */
  function Discards(s: State, f: Frame, kind: SensorClass): seq<Discard> {
    if f.Terminal() then []
    else match kind
      case Nonfinite => [Discard(Nonfinite, f.sample.sendNs)]
      case Old => [Discard(Old, f.sample.sendNs)]
      case ExcessiveSkew => [Discard(ExcessiveSkew, f.sample.sendNs)]
      case Current =>
        if s.candidate.None? then []
        else [Discard(Current, if f.Tick() > s.candidate.value.Tick() then s.candidate.value.sample.sendNs
                               else f.sample.sendNs)]
      case _ => []
  }

  /** What a frame of a class changes in the books. */
  predicate Booked(s: State, t: State, f: Frame, kind: SensorClass) {
    && t.cycle.counts == (if f.Terminal() then s.cycle.counts
                          else Tallied(s.cycle.counts, kind, s.candidate.Some?))
    && t.terminals == (if f.Terminal() then NoticeTallied(s.terminals, kind, Illegal(s, f, kind)) else s.terminals)
    && t.cycle.discards == s.cycle.discards + Discards(s, f, kind)
    && t.integrity == (s.integrity || kind in {Conflict, ExcessiveSkew} || Illegal(s, f, kind))
    && t.held == s.held && t.latch == s.latch && t.expected == s.expected && t.cycles == s.cycles && t.open == s.open
  }

  lemma PresentedBooked(s: State, f: Frame)
    requires |s.cycle.discards| < DISCARDS && f.Tick() <= s.expected
    ensures Booked(s, Presented(s, f), f, Current)
  {}

  lemma ResolvedBooked(cfg: Config, s: State, f: Frame)
    requires |s.future| == SLOTS && cfg.Valid() && |s.cycle.discards| < DISCARDS
    ensures Booked(s, Resolved(cfg, s, f).0, f, Resolved(cfg, s, f).1)
  {
    hide Presented;
    if Resolved(cfg, s, f).1 == Current {
      PresentedBooked(s, f);
    }
  }

  lemma RepeatedBooked(s: State, f: Frame, same: bool)
    ensures Booked(s, Repeated(s, f, same), f, if same then Duplicate else Conflict)
  {}

  lemma ClassifiedBooked(cfg: Config, s: State, f: Frame)
    requires |s.future| == SLOTS && cfg.Valid() && |s.cycle.discards| < DISCARDS
    ensures Booked(s, Classified(cfg, s, f).0, f, Classified(cfg, s, f).1)
  {
    hide Identity, Resolved, Repeated, Booked;
    if Unusable(f) {
      UnusableBooked(cfg, s, f);
    } else if Identity(s, f).Some? {
      RepeatedBooked(s, f, Identity(s, f).value.payload == f.payload);
    } else {
      var p := s.(terminalSeen := if f.Terminal() then s.terminalSeen + [f] else s.terminalSeen,
                  newest := Remember(s.newest, f));
      ResolvedBooked(cfg, p, f);
      SameBooks(s, p, Resolved(cfg, p, f).0, f, Resolved(cfg, p, f).1);
    }
  }

  lemma UnusableBooked(cfg: Config, s: State, f: Frame)
    requires |s.future| == SLOTS && cfg.Valid() && |s.cycle.discards| < DISCARDS && Unusable(f)
    ensures Booked(s, Classified(cfg, s, f).0, f, Nonfinite) && Classified(cfg, s, f).1 == Nonfinite
  {
    hide Identity;
  }

  /** Remembering a frame changes no book. */
  lemma SameBooks(s: State, p: State, t: State, f: Frame, kind: SensorClass)
    requires p == s.(terminalSeen := p.terminalSeen, newest := p.newest) && Booked(p, t, f, kind)
    ensures Booked(s, t, f, kind)
  {}

  /** The receipt itself: one more received, of its sort; the rest is as before. */
  predicate Entered(s: State, t: State, f: Frame) {
    && t.cycle.rxCount == s.cycle.rxCount + 1 && t.cycle.discards == s.cycle.discards && t.integrity == s.integrity
    && t.candidate == s.candidate && t.expected == s.expected && t.held == s.held && t.latch == s.latch
    && t.cycle.counts == (if f.Terminal() then s.cycle.counts
                          else s.cycle.counts.(received := s.cycle.counts.received + 1))
    && t.terminals == (if f.Terminal() then s.terminals.(receivedRaw := s.terminals.receivedRaw + 1) else s.terminals)
  }

  lemma ArrivedEnters(s: State, f: Frame)
    ensures Entered(s, Arrived(s, f), f)
  {}

  /** Over any run: a frame that a cycle has room for is received, and changes the counters, the discard list and the
      integrity of the admission by its class and by nothing else. */
  lemma ReceiptMeans(cfg: Config, ops: seq<Op>, packet: Packet)
    requires cfg.Valid() && CanReceive(Run(cfg, ops)) && ReadingOf(packet).Sensed?
    ensures var s, f := Run(cfg, ops), ReadingOf(packet).frame;
            var a, (t, kind) := Arrived(s, f), Received(cfg, s, packet);
            kind.Some? && Entered(s, a, f) && Booked(a, t, f, kind.value)
  {
    hide Run, Kept, Received, Classified, ReadingOf, Counted, Booked, Entered;
    var s, f := Run(cfg, ops), ReadingOf(packet).frame;
    ReceivedClass(cfg, s, packet);
    BuffersNeverOverflow(cfg, ops);
    NotFull(s);
    ArrivedEnters(s, f);
    ArrivedSlots(s, f);
    ClassifiedBooked(cfg, Arrived(s, f), f);
  }

  lemma NotFull(s: State)
    requires !Full(s.cycle) && |s.cycle.discards| <= 9
    ensures |s.cycle.discards| < DISCARDS
  {}

  lemma ArrivedSlots(s: State, f: Frame)
    ensures Arrived(s, f).future == s.future && Arrived(s, f).cycle.discards == s.cycle.discards
  {}

  /** A datagram that is no sensor frame is malformed, counted under what is wrong with it, and an integrity fault. */
  lemma MalformedMeans(cfg: Config, s: State, packet: Packet)
    requires Kept(cfg, s) && CanReceive(s) && ReadingOf(packet).Garbled?
    ensures |s.future| == SLOTS && cfg.Valid()
    ensures var (t, kind) := Received(cfg, s, packet);
            var e, c, d := ReadingOf(packet).error, s.cycle.counts, t.cycle.counts;
            && kind == Some(Malformed) && t.integrity && t.cycle.rxCount == s.cycle.rxCount + 1
            && d == c.(badSync := c.badSync + (if e == Frames.BadSync then 1 else 0),
                       badVersion := c.badVersion + (if e == Frames.BadVersion then 1 else 0),
                       badType := c.badType + (if e == Frames.BadType then 1 else 0),
                       badLength := c.badLength + (if e == Frames.BadLength then 1 else 0),
                       badCrc := c.badCrc + (if e == Frames.BadCrc then 1 else 0))
            && (packet.truncated ==> e == Frames.BadLength)
  {
    hide NormalParked, Balanced, Bounded, Ordered, Classified;
  }

  // The start of a cycle

  predicate IllegalNotice(slot: Option<Frame>) {
    slot.Some? && slot.value.Terminal() && slot.value.sample.reason !in {1, 2, 3}
  }

  lemma ShiftOneFaults(cfg: Config, s: State, slots: seq<Option<Frame>>, old_: u64, k: nat)
    requires SlotsAt(cfg, slots, old_) && s.expected == old_ + 1 && k < SLOTS && |s.future| == SLOTS
    requires k == 0 ==> s.candidate.None?
    ensures ShiftOne(cfg, s, slots[k]).integrity == (s.integrity || (k == 0 && IllegalNotice(slots[0])))
    ensures ShiftOne(cfg, s, slots[k]).expected == s.expected
  {}

  lemma {:induction false} ShiftFaults(cfg: Config, s: State, slots: seq<Option<Frame>>, old_: u64, k: nat)
    requires SlotsAt(cfg, slots, old_) && s.expected == old_ + 1 && k <= SLOTS && |s.future| == SLOTS
    requires s.candidate.None?
    ensures cfg.Valid()
    ensures var t := Shift(cfg, s, slots[..k]);
            t.integrity == (s.integrity || (k > 0 && IllegalNotice(slots[0]))) && t.expected == s.expected
    decreases k
  {
    hide ShiftOne;
    if k > 0 {
      ShiftFaults(cfg, s, slots, old_, k - 1);
      assert slots[..k][..k - 1] == slots[..k - 1];
      if k == 1 { assert Shift(cfg, s, slots[..0]) == s; }
      ShiftOneFaults(cfg, Shift(cfg, s, slots[..k - 1]), slots, old_, k - 1);
    }
  }

  lemma {:induction false} FaultStays(cfg: Config, s: State, slots: seq<Option<Frame>>)
    requires |s.future| == SLOTS && cfg.Valid() && s.integrity
    ensures Shift(cfg, s, slots).integrity
    decreases |slots|
  {
    if slots != [] {
      FaultStays(cfg, s, slots[..|slots| - 1]);
    }
  }

  /** Opening a cycle is a fault exactly when it is refused, leaves a gap, or brings a notice with no legal reason. */
  lemma OpeningMeans(cfg: Config, s: State, expected: u64)
    requires Kept(cfg, s) && !s.integrity
    ensures |s.future| == SLOTS
    ensures BeginCycle(cfg, s, expected).integrity <==>
              || !CanBegin(cfg, s, expected) || (s.cycles > 0 && expected != s.expected + 1)
              || (s.cycles > 0 && IllegalNotice(s.future[0]))
  {
    hide NormalParked, Balanced, Bounded, Ordered, Shift, ShiftOne;
    AdmissionSlots.KeptSlots(cfg, s);
    if CanBegin(cfg, s, expected) {
      var o := Opened(cfg, s, expected);
      assert s.future[..SLOTS] == s.future;
      if s.cycles > 0 && expected == s.expected + 1 {
        ShiftFaults(cfg, o, s.future, s.expected, SLOTS);
      } else if s.cycles > 0 {
        FaultStays(cfg, o, s.future);
      } else {
        ShiftEmpty(cfg, o, s.future);
      }
    }
  }

  // Notices

  /** The notice a datagram presents: a terminal frame whose tick has come and that is no conflict. */
  function PresentedBy(cfg: Config, s: State, packet: Packet): seq<Frame>
    requires Kept(cfg, s)
  {
    var r := ReadingOf(packet);
    if r.Sensed? && r.frame.Terminal() && r.frame.Tick() <= s.expected
       && Received(cfg, s, packet).1 in {Some(Current), Some(Duplicate)} then [r.frame] else []
  }

  function Notices(cfg: Config, s: State, packets: seq<Packet>): seq<Frame>
    requires Kept(cfg, s)
    decreases |packets|
  {
    hide Kept, Received, PresentedBy;
    if packets == [] then []
    else
      Notices(cfg, s, packets[..|packets| - 1])
        + PresentedBy(cfg, AdmissionSlots.Batch(cfg, s, packets[..|packets| - 1]), packets[|packets| - 1])
  }

  lemma NotifyIsNewer(candidate: Option<Frame>, f: Frame)
    ensures Notify(None, candidate, f) == AdmissionSlots.Newer(candidate, f)
  {}

  lemma ClassifiedNotice(cfg: Config, s: State, f: Frame)
    requires |s.future| == SLOTS && cfg.Valid()
    ensures var (t, kind) := Classified(cfg, s, f);
            && t.latch == s.latch
            && t.terminalCandidate
               == (if f.Terminal() && f.Tick() <= s.expected && (kind == Current || kind == Duplicate)
                   then Notify(s.latch, s.terminalCandidate, f) else s.terminalCandidate)
  {
    hide Identity, Logged, Full, Notify, Remember;
  }

  lemma ReceivedNotice(cfg: Config, s: State, packet: Packet)
    requires Kept(cfg, s)
    ensures |s.future| == SLOTS && cfg.Valid()
    ensures var t, o := Received(cfg, s, packet).0, PresentedBy(cfg, s, packet);
            && t.latch == s.latch
            && t.terminalCandidate
               == if o == [] then s.terminalCandidate else Notify(s.latch, s.terminalCandidate, o[0])
  {
    hide Kept, Classified, ReadingOf, Notify, Counted, CountBad;
    ReceivedClass(cfg, s, packet);
    if CanReceive(s) && ReadingOf(packet).Sensed? {
      ArrivedNotices(s, ReadingOf(packet).frame);
      ClassifiedNotice(cfg, Arrived(s, ReadingOf(packet).frame), ReadingOf(packet).frame);
    }
  }

  lemma ArrivedNotices(s: State, f: Frame)
    ensures var a := Arrived(s, f);
            a.latch == s.latch && a.terminalCandidate == s.terminalCandidate && a.expected == s.expected
            && a.future == s.future
  {}

  function DueNotice(s: State): seq<Frame> { if s.terminalCandidate.Some? then [s.terminalCandidate.value] else [] }

  /** As long as nothing is latched, the notice a cycle will latch is the first newest of the due one and those its
      batch presents. */
  lemma {:induction false} NoticeIsNewest(cfg: Config, s: State, packets: seq<Packet>)
    requires Kept(cfg, s) && s.latch.None?
    ensures var t := AdmissionSlots.Batch(cfg, s, packets);
            t.latch.None? && AdmissionSlots.FirstNewest(DueNotice(s) + Notices(cfg, s, packets), t.terminalCandidate)
    decreases |packets|
  {
    hide Kept, Received, AdmissionSlots.FirstNewest, ReadingOf, Notify, AdmissionSlots.Newer;
    if packets == [] {
      assert DueNotice(s) + [] == DueNotice(s);
      DueNoticeAlone(s);
    } else {
      var n, p := AdmissionSlots.Batch(cfg, s, packets[..|packets| - 1]), packets[|packets| - 1];
      var before := DueNotice(s) + Notices(cfg, s, packets[..|packets| - 1]);
      NoticeIsNewest(cfg, s, packets[..|packets| - 1]);
      ReceivedNotice(cfg, n, p);
      assert DueNotice(s) + Notices(cfg, s, packets) == before + PresentedBy(cfg, n, p);
      if PresentedBy(cfg, n, p) != [] {
        NotifyIsNewer(n.terminalCandidate, PresentedBy(cfg, n, p)[0]);
        AdmissionSlots.OfferNext(before, n.terminalCandidate, PresentedBy(cfg, n, p)[0]);
        assert PresentedBy(cfg, n, p) == [PresentedBy(cfg, n, p)[0]];
      } else {
        assert before + [] == before;
      }
    }
  }

  lemma DueNoticeAlone(s: State)
    ensures AdmissionSlots.FirstNewest(DueNotice(s), s.terminalCandidate)
  {
    if s.terminalCandidate.Some? {
      assert DueNotice(s)[0] == s.terminalCandidate.value;
    }
  }

  /** What a closed cycle reports: the sample of its candidate if it claims one, the latched notice, old or new. */
  lemma ClosingMeans(cfg: Config, s: State)
    requires s.open
    ensures var t := Finished(cfg, s);
            && t.latch == (if s.latch.Some? then s.latch else s.terminalCandidate)
            && t.cycle.terminal == (if t.latch.None? then s.cycle.terminal
                                    else Some(Notice(t.latch.value.sample.tick, t.latch.value.sample.reason)))
            && t.cycle.admitted
               == (if s.candidate.Some? && s.candidate.value.Valid() then Some(s.candidate.value.sample)
                   else s.cycle.admitted)
            && t.held == (if s.candidate.Some? && s.candidate.value.Valid() then Some(s.candidate.value.sample)
                          else s.held)
            && t.cycle.counts
               == (if s.candidate.None? then s.cycle.counts
                   else if s.candidate.value.Valid() then s.cycle.counts.(consumed := s.cycle.counts.consumed + 1)
                   else s.cycle.counts.(invalid := s.cycle.counts.invalid + 1))
            && t.integrity == s.integrity
  {
    hide Staleness, Counts.Add;
  }
}
