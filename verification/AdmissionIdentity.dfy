/** Identity in free-run admission: what makes a datagram a duplicate or a conflict, and what each class counts. */
module AdmissionIdentity {
  import opened Basics
  import opened Admission
  import opened AdmissionRuns
  import AdmissionSlots

  // What a run has heard

  /** The frame of a datagram that a cycle had room for. */
  function HeardBy(cfg: Config, s: State, op: Op): seq<Frame> {
    if op.Datagram? && CanReceive(s) && ReadingOf(op.packet).Sensed? then [ReadingOf(op.packet).frame] else []
  }

  /** Every well-formed frame received so far, in order. */
  function Heard(cfg: Config, ops: seq<Op>): seq<Frame>
    requires cfg.Valid()
    decreases |ops|
  {
    if ops == [] then []
    else
      Heard(cfg, ops[..|ops| - 1]) + HeardBy(cfg, Run(cfg, ops[..|ops| - 1]), ops[|ops| - 1])
  }

  function FramesOf(heard: seq<Frame>): set<Frame> { set f | f in heard }

  predicate Among(f: Option<Frame>, known: set<Frame>) { f.Some? ==> f.value in known }

  /** Everything the admission remembers was received. */
  predicate AllHeard(s: State, known: set<Frame>) {
    && Among(s.newest, known) && Among(s.due, known) && Among(s.candidate, known) && Among(s.terminalCandidate, known)
    && Among(s.latch, known) && (forall i | 0 <= i < |s.future| :: Among(s.future[i], known))
    && (forall i | 0 <= i < |s.terminalSeen| :: s.terminalSeen[i] in known)
  }

  lemma HeardMore(s: State, known: set<Frame>, more: set<Frame>)
    requires AllHeard(s, known)
    ensures AllHeard(s, known + more)
  {}

  lemma PresentedHeard(s: State, f: Frame, known: set<Frame>)
    requires AllHeard(s, known) && f in known
    ensures AllHeard(Presented(s, f), known) && Presented(s, f).newest == s.newest
    ensures Presented(s, f).future == s.future
  {
    hide Logged, Full, LegalReason;
  }

  lemma ShiftOneHeard(cfg: Config, s: State, slot: Option<Frame>, known: set<Frame>)
    requires AllHeard(s, known) && Among(slot, known) && |s.future| == SLOTS && cfg.Valid()
    ensures AllHeard(ShiftOne(cfg, s, slot), known) && ShiftOne(cfg, s, slot).newest == s.newest
  {
    hide Presented, AllHeard, Among;
    if slot.Some? {
      var f := slot.value;
      AmongMeans(slot, known);
      if f.Tick() == s.expected {
        DueHeard(s, f, known);
        PresentedHeard(s.(due := Some(f)), f, known);
      } else if s.expected < f.Tick() <= s.expected + cfg.skewMax {
        ParkedHeard(s, f.Tick() - s.expected - 1, f, known);
      } else {
        Unmoved(s, ShiftOne(cfg, s, slot), known);
      }
    }
  }

  lemma AmongMeans(f: Option<Frame>, known: set<Frame>)
    requires Among(f, known)
    ensures f.Some? ==> f.value in known
  {}

  lemma DueHeard(s: State, f: Frame, known: set<Frame>)
    requires AllHeard(s, known) && f in known
    ensures AllHeard(s.(due := Some(f)), known)
  {}

  lemma ParkedHeard(s: State, i: nat, f: Frame, known: set<Frame>)
    requires AllHeard(s, known) && f in known && i < |s.future|
    ensures AllHeard(s.(future := s.future[i := Some(f)]), known)
  {}

  /** Counters, flags and the cycle's record are not frames. */
  lemma Unmoved(s: State, t: State, known: set<Frame>)
    requires AllHeard(s, known)
    requires t == s.(integrity := t.integrity, terminals := t.terminals, cycle := t.cycle)
    ensures AllHeard(t, known)
  {}

  lemma {:induction false} ShiftHeard(cfg: Config, s: State, slots: seq<Option<Frame>>, known: set<Frame>)
    requires AllHeard(s, known) && |s.future| == SLOTS && cfg.Valid()
    requires forall i | 0 <= i < |slots| :: Among(slots[i], known)
    ensures AllHeard(Shift(cfg, s, slots), known) && Shift(cfg, s, slots).newest == s.newest
    decreases |slots|
  {
    hide AllHeard, ShiftOne, Among;
    if slots != [] {
      ShiftHeard(cfg, s, slots[..|slots| - 1], known);
      ShiftOneHeard(cfg, Shift(cfg, s, slots[..|slots| - 1]), slots[|slots| - 1], known);
    }
  }

  lemma BegunHeard(cfg: Config, s: State, expected: u64, known: set<Frame>)
    requires AllHeard(s, known) && |s.future| == SLOTS
    ensures AllHeard(BeginCycle(cfg, s, expected), known) && BeginCycle(cfg, s, expected).newest == s.newest
  {
    hide NormalParked, Shift;
    if CanBegin(cfg, s, expected) {
      ShiftHeard(cfg, Opened(cfg, s, expected), s.future, known);
    }
  }

  lemma {:induction false} SlotFound(slots: seq<Option<Frame>>, tick: u64) returns (i: nat)
    requires SlotWith(slots, tick).Some?
    ensures i < |slots| && slots[i] == SlotWith(slots, tick) && slots[i].value.Tick() == tick
  {
    if slots[0].Some? && slots[0].value.Tick() == tick {
      i := 0;
    } else {
      var j := SlotFound(slots[1..], tick);
      i := j + 1;
    }
  }

  lemma {:induction false} SeenFound(seen: seq<Frame>, tick: u64) returns (i: nat)
    requires SeenWith(seen, tick).Some?
    ensures i < |seen| && Some(seen[i]) == SeenWith(seen, tick) && seen[i].Tick() == tick
  {
    if seen[0].Tick() == tick {
      i := 0;
    } else {
      var j := SeenFound(seen[1..], tick);
      i := j + 1;
    }
  }

  /** A prior frame is one that was received, under the same tick. */
  lemma PriorWasHeard(s: State, f: Frame, known: set<Frame>)
    requires AllHeard(s, known) && Identity(s, f).Some?
    ensures Identity(s, f).value in known && Identity(s, f).value.Tick() == f.Tick()
  {
    hide SlotWith, SeenWith;
    if SlotWith(s.future, f.Tick()).Some? {
      var i := SlotFound(s.future, f.Tick());
      assert Among(s.future[i], known);
    }
    if SeenWith(s.terminalSeen, f.Tick()).Some? {
      var i := SeenFound(s.terminalSeen, f.Tick());
    }
  }

  /** And there is none only if nothing remembered has that tick (for a normal frame, the candidate aside). */
  lemma NoPriorMeans(s: State, f: Frame)
    ensures Identity(s, f).None? <==>
              && !At(s.newest, f.Tick()) && !At(s.due, f.Tick()) && !At(s.terminalCandidate, f.Tick())
              && !At(s.latch, f.Tick()) && (f.Terminal() ==> !At(s.candidate, f.Tick()))
              && (forall i | 0 <= i < |s.future| && s.future[i].Some? :: s.future[i].value.Tick() != f.Tick())
              && (forall i | 0 <= i < |s.terminalSeen| :: s.terminalSeen[i].Tick() != f.Tick())
  {
    hide SlotWith, SeenWith;
    SlotWithFinds(s.future, f.Tick());
    SeenWithFinds(s.terminalSeen, f.Tick());
  }

  lemma {:induction false} SeenWithFinds(seen: seq<Frame>, tick: u64)
    ensures SeenWith(seen, tick).None? <==> forall i | 0 <= i < |seen| :: seen[i].Tick() != tick
  {
    if seen != [] {
      SeenWithFinds(seen[1..], tick);
      if SeenWith(seen, tick).None? {
        assert forall i | 1 <= i < |seen| :: seen[i] == seen[1..][i - 1];
      } else if seen[0].Tick() != tick {
        var i :| 0 <= i < |seen[1..]| && seen[1..][i].Tick() == tick;
        assert seen[i + 1].Tick() == tick;
      }
    }
  }

  // The newest frame

  /** The frame remembered as newest is the first of the newest received. */
  ghost predicate NewestOf(s: State, heard: seq<Frame>) { AdmissionSlots.FirstNewest(heard, s.newest) }

  lemma RememberIsNewer(newest: Option<Frame>, f: Frame)
    ensures Remember(newest, f) == AdmissionSlots.Newer(newest, f)
  {}

  lemma NotNewer(heard: seq<Frame>, newest: Option<Frame>, g: Frame, f: Frame)
    requires AdmissionSlots.FirstNewest(heard, newest) && g in heard && g.Tick() == f.Tick()
    ensures AdmissionSlots.Newer(newest, f) == newest
  {}

  /** What classifying a frame does to what is remembered. */
  lemma ResolvedHeard(cfg: Config, s: State, f: Frame, known: set<Frame>)
    requires AllHeard(s, known) && f in known && |s.future| == SLOTS && cfg.Valid()
    ensures AllHeard(Resolved(cfg, s, f).0, known) && Resolved(cfg, s, f).0.newest == s.newest
  {
    hide Logged, Full, Presented, AllHeard;
    var (t, kind) := Resolved(cfg, s, f);
    if kind == Current {
      PresentedHeard(s, f, known);
    } else if kind == Future {
      ParkedHeard(s, f.Tick() - s.expected - 1, f, known);
    } else {
      Unmoved(s, t, known);
    }
  }

  lemma NotedAgain(s: State, f: Frame, known: set<Frame>)
    requires AllHeard(s, known) && f in known
    ensures AllHeard(s.(terminalSeen := s.terminalSeen + [f]), known)
  {}

  lemma RepeatedHeard(s: State, f: Frame, same: bool, known: set<Frame>)
    requires AllHeard(s, known) && f in known
    ensures AllHeard(Repeated(s, f, same), known) && Repeated(s, f, same).newest == s.newest
  {
    hide Terminaled, AllHeard;
    var t := Repeated(s, f, same);
    if f.Terminal() && same {
      var n := s.(terminals := s.terminals.(duplicate := s.terminals.duplicate + 1),
                  terminalSeen := s.terminalSeen + [f]);
      NotedAgain(s, f, known);
      Unmoved(s.(terminalSeen := s.terminalSeen + [f]), n, known);
      TerminaledHeard(n, f, known);
    } else {
      Unmoved(s, t, known);
    }
  }

  lemma TerminaledHeard(s: State, f: Frame, known: set<Frame>)
    requires AllHeard(s, known) && f in known
    ensures AllHeard(Terminaled(s, f), known) && Terminaled(s, f).newest == s.newest
  {}

  lemma FramesGrow(heard: seq<Frame>, f: Frame)
    ensures FramesOf(heard + [f]) == FramesOf(heard) + {f}
  {}

  lemma ClassifiedHeard(cfg: Config, s: State, f: Frame, heard: seq<Frame>)
    requires AllHeard(s, FramesOf(heard)) && NewestOf(s, heard) && |s.future| == SLOTS && cfg.Valid()
    ensures AllHeard(Classified(cfg, s, f).0, FramesOf(heard + [f]))
    ensures NewestOf(Classified(cfg, s, f).0, heard + [f])
  {
    hide Identity, Logged, Full, Repeated, Resolved, AllHeard, AdmissionSlots.FirstNewest, Remember,
         AdmissionSlots.Newer;
    var all := FramesOf(heard + [f]);
    FramesGrow(heard, f);
    HeardMore(s, FramesOf(heard), {f});
    RememberIsNewer(s.newest, f);
    AdmissionSlots.OfferNext(heard, s.newest, f);
    if !f.Terminal() && f.Valid() && !f.Finite() {
      SameStored(s, Classified(cfg, s, f).0, f, all);
    } else if Identity(s, f).Some? {
      var g := Identity(s, f).value;
      PriorWasHeard(s, f, FramesOf(heard));
      NotNewer(heard, s.newest, g, f);
      RepeatedHeard(s, f, g.payload == f.payload, all);
    } else {
      var p := s.(terminalSeen := if f.Terminal() then s.terminalSeen + [f] else s.terminalSeen,
                  newest := Remember(s.newest, f));
      SameStored(s, p, f, all);
      ResolvedHeard(cfg, p, f, all);
    }
  }

  lemma SameStored(s: State, t: State, f: Frame, known: set<Frame>)
    requires AllHeard(s, known) && f in known
    requires t.due == s.due && t.candidate == s.candidate && t.terminalCandidate == s.terminalCandidate
    requires t.latch == s.latch && t.future == s.future && t.newest == Remember(s.newest, f)
    requires t.terminalSeen == s.terminalSeen || t.terminalSeen == s.terminalSeen + [f]
    ensures AllHeard(t, known)
  {}

  // Over any run

  /** The state a datagram is classified in: its receipt counted. */
  function Arrived(s: State, f: Frame): State { Counted(s.(cycle := s.cycle.(rxCount := s.cycle.rxCount + 1)), f) }

  lemma ArrivedHeard(s: State, f: Frame, known: set<Frame>, heard: seq<Frame>)
    requires AllHeard(s, known) && NewestOf(s, heard)
    ensures AllHeard(Arrived(s, f), known) && NewestOf(Arrived(s, f), heard)
    ensures Arrived(s, f).future == s.future && Arrived(s, f).integrity == s.integrity
  {
    hide AdmissionSlots.FirstNewest;
  }

  lemma ReceivedHeard(cfg: Config, s: State, packet: Packet, heard: seq<Frame>)
    requires Kept(cfg, s) && AllHeard(s, FramesOf(heard)) && NewestOf(s, heard)
    ensures var (t, all) := (Received(cfg, s, packet).0, heard + HeardBy(cfg, s, Datagram(packet)));
            AllHeard(t, FramesOf(all)) && NewestOf(t, all)
  {
    hide NormalParked, ReadingOf, CountBad, Classified, Balanced, Bounded, Ordered, SlotsAt, AllHeard,
         AdmissionSlots.FirstNewest, Counted;
    AdmissionSlots.KeptSlots(cfg, s);
    AdmissionSlots.ReceivedClosed(cfg, s, packet);
    var t := Received(cfg, s, packet).0;
    if CanReceive(s) && ReadingOf(packet).Sensed? {
      var f := ReadingOf(packet).frame;
      ArrivedHeard(s, f, FramesOf(heard), heard);
      ClassifiedHeard(cfg, Arrived(s, f), f, heard);
    } else {
      Unmoved(s, t, FramesOf(heard));
      assert heard + [] == heard;
    }
  }

  lemma FinishedHeard(cfg: Config, s: State, known: set<Frame>)
    requires AllHeard(s, known)
    ensures AllHeard(Finished(cfg, s), known) && Finished(cfg, s).newest == s.newest
  {
    hide Staleness, Promoted, Noticed;
  }

  lemma NothingHeard(cfg: Config)
    ensures AllHeard(Initial(cfg), {}) && NewestOf(Initial(cfg), [])
  {}

  lemma {:induction false} RunHeard(cfg: Config, ops: seq<Op>)
    requires cfg.Valid()
    ensures AllHeard(Run(cfg, ops), FramesOf(Heard(cfg, ops))) && NewestOf(Run(cfg, ops), Heard(cfg, ops))
    decreases |ops|
  {
    hide Kept, AllHeard, AdmissionSlots.FirstNewest, Received, BeginCycle, Finished, Initial, HeardBy;
    if ops == [] {
      NothingHeard(cfg);
      assert FramesOf([]) == {};
    } else {
      var init, op := ops[..|ops| - 1], ops[|ops| - 1];
      var s, heard := Run(cfg, init), Heard(cfg, init);
      RunHeard(cfg, init);
      assert heard + [] == heard;
      KeptFuture(cfg, s);
      match op {
        case Begin(expected) =>
          BegunHeard(cfg, s, expected, FramesOf(heard));
          NothingHeardBy(cfg, s, op);
        case Datagram(packet) => ReceivedHeard(cfg, s, packet, heard);
        case Finish =>
          FinishedHeard(cfg, s, FramesOf(heard));
          NothingHeardBy(cfg, s, op);
      }
    }
  }

  lemma KeptFuture(cfg: Config, s: State)
    requires Kept(cfg, s)
    ensures |s.future| == SLOTS
  {
    hide NormalParked, Balanced, Bounded, Ordered;
  }

  lemma NothingHeardBy(cfg: Config, s: State, op: Op)
    requires !op.Datagram?
    ensures HeardBy(cfg, s, op) == []
  {}

  /** A frame of the log came with an earlier datagram of the run. */
  lemma {:induction false} HeardCame(cfg: Config, ops: seq<Op>, g: Frame) returns (k: nat)
    requires cfg.Valid() && g in Heard(cfg, ops)
    ensures k < |ops| && ops[k].Datagram? && ReadingOf(ops[k].packet) == Sensed(g)
    decreases |ops|
  {
    hide Run, ReadingOf, CanReceive;
    var n := |ops| - 1;
    if g in Heard(cfg, ops[..n]) {
      k := HeardCame(cfg, ops[..n], g);
    } else {
      k := n;
    }
  }

  /** The class of a repeated tick, by the payload of the frame it repeats. */
  lemma RepeatedClass(cfg: Config, s: State, f: Frame)
    requires |s.future| == SLOTS && cfg.Valid()
    ensures var (t, kind) := Classified(cfg, s, f);
            && (kind == Duplicate || kind == Conflict ==> Identity(s, f).Some?)
            && (kind == Duplicate ==> Identity(s, f).value.payload == f.payload)
            && (kind == Conflict ==> Identity(s, f).value.payload != f.payload && t.integrity)
  {
    hide Identity, Logged, Full, Presented;
  }

  lemma ReceivedClass(cfg: Config, s: State, packet: Packet)
    requires Kept(cfg, s)
    ensures cfg.Valid() && |s.future| == SLOTS
    ensures if CanReceive(s) && ReadingOf(packet).Sensed? then
              var f := ReadingOf(packet).frame;
              Received(cfg, s, packet).0 == Classified(cfg, Arrived(s, f), f).0
              && Received(cfg, s, packet).1 == Some(Classified(cfg, Arrived(s, f), f).1)
            else Received(cfg, s, packet).1 in {None, Some(Malformed)}
  {
    hide Classified, ReadingOf, CountBad, Kept, Counted;
    AdmissionSlots.ReceivedClosed(cfg, s, packet);
  }

  /** Duplicate means that an earlier datagram of the run carried the same tick and payload; Conflict means that one
      carried the same tick and another payload, and it is an integrity fault. */
  lemma RepeatMeans(cfg: Config, ops: seq<Op>, packet: Packet) returns (k: nat, g: Frame)
    requires cfg.Valid() && Received(cfg, Run(cfg, ops), packet).1 in {Some(Duplicate), Some(Conflict)}
    ensures ReadingOf(packet).Sensed?
    ensures k < |ops| && ops[k].Datagram? && ReadingOf(ops[k].packet) == Sensed(g)
    ensures g.Tick() == ReadingOf(packet).frame.Tick()
    ensures var (t, kind) := Received(cfg, Run(cfg, ops), packet);
            && (kind == Some(Duplicate) <==> g.payload == ReadingOf(packet).frame.payload)
            && (kind == Some(Conflict) ==> t.integrity)
  {
    hide Run, Kept, Received, Classified, ReadingOf, AllHeard, AdmissionSlots.FirstNewest, Counted, Identity, Heard;
    var s := Run(cfg, ops);
    RunHeard(cfg, ops);
    ReceivedClass(cfg, s, packet);
    var f := ReadingOf(packet).frame;
    ArrivedHeard(s, f, FramesOf(Heard(cfg, ops)), Heard(cfg, ops));
    RepeatedClass(cfg, Arrived(s, f), f);
    PriorWasHeard(Arrived(s, f), f, FramesOf(Heard(cfg, ops)));
    g := Identity(Arrived(s, f), f).value;
    k := HeardCame(cfg, ops, g);
  }

  /** A normal frame that claims a sample and has none to use. */
  predicate Unusable(f: Frame) { !f.Terminal() && f.Valid() && !f.Finite() }

  lemma KnownNewest(cfg: Config, s: State, f: Frame)
    requires |s.future| == SLOTS && cfg.Valid() && s.newest == Some(f)
    ensures Classified(cfg, s, f).1 == if Unusable(f) then Nonfinite else Duplicate
    ensures !f.Terminal() ==> Classified(cfg, s, f).0.integrity == (s.integrity || (Unusable(f) && Full(s.cycle)))
  {
    hide Terminaled;
  }

  /** The bytes of the newest frame again, with room left, are a duplicate; and for a normal frame no fault. (A frame
      whose sample is unusable is counted as such each time.) */
  lemma NewestAgain(cfg: Config, ops: seq<Op>, packet: Packet, f: Frame)
    requires cfg.Valid() && CanReceive(Run(cfg, ops)) && ReadingOf(packet) == Sensed(f)
    requires AdmissionSlots.FirstNewest(Heard(cfg, ops), Some(f))
    ensures var (t, kind) := Received(cfg, Run(cfg, ops), packet);
            && kind == Some(if Unusable(f) then Nonfinite else Duplicate)
            && (!f.Terminal() ==> t.integrity == Run(cfg, ops).integrity)
  {
    hide Run, Kept, Received, Classified, ReadingOf, AllHeard, AdmissionSlots.FirstNewest, Heard, Unusable, Counted;
    var s := Run(cfg, ops);
    RunHeard(cfg, ops);
    OneFirstNewest(Heard(cfg, ops), s.newest, Some(f));
    ReceivedClass(cfg, s, packet);
    ArrivedHeard(s, f, FramesOf(Heard(cfg, ops)), Heard(cfg, ops));
    ArrivedSame(s, f);
    KnownNewest(cfg, Arrived(s, f), f);
    BuffersNeverOverflow(cfg, ops);
  }

  lemma ArrivedSame(s: State, f: Frame)
    ensures Arrived(s, f).newest == s.newest && Arrived(s, f).cycle.discards == s.cycle.discards
  {}

  lemma OneFirstNewest(heard: seq<Frame>, a: Option<Frame>, b: Option<Frame>)
    requires AdmissionSlots.FirstNewest(heard, a) && AdmissionSlots.FirstNewest(heard, b)
    ensures a == b
  {
    if heard != [] {
      var i :| 0 <= i < |heard| && a == Some(heard[i])
               && (forall j | 0 <= j < |heard| :: heard[j].Tick() <= heard[i].Tick())
               && (forall j | 0 <= j < i :: heard[j].Tick() < heard[i].Tick());
      var k :| 0 <= k < |heard| && b == Some(heard[k])
               && (forall j | 0 <= j < |heard| :: heard[j].Tick() <= heard[k].Tick())
               && (forall j | 0 <= j < k :: heard[j].Tick() < heard[k].Tick());
    }
  }
}
