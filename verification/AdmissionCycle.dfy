/** What one whole admission cycle adds up to. */
module AdmissionCycle {
  import opened Basics
  import opened Admission
  import opened AdmissionRuns
  import opened AdmissionOrder
  import opened AdmissionSlots

  /** Every datagram of the cycle is malformed, a normal frame or a terminal notice. */
  predicate RawTallied(s: State, t: State) {
    && t.cycle.rxCount + s.terminals.receivedRaw
       == t.cycle.counts.received + t.cycle.counts.Bad() + t.terminals.receivedRaw
    && t.episode == s.episode && t.recorded == s.recorded && t.held == s.held && t.cycle.counts.consumed == 0
    && t.terminals.receivedRaw >= s.terminals.receivedRaw
  }

  /** What classification never touches. */
  predicate SameTotals(s: State, t: State) {
    && t.cycle.rxCount == s.cycle.rxCount && t.terminals.receivedRaw == s.terminals.receivedRaw
    && t.cycle.counts.received == s.cycle.counts.received && t.cycle.counts.Bad() == s.cycle.counts.Bad()
    && t.episode == s.episode && t.recorded == s.recorded && t.held == s.held
    && t.cycle.counts.consumed == s.cycle.counts.consumed && t.cycles == s.cycles
  }

  lemma RepeatedTotals(s: State, f: Frame, same: bool)
    ensures SameTotals(s, Repeated(s, f, same))
  {
    hide Notify, LegalReason;
  }

  lemma PresentedTotals(s: State, f: Frame)
    ensures SameTotals(s, Presented(s, f))
  {
    hide Notify, LegalReason;
  }

  lemma ResolvedTotals(cfg: Config, s: State, f: Frame)
    requires |s.future| == SLOTS && cfg.Valid()
    ensures SameTotals(s, Resolved(cfg, s, f).0)
  {
    hide Presented;
    PresentedTotals(s, f);
  }

  lemma ClassifiedTotals(cfg: Config, s: State, f: Frame)
    requires |s.future| == SLOTS && cfg.Valid()
    ensures SameTotals(s, Classified(cfg, s, f).0)
  {
    hide Identity, Remember, Resolved, Repeated;
    RepeatedTotals(s, f, true);
    RepeatedTotals(s, f, false);
    ResolvedTotals(cfg, s.(terminalSeen := if f.Terminal() then s.terminalSeen + [f] else s.terminalSeen,
                           newest := Remember(s.newest, f)), f);
  }

  lemma ReceivedTotals(cfg: Config, s0: State, s: State, packet: Packet)
    requires |s.future| == SLOTS && cfg.Valid() && RawTallied(s0, s)
    ensures RawTallied(s0, Received(cfg, s, packet).0)
    ensures Received(cfg, s, packet).0.cycle.rxCount == s.cycle.rxCount + if CanReceive(s) then 1 else 0
    ensures Received(cfg, s, packet).0.cycles == s.cycles
  {
    hide Classified, ReadingOf, Counts.Dispositions;
    if CanReceive(s) && ReadingOf(packet).Sensed? {
      var n := s.(cycle := s.cycle.(rxCount := s.cycle.rxCount + 1));
      ClassifiedTotals(cfg, Counted(n, ReadingOf(packet).frame), ReadingOf(packet).frame);
    }
  }

  lemma {:induction false} BatchTotals(cfg: Config, s0: State, s: State, packets: seq<Packet>)
    requires Kept(cfg, s) && RawTallied(s0, s) && s.open
    requires s.cycle.rxCount + |packets| <= if s.cycles == 0 then 9 else 8
    ensures var t := Batch(cfg, s, packets);
            && RawTallied(s0, t) && t.open && t.cycle.rxCount == s.cycle.rxCount + |packets| && t.cycles == s.cycles
            && t.expected == s.expected
    decreases |packets|
  {
    hide Kept, Received, RawTallied;
    if packets != [] {
      var n := Batch(cfg, s, packets[..|packets| - 1]);
      BatchTotals(cfg, s0, s, packets[..|packets| - 1]);
      KeptSlots(cfg, n);
      ReceivedTotals(cfg, s0, n, packets[|packets| - 1]);
      ReceivedOffers(cfg, n, packets[|packets| - 1]);
    }
  }

  lemma FinishedTotals(cfg: Config, s: State, b: State)
    requires Kept(cfg, b) && b.open && RawTallied(s, b)
    ensures var t, c := Finished(cfg, b), Finished(cfg, b).cycle.counts;
            && t.cycles == b.cycles + 1 && t.expected == b.expected && !t.open && t.episode == s.episode.Add(c)
            && t.recorded == (if b.cycles >= cfg.warmup then s.recorded.Add(c) else s.recorded)
            && t.cycle.rxCount == b.cycle.rxCount
            && t.cycle.rxCount + s.terminals.receivedRaw == c.received + c.Bad() + t.terminals.receivedRaw
            && c.consumed == (if t.cycle.admitted.Some? then 1 else 0)
            && t.held == (if t.cycle.admitted.Some? then t.cycle.admitted else s.held)
            && (t.cycle.admitted.Some? && s.held.Some? ==> s.held.value.tick < t.held.value.tick)
            && t.terminals.receivedRaw >= s.terminals.receivedRaw
  {
    hide Kept, Counts.Dispositions, Counts.Add, Staleness;
    HeldOrdered(cfg, b);
    OpenAdmits(cfg, b);
  }

  /** What a whole cycle with `received` datagrams leaves. */
  predicate WholeCycle(cfg: Config, s: State, t: State, expected: u64, received: nat) {
    var c := t.cycle.counts;
    && t.cycles == s.cycles + 1 && t.expected == expected && !t.open
    && t.episode == s.episode.Add(c)
    && t.recorded == (if s.cycles >= cfg.warmup then s.recorded.Add(c) else s.recorded)
    && t.cycle.rxCount == received
    && t.cycle.rxCount + s.terminals.receivedRaw == c.received + c.Bad() + t.terminals.receivedRaw
    && c.consumed == (if t.cycle.admitted.Some? then 1 else 0)
    && t.held == (if t.cycle.admitted.Some? then t.cycle.admitted else s.held)
    && (t.cycle.admitted.Some? ==> t.held.value.tick <= expected
                                   && (s.held.Some? ==> s.held.value.tick < t.held.value.tick))
    && t.cycle.staleness == Min(if t.held.None? then t.cycles else expected - t.held.value.tick, MAX32)
    && |t.cycle.discards| == c.aged + c.superseded + c.nonfinite + c.skewExcess <= received
    && t.terminals.receivedRaw >= s.terminals.receivedRaw
  }

  /** One cycle at a tick the caller may open, with no more datagrams than it may bring. */
  lemma CycleTotals(cfg: Config, s: State, expected: u64, packets: seq<Packet>)
    requires Kept(cfg, s) && CanBegin(cfg, s, expected) && |packets| <= if s.cycles == 0 then 9 else 8
    ensures WholeCycle(cfg, s, CycleOf(cfg, s, expected, packets), expected, |packets|)
  {
    hide Kept, BeginCycle, Batch, NormalParked, TerminalParked, Counts.Dispositions, Counts.Add, Finished;
    BegunKeeps(cfg, s, expected);
    var d := BegunFields(cfg, s, expected);
    var o := BeginCycle(cfg, s, expected);
    BatchTotals(cfg, s, o, packets);
    var b := Batch(cfg, o, packets);
    FinishedAge(cfg, b);
    FinishedTotals(cfg, s, b);
    HeldOrdered(cfg, Finished(cfg, b));
    DiscardsListed(cfg, Finished(cfg, b));
    assert CycleOf(cfg, s, expected, packets) == Finished(cfg, b);
  }

  lemma DiscardsListed(cfg: Config, s: State)
    requires Kept(cfg, s)
    ensures var c := s.cycle.counts;
            |s.cycle.discards| == c.aged + c.superseded + c.nonfinite + c.skewExcess <= s.cycle.rxCount
  {
    hide NormalParked, SlotsAt, Balanced, Ordered;
  }
}
