/** What every free-run admission keeps, over any datagrams and even over gaps in the expected ticks. */
module AdmissionRuns {
  import opened Basics
  import opened Frames
  import opened Admission

  // Slots

  /** A normal frame that was usable on arrival. */
  predicate Usable(f: Frame) { !f.Terminal() && (f.Valid() ==> f.Finite()) }

  /** Slot `i` holds only the frame of tick `expected + 1 + i`. */
  predicate SlotsAt(cfg: Config, slots: seq<Option<Frame>>, expected: u64) {
    && cfg.Valid() && |slots| == SLOTS
    && forall i | 0 <= i < SLOTS && slots[i].Some? ::
         && slots[i].value.Tick() == expected + 1 + i && i < cfg.skewMax
         && (slots[i].value.Terminal() || Usable(slots[i].value))
  }

  /** The slots moved down by `d`. */
  function Rolled(slots: seq<Option<Frame>>, d: nat): (r: seq<Option<Frame>>)
    requires |slots| == SLOTS
    ensures |r| == SLOTS && forall j | 0 <= j < SLOTS :: r[j] == if j + d < SLOTS then slots[j + d] else None
  {
    seq(SLOTS, j requires 0 <= j => if j + d < SLOTS then slots[j + d] else None)
  }

  lemma {:induction false} NormalParkedSplit(a: seq<Option<Frame>>, b: seq<Option<Frame>>)
    ensures NormalParked(a + b) == NormalParked(a) + NormalParked(b)
    decreases |b|
  {
    if b == [] {
      assert a + b == a;
    } else {
      NormalParkedSplit(a, b[..|b| - 1]);
      assert (a + b)[..|a + b| - 1] == a + b[..|b| - 1];
    }
  }

  lemma {:induction false} NoneParked(a: seq<Option<Frame>>)
    requires forall i | 0 <= i < |a| :: a[i].None?
    ensures NormalParked(a) == 0
    decreases |a|
  {
    if a != [] {
      NoneParked(a[..|a| - 1]);
    }
  }

  function Normal(f: Option<Frame>): nat { if f.Some? && !f.value.Terminal() then 1 else 0 }

  lemma ParkedOne(f: Option<Frame>)
    ensures NormalParked([f]) == Normal(f)
  {
    assert [f][..0] == [];
    assert NormalParked([]) == 0;
  }

  /** Storing into a slot changes the count by what was and is there. */
  lemma ParkedUpdate(slots: seq<Option<Frame>>, i: nat, f: Option<Frame>)
    requires i < |slots|
    ensures NormalParked(slots[i := f]) + Normal(slots[i]) == NormalParked(slots) + Normal(f)
  {
    var a, b := slots[..i], slots[i + 1..];
    assert slots == a + [slots[i]] + b && slots[i := f] == a + [f] + b;
    NormalParkedSplit(a + [slots[i]], b);
    NormalParkedSplit(a + [f], b);
    NormalParkedSplit(a, [slots[i]]);
    NormalParkedSplit(a, [f]);
    ParkedOne(slots[i]);
    ParkedOne(f);
  }

  /** What leaves the slots when they move down: the expired ones, the due one, and the rest stay. */
  lemma ParkedRolled(slots: seq<Option<Frame>>, d: nat)
    requires |slots| == SLOTS && d >= 1
    ensures d <= SLOTS ==>
              NormalParked(slots) == NormalParked(slots[..d - 1]) + Normal(slots[d - 1])
                  + NormalParked(Rolled(slots, d))
    ensures d > SLOTS ==> NormalParked(Rolled(slots, d)) == 0
  {
    hide NormalParked, Rolled;
    var r := Rolled(slots, d);
    if d <= SLOTS {
      assert slots == slots[..d - 1] + [slots[d - 1]] + slots[d..];
      NormalParkedSplit(slots[..d - 1] + [slots[d - 1]], slots[d..]);
      NormalParkedSplit(slots[..d - 1], [slots[d - 1]]);
      ParkedOne(slots[d - 1]);
      assert r == slots[d..] + r[SLOTS - d..];
      NormalParkedSplit(slots[d..], r[SLOTS - d..]);
      NoneParked(r[SLOTS - d..]);
    } else {
      NoneParked(r);
    }
  }

  // The start of a cycle

  /** A cycle that has been opened but has looked at no slot yet. */
  predicate JustOpened(s: State) {
    s.open && s.cycle == NO_CYCLE && s.candidate.None? && s.due.None? && s.terminalCandidate.None?
    && s.terminalSeen == [] && s.future == EmptySlots()
  }

  function TerminalParked(slots: seq<Option<Frame>>): nat {
    if slots == [] then 0
    else TerminalParked(slots[..|slots| - 1])
         + var f := slots[|slots| - 1]; if f.Some? && f.value.Terminal() then 1 else 0
  }

  /** After `k` of the old slots, all at their ticks: those before the due one have expired, the due one is presented,
      those after it have moved down by `d`. */
  ghost predicate ShiftedTo(s: State, t: State, slots: seq<Option<Frame>>, d: nat, k: nat)
    requires |slots| == SLOTS && k <= SLOTS && d >= 1
  {
    var due := if d <= k then slots[d - 1] else None;
    var expired := slots[..Min(k, d - 1)];
    && |t.future| == SLOTS
    && (forall j | 0 <= j < SLOTS :: t.future[j] == if j + d < k then slots[j + d] else None)
    && t.due == due
    && t.candidate == (if due.Some? && !due.value.Terminal() then due else None)
    && t.terminalCandidate == (if due.Some? && due.value.Terminal() && s.latch.None? then due else None)
    && t.cycle == NO_CYCLE.(counts := NO_COUNTS.(futureExpired := NormalParked(expired)))
    && t.terminals.futureExpired == s.terminals.futureExpired + TerminalParked(expired)
    && t.terminals.receivedRaw == s.terminals.receivedRaw
    && t == s.(future := t.future, due := t.due, candidate := t.candidate, terminalCandidate := t.terminalCandidate,
               cycle := t.cycle, terminals := t.terminals, integrity := t.integrity)
  }

  lemma ParkedNext(slots: seq<Option<Frame>>, k: nat)
    requires k < |slots|
    ensures NormalParked(slots[..k + 1]) == NormalParked(slots[..k]) + Normal(slots[k])
    ensures TerminalParked(slots[..k + 1])
         == TerminalParked(slots[..k]) + if slots[k].Some? && slots[k].value.Terminal() then 1 else 0
  {
    assert slots[..k + 1][..k] == slots[..k];
  }

  lemma ShiftExpired(cfg: Config, s: State, t: State, slots: seq<Option<Frame>>, old_: u64, d: nat, k: nat)
    requires SlotsAt(cfg, slots, old_) && s.expected == old_ + d && k + 1 < d && k < SLOTS
    requires ShiftedTo(s, t, slots, d, k)
    ensures ShiftedTo(s, ShiftOne(cfg, t, slots[k]), slots, d, k + 1)
  {
    hide NormalParked, TerminalParked, Presented;
    ParkedNext(slots, k);
    assert Min(k + 1, d - 1) == k + 1 && Min(k, d - 1) == k;
  }

  lemma ShiftDue(cfg: Config, s: State, t: State, slots: seq<Option<Frame>>, old_: u64, d: nat)
    requires SlotsAt(cfg, slots, old_) && s.expected == old_ + d && 1 <= d <= SLOTS
    requires ShiftedTo(s, t, slots, d, d - 1)
    ensures ShiftedTo(s, ShiftOne(cfg, t, slots[d - 1]), slots, d, d)
  {
    hide NormalParked, TerminalParked, Expired;
  }

  lemma ShiftMoved(cfg: Config, s: State, t: State, slots: seq<Option<Frame>>, old_: u64, d: nat, k: nat)
    requires SlotsAt(cfg, slots, old_) && s.expected == old_ + d && 1 <= d <= k < SLOTS
    requires ShiftedTo(s, t, slots, d, k)
    ensures ShiftedTo(s, ShiftOne(cfg, t, slots[k]), slots, d, k + 1)
  {
    hide NormalParked, TerminalParked, Expired, Presented;
    assert Min(k + 1, d - 1) == d - 1 == Min(k, d - 1);
  }

  /** The loop over the old slots, when the expected tick has advanced by `d`. */
  lemma {:induction false} ShiftExact(cfg: Config, s: State, slots: seq<Option<Frame>>, old_: u64, d: nat, k: nat)
    requires SlotsAt(cfg, slots, old_) && d >= 1 && s.expected == old_ + d && k <= SLOTS && JustOpened(s)
    ensures ShiftedTo(s, Shift(cfg, s, slots[..k]), slots, d, k)
    decreases k
  {
    hide NormalParked, TerminalParked, ShiftOne, ShiftedTo;
    if k == 0 {
      ShiftNone(s, slots, d);
    } else {
      ShiftExact(cfg, s, slots, old_, d, k - 1);
      assert slots[..k][..k - 1] == slots[..k - 1];
      var t := Shift(cfg, s, slots[..k - 1]);
      if k < d {
        ShiftExpired(cfg, s, t, slots, old_, d, k - 1);
      } else if k == d {
        ShiftDue(cfg, s, t, slots, old_, d);
      } else {
        ShiftMoved(cfg, s, t, slots, old_, d, k - 1);
      }
    }
  }

  lemma ShiftNone(s: State, slots: seq<Option<Frame>>, d: nat)
    requires |slots| == SLOTS && d >= 1 && JustOpened(s)
    ensures ShiftedTo(s, s, slots, d, 0)
  {
    hide NormalParked, TerminalParked;
    NothingParked(slots[..0]);
  }

  lemma NothingParked(slots: seq<Option<Frame>>)
    requires slots == []
    ensures NormalParked(slots) == 0 && TerminalParked(slots) == 0
  {}

  lemma {:induction false} ShiftEmpty(cfg: Config, s: State, slots: seq<Option<Frame>>)
    requires cfg.Valid() && |s.future| == SLOTS && forall i | 0 <= i < |slots| :: slots[i].None?
    ensures Shift(cfg, s, slots) == s
    decreases |slots|
  {
    if slots != [] {
      ShiftEmpty(cfg, s, slots[..|slots| - 1]);
    }
  }

  // Invariants

  /** Who may be held, be the candidate, or be latched. */
  predicate Ordered(s: State) {
    && (s.held.Some? ==> s.held.value.tick <= s.expected && s.held.value.flags % 2 == 1
                         && IsFinite(s.held.value.theta) && IsFinite(s.held.value.omega))
    && (s.candidate.Some? ==> Usable(s.candidate.value) && s.candidate.value.Tick() <= s.expected
                              && (s.open && s.held.Some? ==> s.candidate.value.Tick() > s.held.value.tick))
    && (if s.open then s.cycle.admitted.None? else s.cycle.admitted.Some? ==> s.held == s.cycle.admitted)
    && (s.latch.Some? ==> s.latch.value.Terminal() && s.latch.value.Tick() <= s.expected)
    && (s.terminalCandidate.Some? ==>
          s.terminalCandidate.value.Terminal() && s.terminalCandidate.value.Tick() <= s.expected)
  }

  /** The fixed-size buffers of a cycle never overflow. */
  predicate Bounded(s: State) {
    var c := s.cycle.counts;
    && |s.cycle.discards| == c.aged + c.superseded + c.nonfinite + c.skewExcess <= s.cycle.rxCount
    && |s.terminalSeen| <= s.cycle.rxCount
    && s.cycle.rxCount <= if (s.open && s.cycles == 0) || (!s.open && s.cycles <= 1) then 9 else 8
  }

  function OpenCounts(s: State): Counts { if s.open then s.cycle.counts else NO_COUNTS }

  function Waiting(s: State): nat { if s.open && s.candidate.Some? then 1 else 0 }

  /** Every normal frame received has one disposition, or waits as the candidate, or is parked. */
  predicate Conserved(received: nat, dispositions: nat, initial: nat, s: State) {
    received + OpenCounts(s).received + initial
    == dispositions + OpenCounts(s).Dispositions() + Waiting(s) + NormalParked(s.future)
  }

  predicate InWindow(cfg: Config, s: State) { s.cycles > cfg.warmup || (s.cycles == cfg.warmup && s.open) }

  predicate Balanced(cfg: Config, s: State) {
    && Conserved(s.episode.received, s.episode.Dispositions(), 0, s)
    && (if InWindow(cfg, s) then
          s.warmupOccupancy.Some?
          && Conserved(s.recorded.received, s.recorded.Dispositions(), s.warmupOccupancy.value, s)
        else s.recorded == NO_COUNTS && s.warmupOccupancy.None?)
  }

  predicate Untouched(s: State) {
    s.cycles == 0 && !s.open ==>
      s.expected == 0 && s.held.None? && s.latch.None? && forall i | 0 <= i < |s.future| :: s.future[i].None?
  }

  predicate Kept(cfg: Config, s: State) {
    SlotsAt(cfg, s.future, s.expected) && Ordered(s) && Bounded(s) && Balanced(cfg, s) && Untouched(s)
  }

  lemma BlankKept(cfg: Config, s: State)
    requires cfg.Valid() && |s.future| == SLOTS && forall i | 0 <= i < SLOTS :: s.future[i].None?
    requires s.cycles == 0 && !s.open && s.expected == 0 && s.held.None? && s.latch.None? && s.candidate.None?
    requires s.terminalCandidate.None? && s.warmupOccupancy.None? && s.cycle.discards == [] && s.terminalSeen == []
    requires s.cycle.counts == s.episode == s.recorded == NO_COUNTS && s.cycle.rxCount == 0 && s.cycle.admitted.None?
    ensures Kept(cfg, s)
  {
    hide NormalParked, Counts.Dispositions;
    NoneParked(s.future);
    NoCounts(s.episode);
  }

  lemma InitialKept(cfg: Config, s: State)
    requires cfg.Valid() && s == Initial(cfg)
    ensures Kept(cfg, s)
  {
    hide Kept, EmptySlots;
    BlankKept(cfg, s);
  }

  /** What opening a cycle leaves: due or expired frames gone, the others moved down. */
  lemma BeginExact(cfg: Config, s: State, expected: u64) returns (d: nat)
    requires SlotsAt(cfg, s.future, s.expected) && Untouched(s) && CanBegin(cfg, s, expected)
    ensures d >= 1 && (s.cycles > 0 ==> d == expected - s.expected)
    ensures s.cycles == 0 ==> forall i | 0 <= i < SLOTS :: s.future[i].None?
    ensures ShiftedTo(Opened(cfg, s, expected), BeginCycle(cfg, s, expected), s.future, d, SLOTS)
  {
    hide ShiftedTo, NormalParked, TerminalParked, Opened, Shift;
    var o := Opened(cfg, s, expected);
    OpenedFresh(cfg, s, expected);
    assert s.future[..SLOTS] == s.future;
    if s.cycles == 0 {
      d := 1;
      ShiftEmpty(cfg, o, s.future);
      EmptyShifted(o, s.future);
    } else {
      d := expected - s.expected;
      ShiftExact(cfg, o, s.future, s.expected, d, SLOTS);
    }
  }

  lemma OpenedFresh(cfg: Config, s: State, expected: u64)
    ensures JustOpened(Opened(cfg, s, expected)) && Opened(cfg, s, expected).expected == expected
    ensures |Opened(cfg, s, expected).future| == SLOTS
  {
    hide NormalParked;
  }

  lemma EmptyShifted(s: State, slots: seq<Option<Frame>>)
    requires |slots| == SLOTS && JustOpened(s) && forall i | 0 <= i < SLOTS :: slots[i].None?
    ensures ShiftedTo(s, s, slots, 1, SLOTS)
  {
    hide NormalParked, TerminalParked;
    NothingParked(slots[..0]);
  }

  lemma BeginSlots(cfg: Config, s: State, expected: u64)
    requires Kept(cfg, s) && CanBegin(cfg, s, expected)
    ensures SlotsAt(cfg, BeginCycle(cfg, s, expected).future, expected)
    ensures BeginCycle(cfg, s, expected).expected == expected && BeginCycle(cfg, s, expected).open
  {
    hide NormalParked, TerminalParked, BeginCycle, Balanced, Bounded;
    var d := BeginExact(cfg, s, expected);
  }

  lemma BeginOrdered(cfg: Config, s: State, expected: u64)
    requires Kept(cfg, s) && CanBegin(cfg, s, expected)
    ensures Ordered(BeginCycle(cfg, s, expected)) && Bounded(BeginCycle(cfg, s, expected))
    ensures Untouched(BeginCycle(cfg, s, expected))
  {
    hide NormalParked, TerminalParked, BeginCycle, Balanced;
    var d := BeginExact(cfg, s, expected);
  }

  /** The frames that were parked are parked, waiting as the candidate, or expired. */
  lemma BeginCounts(cfg: Config, s: State, expected: u64)
    requires Kept(cfg, s) && CanBegin(cfg, s, expected)
    ensures var t := BeginCycle(cfg, s, expected);
            && NormalParked(s.future) == t.cycle.counts.Dispositions() + Waiting(t) + NormalParked(t.future)
            && t.cycle.counts.received == 0 && t.open && t.cycles == s.cycles
            && t.episode == s.episode && t.recorded == s.recorded
            && t.warmupOccupancy == if s.cycles == cfg.warmup then Some(NormalParked(s.future)) else s.warmupOccupancy
  {
    hide NormalParked, TerminalParked, BeginCycle, Ordered, Bounded, Balanced, Rolled;
    var d := BeginExact(cfg, s, expected);
    ParkedRolled(s.future, d);
    var t := BeginCycle(cfg, s, expected);
    assert t.future == Rolled(s.future, d);
    assert s.future[..SLOTS] == s.future;
  }

  lemma BeginBalanced(cfg: Config, s: State, expected: u64)
    requires Kept(cfg, s) && CanBegin(cfg, s, expected)
    ensures Balanced(cfg, BeginCycle(cfg, s, expected))
  {
    hide NormalParked, BeginCycle, Ordered, Bounded, SlotsAt, Counts.Dispositions;
    BeginCounts(cfg, s, expected);
    NoCounts(OpenCounts(s));
    NoCounts(NO_COUNTS);
  }

  // One datagram

  lemma {:induction false} SlotWithFinds(slots: seq<Option<Frame>>, tick: u64)
    ensures SlotWith(slots, tick).None? <==>
              forall i | 0 <= i < |slots| && slots[i].Some? :: slots[i].value.Tick() != tick
    ensures SlotWith(slots, tick).Some? ==> SlotWith(slots, tick) in slots && SlotWith(slots, tick).value.Tick() == tick
  {
    if slots != [] {
      SlotWithFinds(slots[1..], tick);
      assert forall i | 0 < i < |slots| :: slots[i] == slots[1..][i - 1];
    }
  }

  /** A frame that is parked goes into an empty slot: a parked frame is never overwritten. */
  lemma ParkingSlotFree(cfg: Config, s: State, f: Frame)
    requires SlotsAt(cfg, s.future, s.expected) && Identity(s, f).None?
    requires s.expected < f.Tick() && f.Tick() - s.expected <= cfg.skewMax
    ensures s.future[f.Tick() - s.expected - 1].None?
  {
    SlotWithFinds(s.future, f.Tick());
  }

  /** The state while a counted frame is being classified: a normal frame puts it one receipt ahead of the
      dispositions; at least `slack` more notices can be listed. */
  predicate Pending(cfg: Config, s: State, normal: bool, slack: nat) {
    && SlotsAt(cfg, s.future, s.expected) && Ordered(s) && s.open
    && var c, extra := s.cycle.counts, if normal then 1 else 0;
       && |s.cycle.discards| == c.aged + c.superseded + c.nonfinite + c.skewExcess < s.cycle.rxCount
       && |s.terminalSeen| + slack <= s.cycle.rxCount <= (if s.cycles == 0 then 9 else 8)
       && s.episode.received + c.received == s.episode.Dispositions() + c.Dispositions() + Waiting(s)
          + NormalParked(s.future) + extra
       && (if InWindow(cfg, s) then
             s.warmupOccupancy.Some?
             && s.recorded.received + c.received + s.warmupOccupancy.value
                == s.recorded.Dispositions() + c.Dispositions() + Waiting(s) + NormalParked(s.future) + extra
           else s.recorded == NO_COUNTS && s.warmupOccupancy.None?)
  }

  /** The rest of the frame's handling leaves the invariant. */
  predicate Settled(cfg: Config, s: State, t: State) {
    t.open && t.expected == s.expected && t.cycles == s.cycles && t.held == s.held && t.latch == s.latch && Kept(cfg, t)
  }

  lemma CandidatedKeeps(cfg: Config, s: State, f: Frame)
    requires Pending(cfg, s, true, 0) && Usable(f) && f.Tick() <= s.expected
    requires s.held.Some? ==> f.Tick() > s.held.value.tick
    ensures Settled(cfg, s, Candidated(s, f))
  {
    hide NormalParked;
  }

  lemma TerminaledKeeps(cfg: Config, s: State, f: Frame)
    requires Pending(cfg, s, false, 0) && f.Terminal() && f.Tick() <= s.expected
    ensures Settled(cfg, s, Terminaled(s, f))
  {
    hide NormalParked;
  }

  /** Notices that are only counted. */
  lemma TerminalCounted(cfg: Config, s: State, t: TerminalCounts, integrity: bool)
    requires Pending(cfg, s, false, 0)
    ensures Settled(cfg, s, s.(terminals := t, integrity := integrity))
  {
    hide NormalParked;
  }

  /** Normal frames that are only counted. */
  lemma RepeatCounted(cfg: Config, s: State, integrity: bool)
    requires Pending(cfg, s, true, 0)
    ensures var c := s.cycle.counts;
            && Settled(cfg, s, WithCounts(s, c.(duplicate := c.duplicate + 1)).(integrity := integrity))
            && Settled(cfg, s, WithCounts(s, c.(conflict := c.conflict + 1)).(integrity := integrity))
  {
    hide NormalParked, SlotsAt;
    SlotsBase(cfg, s);
  }

  lemma RepeatedKeeps(cfg: Config, s: State, f: Frame, same: bool)
    requires Pending(cfg, s, !f.Terminal(), 1)
    ensures Settled(cfg, s, Repeated(s, f, same))
  {
    hide Settled, Terminaled, NormalParked, SlotsAt, Ordered;
    var t := s.terminals;
    if !f.Terminal() {
      RepeatCounted(cfg, s, s.integrity);
      RepeatCounted(cfg, s, true);
    } else if same {
      var n := s.(terminals := t.(duplicate := t.duplicate + 1), terminalSeen := s.terminalSeen + [f]);
      SeenAppended(cfg, s, f);
      PendingCounters(cfg, s.(terminalSeen := n.terminalSeen), n);
      TerminalCounted(cfg, n, n.terminals, n.integrity);
      if f.Tick() <= s.expected {
        TerminaledKeeps(cfg, n, f);
        SettledAlong(cfg, s, n, Terminaled(n, f));
      } else {
        SettledAlong(cfg, s, n, n);
      }
    } else {
      TerminalCounted(cfg, s, t.(conflict := t.conflict + 1), true);
    }
  }

  lemma SeenAppended(cfg: Config, s: State, f: Frame)
    requires Pending(cfg, s, false, 1)
    ensures Pending(cfg, s.(terminalSeen := s.terminalSeen + [f]), false, 0)
  {
    hide NormalParked;
  }

  lemma PendingCounters(cfg: Config, s: State, n: State)
    requires Pending(cfg, s, false, 0) && n == s.(terminals := n.terminals)
    ensures Pending(cfg, n, false, 0)
  {
    hide NormalParked;
  }

  lemma SettledAlong(cfg: Config, s: State, n: State, t: State)
    requires Settled(cfg, n, t) && n.expected == s.expected && n.cycles == s.cycles && n.held == s.held
    requires n.latch == s.latch
    ensures Settled(cfg, s, t)
  {
    hide Kept;
  }

  lemma ParkedKeeps(cfg: Config, s: State, f: Frame)
    requires Pending(cfg, s, !f.Terminal(), 0) && (f.Terminal() || Usable(f))
    requires s.expected < f.Tick() && f.Tick() - s.expected <= cfg.skewMax
    requires s.future[f.Tick() - s.expected - 1].None?
    ensures Settled(cfg, s, s.(future := s.future[f.Tick() - s.expected - 1 := Some(f)]))
  {
    hide NormalParked;
    ParkedUpdate(s.future, f.Tick() - s.expected - 1, Some(f));
  }

  /** A normal frame that ends in the discard list. */
  lemma DiscardedKeeps(cfg: Config, s: State, kind: SensorClass, f: Frame, c: Counts, integrity: bool)
    requires Pending(cfg, s, true, 0)
    requires var o := s.cycle.counts;
             || c == o.(aged := o.aged + 1) || c == o.(skewExcess := o.skewExcess + 1)
             || c == o.(nonfinite := o.nonfinite + 1)
    ensures var t := Discarded(WithCounts(s, c), kind, f);
            Settled(cfg, s, t) && Settled(cfg, s, t.(integrity := integrity))
    ensures !Full(s.cycle)
  {
    hide NormalParked, SlotsAt;
    SlotsBase(cfg, s);
  }

  lemma NewestPending(cfg: Config, s: State, newest: Option<Frame>, normal: bool, slack: nat)
    requires Pending(cfg, s, normal, slack)
    ensures Pending(cfg, s.(newest := newest), normal, slack)
            && (slack > 0 ==> Pending(cfg, s.(newest := newest), normal, 0))
  {
    hide NormalParked;
  }

  lemma PlacedKeeps(cfg: Config, s0: State, f: Frame)
    requires Pending(cfg, s0, !f.Terminal(), 1) && (f.Terminal() || Usable(f)) && Identity(s0, f).None?
    ensures Settled(cfg, s0, Placed(cfg, s0, f).0)
  {
    hide NormalParked, Identity, Candidated, Terminaled, Remember, SlotsAt, Settled, Discarded, Ordered, Full;
    SlotsBase(cfg, s0);
    var seen := if f.Terminal() then s0.terminalSeen + [f] else s0.terminalSeen;
    var s := s0.(terminalSeen := seen, newest := Remember(s0.newest, f));
    NewestPending(cfg, s0, Remember(s0.newest, f), !f.Terminal(), 1);
    if f.Terminal() {
      SeenAppended(cfg, s0.(newest := Remember(s0.newest, f)), f);
    }
    assert Pending(cfg, s, !f.Terminal(), 0);
    var c := s.cycle.counts;
    if !f.Terminal() && s.held.Some? && f.Tick() <= s.held.value.tick {
      DiscardedKeeps(cfg, s, Old, f, c.(aged := c.aged + 1), true);
    } else if f.Tick() <= s.expected {
      if f.Terminal() { TerminaledKeeps(cfg, s, f); } else { CandidatedKeeps(cfg, s, f); }
    } else if f.Tick() - s.expected <= cfg.skewMax {
      ParkingSlotFree(cfg, s0, f);
      ParkedKeeps(cfg, s, f);
    } else if f.Terminal() {
      TerminalCounted(cfg, s, s.terminals.(skewExcess := s.terminals.skewExcess + 1), true);
    } else {
      DiscardedKeeps(cfg, s, ExcessiveSkew, f, c.(skewExcess := c.skewExcess + 1), true);
    }
    SettledAlong(cfg, s0, s, Placed(cfg, s0, f).0);
  }

  lemma SlotsBase(cfg: Config, s: State)
    requires SlotsAt(cfg, s.future, s.expected)
    ensures cfg.Valid() && |s.future| == SLOTS
  {}

  lemma ClassifiedKeeps(cfg: Config, s: State, f: Frame)
    requires Pending(cfg, s, !f.Terminal(), 1)
    ensures Settled(cfg, s, Classified(cfg, s, f).0)
  {
    hide NormalParked, Identity, Placed, Repeated, Settled, Discarded, SlotsAt, Remember, Full;
    SlotsBase(cfg, s);
    if !f.Terminal() && f.Valid() && !f.Finite() {
      var c, n := s.cycle.counts, s.(newest := Remember(s.newest, f));
      NewestPending(cfg, s, n.newest, true, 1);
      DiscardedKeeps(cfg, n, Nonfinite, f, c.(nonfinite := c.nonfinite + 1), true);
      DiscardLast(s, f, c.(nonfinite := c.nonfinite + 1), n.newest);
      SettledAlong(cfg, s, n, Classified(cfg, s, f).0);
    } else {
      RepeatedKeeps(cfg, s, f, true);
      RepeatedKeeps(cfg, s, f, false);
      if Identity(s, f).None? { PlacedKeeps(cfg, s, f); }
    }
  }

  lemma DiscardLast(s: State, f: Frame, c: Counts, newest: Option<Frame>)
    ensures Discarded(WithCounts(s, c), Nonfinite, f).(newest := newest)
         == Discarded(WithCounts(s.(newest := newest), c), Nonfinite, f)
  {}

  lemma CountedPending(cfg: Config, s: State, f: Frame)
    requires Kept(cfg, s) && CanReceive(s)
    ensures Pending(cfg, Counted(s.(cycle := s.cycle.(rxCount := s.cycle.rxCount + 1)), f), !f.Terminal(), 1)
  {
    hide NormalParked;
  }

  lemma GarbledKeeps(cfg: Config, s: State, e: DatagramError)
    requires Kept(cfg, s) && CanReceive(s)
    ensures var n := s.(cycle := s.cycle.(rxCount := s.cycle.rxCount + 1));
            Settled(cfg, s, WithCounts(n, CountBad(n.cycle.counts, e)).(integrity := true))
  {
    hide NormalParked, SlotsAt;
    SlotsBase(cfg, s);
  }

  /** Any datagram, at any moment, keeps the invariant; and neither the discard list nor the notice list overflows. */
  lemma ReceivedKeeps(cfg: Config, s: State, packet: Packet)
    requires Kept(cfg, s)
    ensures Kept(cfg, Received(cfg, s, packet).0)
    ensures CanReceive(s) ==> Settled(cfg, s, Received(cfg, s, packet).0)
  {
    hide NormalParked, SlotsAt, Ordered, Classified, ReadingOf, CountBad, Pending, Bounded, Balanced;
    SlotsBase(cfg, s);
    if CanReceive(s) {
      var n := s.(cycle := s.cycle.(rxCount := s.cycle.rxCount + 1));
      match ReadingOf(packet) {
        case Garbled(e) => GarbledKeeps(cfg, s, e);
        case Sensed(f) =>
          CountedPending(cfg, s, f);
          CountedFields(n, f);
          ClassifiedKeeps(cfg, Counted(n, f), f);
          SettledAlong(cfg, s, Counted(n, f), Classified(cfg, Counted(n, f), f).0);
      }
    } else {
      FlagKeeps(cfg, s);
    }
  }

  lemma CountedFields(s: State, f: Frame)
    ensures var n := Counted(s, f);
            && n.expected == s.expected && n.cycles == s.cycles && n.held == s.held && n.latch == s.latch
            && n.future == s.future
  {}

  lemma FlagKeeps(cfg: Config, s: State)
    requires Kept(cfg, s)
    ensures Kept(cfg, s.(integrity := true))
  {
    hide NormalParked, SlotsAt;
  }

  // The end of a cycle, and whole runs

  lemma AddCloses(a: Counts, c: Counts)
    ensures a.Add(c).Dispositions() == a.Dispositions() + c.Dispositions()
    ensures a.Add(c).received == a.received + c.received
  {}

  lemma FinishedOrdered(cfg: Config, s: State)
    requires Kept(cfg, s) && s.open
    ensures Ordered(Finished(cfg, s)) && Bounded(Finished(cfg, s)) && Untouched(Finished(cfg, s))
  {
    hide Balanced, SlotsAt, Staleness;
  }

  lemma FinishedBalanced(cfg: Config, s: State)
    requires Kept(cfg, s) && s.open
    ensures Balanced(cfg, Finished(cfg, s))
  {
    hide NormalParked, SlotsAt, Staleness, Ordered, Bounded, Counts.Dispositions;
    NoCounts(NO_COUNTS);
    AddCloses(s.episode, Finished(cfg, s).cycle.counts);
    AddCloses(s.recorded, Finished(cfg, s).cycle.counts);
    ClosedCycle(s, Finished(cfg, s));
  }

  /** The candidate's disposition is the one thing a finish adds to the cycle. */
  lemma ClosedCycle(s: State, t: State)
    requires exists cfg :: t == Finished(cfg, s) && s.open
    ensures t.cycle.counts.Dispositions() == s.cycle.counts.Dispositions() + Waiting(s)
    ensures t.cycle.counts.received == s.cycle.counts.received
    ensures OpenCounts(t).Dispositions() == 0 && OpenCounts(t).received == 0 && Waiting(t) == 0
  {
    hide Staleness;
  }

  lemma FinishedKeeps(cfg: Config, s: State)
    requires Kept(cfg, s)
    ensures Kept(cfg, Finished(cfg, s))
  {
    hide NormalParked, SlotsAt, Staleness, Ordered, Bounded, Balanced, Untouched;
    if s.open {
      FinishedOrdered(cfg, s);
      FinishedBalanced(cfg, s);
    }
  }

  lemma BegunKeeps(cfg: Config, s: State, expected: u64)
    requires Kept(cfg, s)
    ensures |s.future| == SLOTS && Kept(cfg, BeginCycle(cfg, s, expected))
  {
    hide NormalParked, SlotsAt, Shift, Ordered, Bounded, Balanced, Untouched;
    SlotsBase(cfg, s);
    if CanBegin(cfg, s, expected) {
      BeginSlots(cfg, s, expected);
      BeginOrdered(cfg, s, expected);
      BeginBalanced(cfg, s, expected);
    } else {
      FlagKeeps(cfg, s);
    }
  }

  datatype Op = Begin(expected: u64) | Datagram(packet: Packet) | Finish

  function Apply(cfg: Config, s: State, op: Op): State
    requires Kept(cfg, s)
  {
    match op
    case Begin(expected) => BeginCycle(cfg, s, expected)
    case Datagram(packet) => Received(cfg, s, packet).0
    case Finish => Finished(cfg, s)
  }

  /** Any sequence of calls, in any order, with any ticks. */
  function Run(cfg: Config, ops: seq<Op>): (s: State)
    requires cfg.Valid()
    ensures Kept(cfg, s)
    decreases |ops|
  {
    if ops == [] then InitialKept(cfg, Initial(cfg)); Initial(cfg)
    else
      var s, op := Run(cfg, ops[..|ops| - 1]), ops[|ops| - 1];
      ApplyKeeps(cfg, s, op);
      Apply(cfg, s, op)
  }

  lemma ApplyKeeps(cfg: Config, s: State, op: Op)
    requires Kept(cfg, s)
    ensures Kept(cfg, Apply(cfg, s, op))
  {
    hide Kept, BeginCycle, Received, Finished;
    match op {
      case Begin(expected) => BegunKeeps(cfg, s, expected);
      case Datagram(packet) => ReceivedKeeps(cfg, s, packet);
      case Finish => FinishedKeeps(cfg, s);
    }
  }

  lemma ClosedIdentities(cfg: Config, s: State)
    requires Balanced(cfg, s) && !s.open
    ensures IdentitiesHold(cfg, s)
  {
    hide NormalParked, Counts.Dispositions;
    NoCounts(OpenCounts(s));
  }

  lemma NoCounts(c: Counts)
    requires c == NO_COUNTS
    ensures c.Dispositions() == 0 && c.received == 0
  {}

  /** At every closed cycle of every run the admission identities hold, for the episode and for the recorded window. */
  lemma IdentitiesAlwaysHold(cfg: Config, ops: seq<Op>)
    requires cfg.Valid()
    ensures !Run(cfg, ops).open ==> IdentitiesHold(cfg, Run(cfg, ops))
  {
    hide Run, IdentitiesHold, Balanced, SlotsAt, Ordered, Bounded;
    var s := Run(cfg, ops);
    if !s.open {
      ClosedIdentities(cfg, s);
    }
  }

  /** Whenever a datagram can be received there is room for its discard and for its terminal identity: the overflow
      guard is never taken, and the discard list is exactly what the record's counters say. */
  lemma BuffersNeverOverflow(cfg: Config, ops: seq<Op>)
    requires cfg.Valid()
    ensures var s, c := Run(cfg, ops), Run(cfg, ops).cycle.counts;
            && |s.cycle.discards| == c.aged + c.superseded + c.nonfinite + c.skewExcess <= s.cycle.rxCount <= 9
            && |s.terminalSeen| <= 9
            && (CanReceive(s) ==> !Full(s.cycle) && |s.terminalSeen| < 9)
  {
    hide NormalParked, Run;
  }
}