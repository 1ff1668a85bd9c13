/** The audit accepts every honest free run: what the loop counts is what the recording shows. */
module AuditRuns {
  import opened Basics
  import opened Episode
  import opened Payload
  import A = Admission
  import opened AdmissionRuns
  import AdmissionCycle
  import AdmissionSlots
  import opened FreeRun
  import opened Intervals
  import opened Audit

  /** The summary the vehicle writes, once every pushed record has been drained. */
  function SummaryOf(cfg: Config, r: Runtime): Summary {
    Summary(r.cycles, cfg.warmup, r.stats.recorded, |r.records|, r.drops, r.cycles, r.cycles, r.pushed,
            Link(r.admission.episode, r.episodeWindow), Link(r.admission.recorded, r.recordedWindow),
            A.NormalParked(r.admission.future), r.admission.warmupOccupancy,
            TerminalSummary(r.terminalCycle, r.termAttempts, r.termSent, r.termFailed,
                            if r.terminalCycle > 0 then Some(r.firstTerminalTxOk) else None, r.terminalReceivedRecorded,
                            r.admission.terminals.receivedRaw),
            Totals(r.cycles - r.terminalCycle, r.normalSent, r.normalFailed), cfg.tickBase, cfg.origin, r.served,
            r.uplinkWait, r.compute, r.discarded, r.stats.jitterCount, r.stats.execCount, r.stats.dropped)
  }

  /** The ages of a cycle's discards, added up. */
  function Ages(discards: seq<A.Discard>, rx: i64): int
    decreases |discards|
  {
    if discards == [] then 0
    else Ages(discards[..|discards| - 1], rx) + rx - discards[|discards| - 1].sendNs
  }

  /** A cycle with a monotone clock, a record that fits the ring, and recorded intervals that are in histogram range
      and leave the sums within their words. */
  predicate Honest(cfg: Config, r: Runtime, carry: A.Packet, i: CycleInput)
    requires cfg.Valid() && r.cycles < cfg.Total() && Kept(cfg.Admission(), r.admission)
  {
    var a := AdmissionOf(cfg, r, carry, i);
    && i.pushed && 0 <= i.woke <= i.rx <= i.tx <= i.done
    && (r.cycles >= cfg.warmup ==>
          && (a.cycle.admitted.Some? && i.success ==>
                && 0 <= a.held.value.sendNs <= i.rx && i.tx - a.held.value.sendNs <= HIGHEST_NS
                && r.served.sum + i.tx - a.held.value.sendNs <= MAX64)
          && (forall d <- a.cycle.discards :: 0 <= d.sendNs <= i.rx && i.rx - d.sendNs <= HIGHEST_NS)
          && r.discarded.sum + Ages(a.cycle.discards, i.rx) <= MAX64
          && InHistogram(i.woke - cfg.Deadline(r.cycles)) && InHistogram(i.done - i.woke)
          && (r.previousWoke != 0 ==> InHistogram(i.woke - r.previousWoke - PERIOD_NS)))
  }

  predicate HonestRun(cfg: Config, carry: A.Packet, inputs: seq<CycleInput>)
    requires cfg.Valid() && ValidInputs(inputs)
    decreases |inputs|
  {
    inputs == [] ||
      (HonestRun(cfg, carry, inputs[..|inputs| - 1])
       && var r, i := Loop(cfg, carry, inputs[..|inputs| - 1]), inputs[|inputs| - 1];
          LoopStep(cfg, r, carry, i);
          !Over(cfg, r) && !i.sleepFailed ==> Honest(cfg, r, carry, i))
  }

  // Populations, one more row at a time

  lemma CountNext(rows: Rows, r: Control, p: Control -> bool)
    ensures Count(rows + [r], p) == Count(rows, p) + if p(r) then 1 else 0
  {
    assert (rows + [r])[..|rows|] == rows;
  }

  lemma SumNext(rows: Rows, r: Control, f: Control -> int)
    ensures Sum(rows + [r], f) == Sum(rows, f) + f(r)
  {
    assert (rows + [r])[..|rows|] == rows;
  }

  lemma AfterNext(rows: Rows, r: Control, warmup: nat)
    ensures WindowRows(rows + [r], warmup)
         == if |rows| >= warmup then WindowRows(rows, warmup) + [r] else WindowRows(rows, warmup)
  {}

  lemma {:induction false} HeldAfterPrefix(rows: Rows, more: Rows, n: nat)
    requires n <= |rows|
    ensures HeldAfter(rows + more, n) == HeldAfter(rows, n)
  {
    if n > 0 {
      HeldAfterPrefix(rows, more, n - 1);
      assert (rows + more)[n - 1] == rows[n - 1];
    }
  }

  // What a record shows of its cycle

  lemma FlagBits(f: nat, a: nat, b: nat, c: nat, d: nat, e: nat, g: nat)
    requires a <= 1 && b <= 1 && c <= 1 && d <= 1 && e <= 1 && g <= 1
    requires f == a + 2 * b + 8 * c + 16 * d + 32 * e + 128 * g
    ensures f % 2 == a && f / 2 % 2 == b && f % 4 == a + 2 * b
  {
    var h := 2 * c + 4 * d + 8 * e + 32 * g;
    assert f / 2 == b + 2 * h;
    assert f == 4 * h + (a + 2 * b);
  }

  /** The record of a cycle, against the cycle's own counters. */
  predicate Shows(cfg: Config, n: nat, a: A.State, out: Output<word>, i: CycleInput, drops: nat, rec: Control) {
    var c, isFresh, rung := a.cycle.counts, a.cycle.admitted.Some?, Rung(a.cycle.staleness, a.cycle.admitted.Some?);
    && rec.tick == cfg.tickBase + n && rec.deadlineNs == cfg.Deadline(n)
    && rec.wokeNs == i.woke && rec.rxNs == i.rx && rec.txNs == i.tx && rec.doneNs == i.done
    && rec.drops == drops % TWO64
    && rec.sensorTick == (if a.held.Some? then a.held.value.tick else MAX64)
    && rec.sensorSendNs == (if a.held.Some? then a.held.value.sendNs else 0)
    && rec.staleness == a.cycle.staleness && rec.rxCount == a.cycle.rxCount
    && Fresh(rec) == isFresh && Flag(rec, 2) == i.success && Served(rec) == (isFresh && i.success)
    && RungOf(rec) == rung && (rec.state == 3 <==> out.state.mode == TERMINATED)
    && rec.discardedOld == c.aged && rec.discardedSuperseded == c.superseded
    && rec.discardedOther == c.nonfinite + c.skewExcess
  }

  lemma RecordShows(cfg: Config, n: nat, a: A.State, out: Output<word>, i: CycleInput, drops: nat)
    requires cfg.Valid() && n < cfg.Total() && a.cycle.rxCount <= 9
    requires a.cycle.counts.aged + a.cycle.counts.superseded + a.cycle.counts.nonfinite + a.cycle.counts.skewExcess <= 9
    ensures Shows(cfg, n, a, out, i, drops, RecordOf(cfg, n, a, out, i, drops))
  {
    hide Config.Valid;
    var isFresh, rung := a.cycle.admitted.Some?, Rung(a.cycle.staleness, a.cycle.admitted.Some?);
    FlagBits(RecordOf(cfg, n, a, out, i, drops).flags, Bit(isFresh, 1), if i.success then 1 else 0,
             if rung == 1 then 1 else 0, if rung == 2 then 1 else 0,
             if i.batch.Some? && |i.batch.value| == 8 then 1 else 0, if a.cycle.counts.nonfinite > 0 then 1 else 0);
  }

  // The books of the loop, piece by piece

  /** One window: what a cycle adds is what its record adds. */
  lemma TalliedNext(l: Link, rows: Rows, raw: nat, rec: Control, c: A.Counts, more: nat, rung: nat, terminal: bool,
                    success: bool, isFresh: bool)
    requires Tallied(l, rows, raw) && rung <= 3 && RungOf(rec) == rung && (rec.state == 3 <==> terminal)
    requires Fresh(rec) == isFresh && Flag(rec, 2) == success && Served(rec) == (isFresh && success)
    requires c.consumed == (if isFresh then 1 else 0) && rec.rxCount == c.received + c.Bad() + more
    requires rec.discardedOld == c.aged && rec.discardedSuperseded == c.superseded
    requires rec.discardedOther == c.nonfinite + c.skewExcess
    ensures Tallied(Link(l.counts.Add(c), l.window.Record(rung, terminal, success, isFresh)), rows + [rec], raw + more)
  {
    hide Count, Sum, RungOf, Flag, Served;
    CountNext(rows, rec, OnTime);
    CountNext(rows, rec, Coasting);
    CountNext(rows, rec, Neutral);
    CountNext(rows, rec, Lost);
    CountNext(rows, rec, Fresh);
    CountNext(rows, rec, Served);
    CountNext(rows, rec, Delivered);
    CountNext(rows, rec, Undelivered);
    SumNext(rows, rec, Aged);
    SumNext(rows, rec, Superseded);
    SumNext(rows, rec, Other);
    SumNext(rows, rec, Received);
  }

  predicate WindowsTallied(cfg: Config, r: Runtime) {
    && Tallied(Link(r.admission.episode, r.episodeWindow), r.records, r.admission.terminals.receivedRaw)
    && Tallied(Link(r.admission.recorded, r.recordedWindow), WindowRows(r.records, cfg.warmup),
               r.terminalReceivedRecorded)
    && r.episodeWindow.Rungs() == r.cycles && r.recordedWindow.Rungs() == Max(0, r.cycles - cfg.warmup)
  }

  predicate Booked(cfg: Config, r: Runtime) {
    && |r.records| == r.cycles == r.pushed && r.drops == 0 && (forall rec <- r.records :: rec.drops == 0)
    && r.stats == LoopStats(Max(0, r.cycles - cfg.warmup), Max(0, r.cycles - cfg.warmup),
                            Max(0, r.cycles - cfg.warmup), 0)
    && (r.cycles <= cfg.warmup ==> r.recordedWindow == NO_WINDOW)
  }

  predicate TerminalBooked(r: Runtime) {
    && r.terminalCycle == Count(r.records, IsTerminal) <= 1
    && (if r.terminalCycle > 0 then
          && r.termAttempts == r.termSent + r.termFailed && r.termAttempts >= 1
          && r.records != [] && r.firstTerminalTxOk == Flag(r.records[|r.records| - 1], 2)
          && (if r.firstTerminalTxOk then r.termSent >= 1 else r.termFailed >= 1)
        else r.termAttempts == r.termSent == r.termFailed == 0)
    && r.normalSent == r.episodeWindow.sent && r.normalFailed == r.episodeWindow.failed
    && r.episodeWindow.sent + r.episodeWindow.failed == r.cycles - r.terminalCycle
  }

  predicate Rowed(cfg: Config, rows: Rows) {
    forall n | 0 <= n < |rows| ::
      && rows[n].tick == cfg.tickBase + n && rows[n].deadlineNs == cfg.origin + n * PERIOD_NS
      && 0 <= rows[n].wokeNs <= rows[n].rxNs <= rows[n].txNs <= rows[n].doneNs
      && rows[n].rxCount <= if n == 0 then 9 else 8
  }

  predicate Remembered(r: Runtime) {
    && HeldAfter(r.records, |r.records|)
       == (if r.admission.held.Some? then (Some(r.admission.held.value.tick), r.admission.held.value.sendNs)
           else (None, 0))
    && forall n | 0 <= n < |r.records| :: HistoryOk(r.records, n)
  }

  predicate Measured(cfg: Config, r: Runtime) {
    var rows, c := WindowRows(r.records, cfg.warmup), r.admission.recorded;
    && Matches(r.served, rows, Latency) && Matches(r.uplinkWait, rows, UplinkWait) && Matches(r.compute, rows, Compute)
    && r.uplinkWait.sum + r.compute.sum == r.served.sum
    && r.discarded.count == c.aged + c.superseded + c.nonfinite + c.skewExcess && r.discarded.dropped == 0
    && (rows == [] ==> r.discarded.sum == 0)
  }

  predicate BooksKept(cfg: Config, r: Runtime) {
    && Between(cfg, r) && WindowsTallied(cfg, r) && Booked(cfg, r) && TerminalBooked(r) && Rowed(cfg, r.records)
    && Remembered(r) && Measured(cfg, r)
  }

  // One cycle keeps the books

  /** A cycle of an honest run: what it admits, decides, records and counts. */
  predicate Steps(cfg: Config, r: Runtime, t: Runtime, i: CycleInput, a: A.State, out: Output<word>, rec: Control) {
    var n, isFresh := r.cycles, a.cycle.admitted.Some?;
    var terminal, rung, inWindow := out.state.mode == TERMINATED, Rung(a.cycle.staleness, isFresh), n >= cfg.warmup;
    var raw, both := a.terminals.receivedRaw - r.admission.terminals.receivedRaw, inWindow && isFresh && i.success;
    && t.admission == a && t.cycles == n + 1 && t.records == r.records + [rec] && t.pushed == r.pushed + 1
    && t.drops == r.drops
    && t.terminalCycle == (if terminal then 1 else r.terminalCycle)
    && t.firstTerminalTxOk == (if terminal then i.success else r.firstTerminalTxOk)
    && t.termAttempts == (if terminal then 1 else r.termAttempts)
    && t.termSent == r.termSent + (if terminal && i.success then 1 else 0)
    && t.termFailed == r.termFailed + (if terminal && !i.success then 1 else 0)
    && t.normalSent == r.normalSent + (if !terminal && i.success then 1 else 0)
    && t.normalFailed == r.normalFailed + (if !terminal && !i.success then 1 else 0)
    && t.terminalReceivedRecorded == r.terminalReceivedRecorded + (if inWindow && raw >= 0 then raw else 0)
    && t.episodeWindow == r.episodeWindow.Record(rung, terminal, i.success, isFresh)
    && t.recordedWindow == (if inWindow then r.recordedWindow.Record(rung, terminal, i.success, isFresh)
                            else r.recordedWindow)
    && t.served == (if both then r.served.Record(rec.sensorSendNs, rec.txNs) else r.served)
    && t.uplinkWait == (if both then r.uplinkWait.Record(rec.sensorSendNs, rec.rxNs) else r.uplinkWait)
    && t.compute == (if both then r.compute.Record(rec.rxNs, rec.txNs) else r.compute)
    && t.discarded == (if inWindow then RecordAges(r.discarded, a.cycle.discards, i.rx) else r.discarded)
    && t.stats == (if inWindow then
                     r.stats.Record(i.woke - cfg.Deadline(n),
                                    if r.previousWoke != 0 then i.woke - r.previousWoke - PERIOD_NS else 0,
                                    i.done - i.woke)
                   else r.stats)
  }

  lemma CycleSteps(cfg: Config, r: Runtime, carry: A.Packet, i: CycleInput)
    returns (a: A.State, out: Output<word>, rec: Control)
    requires cfg.Valid() && Between(cfg, r) && r.cycles < cfg.Total() && i.Valid() && i.pushed
    ensures a == AdmissionOf(cfg, r, carry, i) && Steps(cfg, r, Cycle(cfg, r, carry, i), i, a, out, rec)
    ensures Shows(cfg, r.cycles, a, out, i, r.drops, rec)
    ensures AdmissionCycle.WholeCycle(cfg.Admission(), r.admission, a, cfg.tickBase + r.cycles, a.cycle.rxCount)
    ensures a.cycle.rxCount <= if r.cycles == 0 then 9 else 8
  {
    hide Kept, AdmissionSlots.CycleOf, AdmissionOf, DecisionOf, RecordOf, Shows, AdmissionCycle.WholeCycle, RecordAges;
    a := AdmissionOf(cfg, r, carry, i);
    out := DecisionOf(cfg, r, a, i);
    rec := RecordOf(cfg, r.cycles, a, out, i, r.drops);
    AdmissionWhole(cfg, r, carry, i);
    RecordShows(cfg, r.cycles, a, out, i, r.drops);
  }

  lemma WindowsNext(cfg: Config, r: Runtime, t: Runtime, i: CycleInput, a: A.State, out: Output<word>, rec: Control)
    requires WindowsTallied(cfg, r) && |r.records| == r.cycles == r.admission.cycles
    requires Steps(cfg, r, t, i, a, out, rec) && Shows(cfg, r.cycles, a, out, i, r.drops, rec)
    requires AdmissionCycle.WholeCycle(cfg.Admission(), r.admission, a, cfg.tickBase + r.cycles, a.cycle.rxCount)
    ensures WindowsTallied(cfg, t)
  {
    hide Tallied, A.Counts.Add, RungOf, Served, Flag, A.Counts.Bad;
    var isFresh, terminal := a.cycle.admitted.Some?, out.state.mode == TERMINATED;
    var rung := Rung(a.cycle.staleness, isFresh);
    var raw := a.terminals.receivedRaw - r.admission.terminals.receivedRaw;
    TalliedNext(Link(r.admission.episode, r.episodeWindow), r.records, r.admission.terminals.receivedRaw, rec,
                a.cycle.counts, raw, rung, terminal, i.success, isFresh);
    AfterNext(r.records, rec, cfg.warmup);
    if r.cycles >= cfg.warmup {
      TalliedNext(Link(r.admission.recorded, r.recordedWindow), WindowRows(r.records, cfg.warmup),
                  r.terminalReceivedRecorded, rec, a.cycle.counts, raw, rung, terminal, i.success, isFresh);
    }
  }

  lemma BookedNext(cfg: Config, r: Runtime, t: Runtime, i: CycleInput, a: A.State, out: Output<word>, rec: Control)
    requires Booked(cfg, r) && Steps(cfg, r, t, i, a, out, rec) && Shows(cfg, r.cycles, a, out, i, r.drops, rec)
    requires r.cycles >= cfg.warmup ==>
               InHistogram(i.woke - cfg.Deadline(r.cycles)) && InHistogram(i.done - i.woke)
               && (r.previousWoke != 0 ==> InHistogram(i.woke - r.previousWoke - PERIOD_NS))
    ensures Booked(cfg, t)
  {
    hide RungOf, Served, Flag, RecordAges;
  }

  lemma TerminalNext(cfg: Config, r: Runtime, t: Runtime, i: CycleInput, a: A.State, out: Output<word>, rec: Control)
    requires TerminalBooked(r) && r.terminalCycle == 0 && |r.records| == r.cycles
    requires Steps(cfg, r, t, i, a, out, rec) && Shows(cfg, r.cycles, a, out, i, r.drops, rec)
    ensures TerminalBooked(t)
  {
    hide RungOf, Served, RecordAges, Count;
    CountNext(r.records, rec, IsTerminal);
  }

  lemma RowedNext(cfg: Config, r: Runtime, t: Runtime, i: CycleInput, a: A.State, out: Output<word>, rec: Control)
    requires Rowed(cfg, r.records) && |r.records| == r.cycles && 0 <= i.woke <= i.rx <= i.tx <= i.done
    requires Steps(cfg, r, t, i, a, out, rec) && Shows(cfg, r.cycles, a, out, i, r.drops, rec)
    requires a.cycle.rxCount <= if r.cycles == 0 then 9 else 8
    ensures Rowed(cfg, t.records)
  {
    hide RungOf, Served, Flag, RecordAges;
  }

  lemma RememberedNext(cfg: Config, r: Runtime, t: Runtime, i: CycleInput, a: A.State, out: Output<word>, rec: Control)
    requires Remembered(r) && |r.records| == r.cycles == r.admission.cycles
    requires Steps(cfg, r, t, i, a, out, rec) && Shows(cfg, r.cycles, a, out, i, r.drops, rec)
    requires AdmissionCycle.WholeCycle(cfg.Admission(), r.admission, a, cfg.tickBase + r.cycles, a.cycle.rxCount)
    ensures Remembered(t)
  {
    hide RungOf, Served, Flag, RecordAges, A.Counts.Add, A.Counts.Bad;
    var n := |r.records|;
    HeldAfterPrefix(r.records, [rec], n);
    assert t.records[n] == rec;
    forall k | 0 <= k < |t.records|
      ensures HistoryOk(t.records, k)
    {
      if k < n {
        HeldAfterPrefix(r.records, [rec], k);
        HeldAfterPrefix(r.records, [rec], k + 1);
        assert HistoryOk(r.records, k) && t.records[k] == r.records[k];
      }
    }
  }

  lemma MatchesNext(d: Distribution, rows: Rows, rec: Control, f: Control -> int, start: int, end: int)
    requires Matches(d, rows, f)
    requires if Served(rec) then
               && f(rec) == end - start && 0 <= start <= end && end - start <= HIGHEST_NS
               && d.sum + end - start <= MAX64
             else f(rec) == 0
    ensures var e := if Served(rec) then d.Record(start, end) else d;
            Matches(e, rows + [rec], f) && e.sum == d.sum + if Served(rec) then end - start else 0
  {
    hide Count, Sum, Served;
    CountNext(rows, rec, Served);
    SumNext(rows, rec, f);
  }

  lemma {:induction false} AgesCounted(d: Distribution, discards: seq<A.Discard>, rx: i64)
    requires forall x <- discards :: 0 <= x.sendNs <= rx && rx - x.sendNs <= HIGHEST_NS
    requires d.sum + Ages(discards, rx) <= MAX64
    ensures var e := RecordAges(d, discards, rx);
            e.count == d.count + |discards| && e.dropped == d.dropped && e.sum == d.sum + Ages(discards, rx)
    ensures Ages(discards, rx) >= 0
    decreases |discards|
  {
    if discards != [] {
      assert discards[|discards| - 1] in discards;
      AgesCounted(d, discards[..|discards| - 1], rx);
    }
  }

  lemma MeasuredNext(cfg: Config, r: Runtime, t: Runtime, i: CycleInput, a: A.State, out: Output<word>, rec: Control)
    requires Measured(cfg, r) && |r.records| == r.cycles == r.admission.cycles < cfg.Total()
    requires Steps(cfg, r, t, i, a, out, rec) && Shows(cfg, r.cycles, a, out, i, r.drops, rec)
    requires AdmissionCycle.WholeCycle(cfg.Admission(), r.admission, a, cfg.tickBase + r.cycles, a.cycle.rxCount)
    requires 0 <= i.rx <= i.tx && a.cycle.rxCount <= 9
    requires r.cycles >= cfg.warmup ==>
               && (a.cycle.admitted.Some? && i.success ==>
                     && 0 <= a.held.value.sendNs <= i.rx && i.tx - a.held.value.sendNs <= HIGHEST_NS
                     && r.served.sum + i.tx - a.held.value.sendNs <= MAX64)
               && (forall d <- a.cycle.discards :: 0 <= d.sendNs <= i.rx && i.rx - d.sendNs <= HIGHEST_NS)
               && r.discarded.sum + Ages(a.cycle.discards, i.rx) <= MAX64
    ensures Measured(cfg, t)
  {
    hide Matches, RungOf, Served, Flag, RecordAges, Ages, A.Counts.Bad, A.NormalParked;
    var rows := WindowRows(r.records, cfg.warmup);
    AfterNext(r.records, rec, cfg.warmup);
    if r.cycles >= cfg.warmup {
      MatchesNext(r.served, rows, rec, Latency, rec.sensorSendNs, rec.txNs);
      MatchesNext(r.uplinkWait, rows, rec, UplinkWait, rec.sensorSendNs, rec.rxNs);
      MatchesNext(r.compute, rows, rec, Compute, rec.rxNs, rec.txNs);
      AgesCounted(r.discarded, a.cycle.discards, i.rx);
    }
  }

  /** An honest cycle keeps every book. */
  lemma CycleKeepsBooks(cfg: Config, r: Runtime, carry: A.Packet, i: CycleInput)
    requires cfg.Valid() && BooksKept(cfg, r) && !Over(cfg, r) && i.Valid()
    requires r.cycles < cfg.Total() && Kept(cfg.Admission(), r.admission) && Honest(cfg, r, carry, i)
    ensures BooksKept(cfg, Cycle(cfg, r, carry, i))
  {
    hide Kept, WindowsTallied, TerminalBooked, Rowed, Remembered, Measured, Steps, Shows, AdmissionOf, Cycle,
         AdmissionCycle.WholeCycle;
    var t := Cycle(cfg, r, carry, i);
    CycleBetween(cfg, r, carry, i);
    var a, out, rec := CycleSteps(cfg, r, carry, i);
    WindowsNext(cfg, r, t, i, a, out, rec);
    BookedNext(cfg, r, t, i, a, out, rec);
    TerminalNext(cfg, r, t, i, a, out, rec);
    RowedNext(cfg, r, t, i, a, out, rec);
    RememberedNext(cfg, r, t, i, a, out, rec);
    MeasuredNext(cfg, r, t, i, a, out, rec);
  }

  lemma NoRows(rows: Rows, warmup: nat)
    requires rows == []
    ensures forall p :: Count(rows, p) == 0
    ensures forall f :: Sum(rows, f) == 0
    ensures WindowRows(rows, warmup) == [] && HeldAfter(rows, 0) == (None, 0)
  {}

  lemma NoCountsBad(c: A.Counts)
    requires c == A.NO_COUNTS
    ensures c.Bad() == 0
  {}

  lemma BlankTallied(l: Link, rows: Rows)
    requires rows == [] && l.counts == A.NO_COUNTS && l.window == NO_WINDOW
    ensures Tallied(l, rows, 0) && l.window.Rungs() == 0
  {
    hide Count, Sum, A.Counts.Bad;
    NoRows(rows, 0);
    NoCountsBad(l.counts);
  }

  lemma BeginTallied(cfg: Config, r: Runtime)
    requires r == BeginRun(cfg)
    ensures WindowsTallied(cfg, r) && Booked(cfg, r)
  {
    hide Tallied, A.Initial, Window.Rungs;
    NoRows(r.records, cfg.warmup);
    InitialBlank(cfg, r);
    BlankTallied(Link(r.admission.episode, r.episodeWindow), r.records);
    BlankTallied(Link(r.admission.recorded, r.recordedWindow), WindowRows(r.records, cfg.warmup));
  }

  lemma BeginTerminal(r: Runtime)
    requires r.records == [] && r.terminalCycle == r.termAttempts == r.termSent == r.termFailed == r.cycles == 0
    requires r.episodeWindow == NO_WINDOW && r.normalSent == r.normalFailed == 0
    ensures TerminalBooked(r)
  {
    hide Count;
    NoRows(r.records, 0);
  }

  lemma InitialBlank(cfg: Config, r: Runtime)
    requires r == BeginRun(cfg)
    ensures r.admission.episode == r.admission.recorded == A.NO_COUNTS && r.admission.held.None?
    ensures r.admission.terminals.receivedRaw == 0
  {}

  lemma BeginMeasured(cfg: Config, r: Runtime)
    requires r == BeginRun(cfg)
    ensures Rowed(cfg, r.records) && Remembered(r) && Measured(cfg, r)
  {
    hide Count, Sum, A.Initial, HeldAfter, WindowRows;
    NoRows(r.records, cfg.warmup);
    InitialBlank(cfg, r);
  }

  lemma BeginKeepsBooks(cfg: Config, r: Runtime)
    requires cfg.Valid() && r == BeginRun(cfg)
    ensures BooksKept(cfg, r)
  {
    hide Between, WindowsTallied, Booked, TerminalBooked, Rowed, Remembered, Measured;
    BeginBetween(cfg);
    BeginTallied(cfg, r);
    BeginTerminal(r);
    BeginMeasured(cfg, r);
  }

  /** Neither a failed sleep nor a further terminal copy touches the cycles already counted. */
  predicate SameCycles(r: Runtime, t: Runtime) {
    t == r.(failure := t.failure, termAttempts := t.termAttempts, termSent := t.termSent, termFailed := t.termFailed)
  }

  lemma SameTallies(cfg: Config, r: Runtime, t: Runtime)
    requires WindowsTallied(cfg, r) && Booked(cfg, r) && SameCycles(r, t)
    ensures WindowsTallied(cfg, t) && Booked(cfg, t)
  {
    hide Tallied, WindowRows;
  }

  lemma SameHistory(cfg: Config, r: Runtime, t: Runtime)
    requires Between(cfg, r) && Remembered(r) && Measured(cfg, r) && SameCycles(r, t)
    ensures Between(cfg, t) && Remembered(t) && Measured(cfg, t)
  {
    hide Matches, WindowRows, HistoryOk, HeldAfter, Kept;
  }

  lemma FailedKeepsBooks(cfg: Config, r: Runtime)
    requires BooksKept(cfg, r)
    ensures BooksKept(cfg, r.(failure := INTERNAL))
  {
    hide Between, WindowsTallied, Booked, Rowed, Remembered, Measured, Count;
    SameTallies(cfg, r, r.(failure := INTERNAL));
    SameHistory(cfg, r, r.(failure := INTERNAL));
  }

  lemma {:induction false} LoopKeepsBooks(cfg: Config, carry: A.Packet, inputs: seq<CycleInput>)
    requires cfg.Valid() && ValidInputs(inputs) && HonestRun(cfg, carry, inputs)
    ensures BooksKept(cfg, Loop(cfg, carry, inputs))
    decreases |inputs|
  {
    hide BooksKept, Cycle, Over, Honest, BeginRun;
    if inputs == [] {
      BeginKeepsBooks(cfg, BeginRun(cfg));
    } else {
      var r, i := Loop(cfg, carry, inputs[..|inputs| - 1]), inputs[|inputs| - 1];
      LoopKeepsBooks(cfg, carry, inputs[..|inputs| - 1]);
      LoopStep(cfg, r, carry, i);
      FailedKeepsBooks(cfg, r);
      if !Over(cfg, r) && !i.sleepFailed {
        CycleKeepsBooks(cfg, r, carry, i);
      }
    }
  }

  lemma {:induction false} ResendKeepsBooks(cfg: Config, r: Runtime, successes: seq<bool>)
    requires BooksKept(cfg, r) && r.terminalCycle > 0
    ensures BooksKept(cfg, Resend(r, successes)) && Resend(r, successes).terminalCycle > 0
    decreases |successes|
  {
    hide Between, WindowsTallied, Booked, Rowed, Remembered, Measured, Count;
    if successes != [] {
      var s := Resend(r, successes[..|successes| - 1]);
      ResendKeepsBooks(cfg, r, successes[..|successes| - 1]);
      SameTallies(cfg, s, Resend(r, successes));
      SameHistory(cfg, s, Resend(r, successes));
    }
  }

  lemma BooksOwned(cfg: Config, r: Runtime)
    requires Booked(cfg, r)
    ensures Owned(SummaryOf(cfg, r), r.records)
  {
    hide A.NormalParked;
  }

  lemma BooksIdentities(cfg: Config, r: Runtime)
    requires Between(cfg, r) && WindowsTallied(cfg, r) && Booked(cfg, r)
    ensures Identities(SummaryOf(cfg, r))
  {
    hide Tallied, SlotsAt, Ordered, Bounded, Untouched, A.NormalParked, A.Counts.Dispositions, WindowRows, Window.Rungs;
    ClosedIdentities(cfg.Admission(), r.admission);
  }

  lemma BooksRows(cfg: Config, r: Runtime, n: nat)
    requires Rowed(cfg, r.records) && Remembered(r) && n < |r.records|
    ensures RowOk(SummaryOf(cfg, r), n, r.records[n]) && HistoryOk(r.records, n)
  {
    hide HistoryOk, HeldAfter, A.NormalParked;
  }

  lemma BooksTimed(cfg: Config, r: Runtime)
    requires WindowsTallied(cfg, r) && Booked(cfg, r) && Measured(cfg, r)
    ensures Timed(SummaryOf(cfg, r), WindowRows(r.records, cfg.warmup))
  {
    hide Count, Sum, A.NormalParked, Window.Rungs;
    WindowEmpty(r.records, cfg.warmup);
  }

  lemma WindowEmpty(rows: Rows, warmup: nat)
    ensures |rows| <= warmup ==> |WindowRows(rows, warmup)| == 0
  {}

  lemma BooksTerminal(cfg: Config, r: Runtime)
    requires TerminalBooked(r)
    ensures TerminalPartition(SummaryOf(cfg, r), r.records)
  {
    hide Count, A.NormalParked;
  }

  lemma BooksPass(cfg: Config, r: Runtime)
    requires cfg.Valid() && BooksKept(cfg, r)
    ensures Passes(SummaryOf(cfg, r), r.records)
  {
    hide Between, Booked, TerminalBooked, Rowed, Remembered, Measured, Owned, Identities, Timed, TerminalPartition,
         RowOk, HistoryOk, Tallied, WindowRows, A.NormalParked;
    BooksOwned(cfg, r);
    BooksIdentities(cfg, r);
    BooksTimed(cfg, r);
    BooksTerminal(cfg, r);
    forall n | 0 <= n < |r.records|
      ensures RowOk(SummaryOf(cfg, r), n, r.records[n]) && HistoryOk(r.records, n)
    {
      BooksRows(cfg, r, n);
    }
  }

  /** The audit accepts every honest run: for any batches, any send outcomes, any warmup, however the loop ended and
      however many terminal copies followed. */
  lemma HonestRunPasses(cfg: Config, carry: A.Packet, inputs: seq<CycleInput>, successes: seq<bool>)
    requires cfg.Valid() && ValidInputs(inputs) && HonestRun(cfg, carry, inputs)
    ensures var r := FinishRun(cfg, Loop(cfg, carry, inputs), successes);
            Passes(SummaryOf(cfg, r), r.records)
  {
    hide BooksKept, Loop, Passes, SummaryOf;
    var r := Loop(cfg, carry, inputs);
    LoopKeepsBooks(cfg, carry, inputs);
    if r.terminalCycle > 0 {
      ResendKeepsBooks(cfg, r, successes[..Min(|successes|, Max(0, cfg.terminalCopies - 1))]);
    }
    BooksPass(cfg, FinishRun(cfg, r, successes));
  }

  /** A record of the free-run loop always has counts the control payload accepts. */
  lemma RecordsEncodable(cfg: Config, r: Runtime, carry: A.Packet, i: CycleInput)
    requires cfg.Valid() && Between(cfg, r) && r.cycles < cfg.Total() && i.Valid()
    ensures var a := AdmissionOf(cfg, r, carry, i);
            EncodeControl(RecordOf(cfg, r.cycles, a, DecisionOf(cfg, r, a, i), i, r.drops)).Some?
  {
    hide Kept, AdmissionOf, DecisionOf, RecordOf, RungOf, Flag, Served, EncodePayload;
    var a := AdmissionOf(cfg, r, carry, i);
    AdmissionWhole(cfg, r, carry, i);
    RecordShows(cfg, r.cycles, a, DecisionOf(cfg, r, a, i), i, r.drops);
  }
}
