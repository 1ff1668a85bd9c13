/** The offline population audit: it recomputes every population from the recording and compares. */
module Audit {
  import opened Basics
  import opened Payload
  import A = Admission
  import opened FreeRun
  import opened Intervals

  datatype Link = Link(counts: A.Counts, window: Window)

  datatype TerminalSummary = TerminalSummary(cycle: nat, attempts: nat, transmitted: nat, txFail: nat,
                                             firstTxOk: Option<bool>, rawRecorded: nat, raw: nat)

  datatype Totals = Totals(generated: int, transmitted: nat, txFail: nat)

  datatype Summary = Summary(totalCycles: nat, warmup: nat, cycles: nat, recordsWritten: nat, recordsDropped: nat,
                             transitions: nat, recordAttempts: nat, recordsPushed: nat, link: Link, recorded: Link,
                             parkedAtEnd: nat, parkedAtWarmup: Option<nat>, terminal: TerminalSummary,
                             actuator: Totals, tickBase: nat, originNs: int, latency: Distribution,
                             uplinkWait: Distribution, compute: Distribution, discardAge: Distribution,
                             jitterCount: nat, execCount: nat, droppedSamples: nat)

  // Populations of a recording

  type Rows = seq<Control>

  function Count(rows: Rows, p: Control -> bool): nat
    decreases |rows|
  {
    if rows == [] then 0 else Count(rows[..|rows| - 1], p) + if p(rows[|rows| - 1]) then 1 else 0
  }

  function Sum(rows: Rows, f: Control -> int): int
    decreases |rows|
  {
    if rows == [] then 0 else Sum(rows[..|rows| - 1], f) + f(rows[|rows| - 1])
  }

  predicate Flag(r: Control, bit: nat)
    requires bit > 0
  {
    r.flags / bit % 2 == 1
  }

  predicate Fresh(r: Control) { Flag(r, 1) }

  predicate Served(r: Control) { r.flags % 4 == 3 }

  predicate IsTerminal(r: Control) { r.state == 3 }

  predicate Delivered(r: Control) { r.state != 3 && Flag(r, 2) }

  predicate Undelivered(r: Control) { r.state != 3 && !Flag(r, 2) }

  function RungOf(r: Control): nat {
    if r.staleness >= 21 then 3 else if Flag(r, 1) then 0 else if r.staleness <= 8 then 1 else 2
  }

  predicate Coasting(r: Control) { RungOf(r) == 1 }

  predicate Neutral(r: Control) { RungOf(r) == 2 }

  predicate Lost(r: Control) { RungOf(r) == 3 }

  predicate OnTime(r: Control) { RungOf(r) == 0 }

  function Aged(r: Control): int { r.discardedOld }

  function Superseded(r: Control): int { r.discardedSuperseded }

  function Other(r: Control): int { r.discardedOther }

  function Received(r: Control): int { r.rxCount }

  function Latency(r: Control): int { if Served(r) then r.txNs - r.sensorSendNs else 0 }

  function UplinkWait(r: Control): int { if Served(r) then r.rxNs - r.sensorSendNs else 0 }

  function Compute(r: Control): int { if Served(r) then r.txNs - r.rxNs else 0 }

  /** The rows of the recorded window. */
  function WindowRows(rows: Rows, warmup: nat): Rows { if |rows| <= warmup then [] else rows[warmup..] }

  // What the audit demands

  predicate Owned(s: Summary, rows: Rows) {
    && s.cycles == Max(0, s.totalCycles - s.warmup)
    && |rows| == s.totalCycles == s.recordsWritten
    && s.recordsDropped == 0 && (forall r <- rows :: r.drops == 0)
    && s.transitions == s.recordAttempts == s.recordsPushed == s.totalCycles
  }

  predicate EmptyWindow(l: Link) { l.counts == A.NO_COUNTS && l.window == NO_WINDOW }

  predicate Identities(s: Summary) {
    && (if s.totalCycles > s.warmup then
          s.parkedAtWarmup.Some? && s.recorded.counts.Closes(s.parkedAtWarmup.value, s.parkedAtEnd)
        else s.parkedAtWarmup.None? && EmptyWindow(s.recorded))
    && s.link.counts.Closes(0, s.parkedAtEnd)
    && s.link.window.Rungs() == s.totalCycles
    && s.recorded.window.Rungs() == Max(0, s.totalCycles - s.warmup)
  }

  predicate TerminalPartition(s: Summary, rows: Rows) {
    var t := s.terminal;
    && t.cycle == Count(rows, IsTerminal) <= 1
    && t.attempts == t.transmitted + t.txFail && (if t.cycle > 0 then t.attempts >= 1 else t.attempts == 0)
    && (if t.cycle > 0 then
          && rows != [] && t.firstTxOk == Some(Flag(rows[|rows| - 1], 2))
          && (if t.firstTxOk.value then t.transmitted >= 1 else t.txFail >= 1)
        else t.firstTxOk.None?)
    && s.link.window.sent + s.link.window.failed == s.totalCycles - t.cycle
    && s.actuator == Totals(s.totalCycles - t.cycle, s.link.window.sent, s.link.window.failed)
  }

  predicate OnSchedule(s: Summary, n: nat, r: Control) {
    r.tick == s.tickBase + n && r.deadlineNs == s.originNs + n * PERIOD_NS
  }

  predicate InOrder(r: Control) { 0 <= r.wokeNs <= r.rxNs <= r.txNs <= r.doneNs }

  predicate FewReceipts(n: nat, r: Control) { r.rxCount <= if n == 0 then 9 else 8 }

  predicate RowOk(s: Summary, n: nat, r: Control) { OnSchedule(s, n, r) && InOrder(r) && FewReceipts(n, r) }

  /** The tick and stamp held after the first `n` rows: those of the last fresh one. */
  function HeldAfter(rows: Rows, n: nat): (h: (Option<u64>, i64))
    requires n <= |rows|
  {
    if n == 0 then (None, 0)
    else if Fresh(rows[n - 1]) then (Some(rows[n - 1].sensorTick), rows[n - 1].sensorSendNs)
    else HeldAfter(rows, n - 1)
  }

  predicate HistoryOk(rows: Rows, n: nat)
    requires n < |rows|
  {
    var r, (before, _), (held, stamp) := rows[n], HeldAfter(rows, n), HeldAfter(rows, n + 1);
    && (Fresh(r) ==> (before.None? || r.sensorTick > before.value) && r.sensorTick <= r.tick)
    && r.staleness == Min(MAX32, if held.Some? then r.tick - held.value else n + 1)
    && r.sensorTick == (if held.Some? then held.value else MAX64) && r.sensorSendNs == stamp
  }

  /** The counters of a window against its rows; `raw` are the terminal notices received in it. */
  predicate Tallied(l: Link, rows: Rows, raw: nat) {
    var c, w := l.counts, l.window;
    && w.fresh_ == Count(rows, OnTime) && w.coast == Count(rows, Coasting) && w.neutral == Count(rows, Neutral)
    && w.lost == Count(rows, Lost)
    && c.consumed == Count(rows, Fresh) && w.served == Count(rows, Served)
    && w.sent == Count(rows, Delivered) && w.failed == Count(rows, Undelivered)
    && c.aged == Sum(rows, Aged) && c.superseded == Sum(rows, Superseded)
    && c.nonfinite + c.skewExcess == Sum(rows, Other)
    && Sum(rows, Received) == c.received + c.Bad() + raw
  }

  predicate Matches(d: Distribution, rows: Rows, f: Control -> int) {
    && d.count == Count(rows, Served) && d.dropped == 0 && d.sum == Sum(rows, f)
    && forall r <- rows :: Served(r) ==> 0 <= f(r) <= HIGHEST_NS
  }

  predicate Timed(s: Summary, window: Rows) {
    var c := s.recorded.counts;
    && Matches(s.latency, window, Latency) && Matches(s.uplinkWait, window, UplinkWait)
    && Matches(s.compute, window, Compute)
    && s.jitterCount == s.execCount == s.cycles == Max(0, s.totalCycles - s.warmup) && s.droppedSamples == 0
    && s.latency.count == s.recorded.window.served
    && s.discardAge.count == c.aged + c.superseded + c.nonfinite + c.skewExcess && s.discardAge.dropped == 0
    && (s.totalCycles <= s.warmup ==> s.discardAge.sum == 0)
  }

  predicate Passes(s: Summary, rows: Rows) {
    && Owned(s, rows) && Identities(s) && TerminalPartition(s, rows)
    && (forall n | 0 <= n < |rows| :: RowOk(s, n, rows[n]) && HistoryOk(rows, n))
    && Tallied(s.link, rows, s.terminal.raw) && Tallied(s.recorded, WindowRows(rows, s.warmup), s.terminal.rawRecorded)
    && Timed(s, WindowRows(rows, s.warmup))
  }

  // The audit program

  method Ladder(rows: Rows) returns (ladder: seq<nat>)
    ensures ladder == [Count(rows, OnTime), Count(rows, Coasting), Count(rows, Neutral), Count(rows, Lost)]
  {
    ladder := [0, 0, 0, 0];
    for i := 0 to |rows|
      invariant ladder == [Count(rows[..i], OnTime), Count(rows[..i], Coasting), Count(rows[..i], Neutral),
                           Count(rows[..i], Lost)]
    {
      assert rows[..i + 1][..i] == rows[..i];
      var r := rows[i];
      var rung := if r.staleness >= 21 then 3 else if Flag(r, 1) then 0 else if r.staleness <= 8 then 1 else 2;
      ladder := ladder[rung := ladder[rung] + 1];
    }
    assert rows[..|rows|] == rows;
  }

  /** The admitted history, replayed with the held tick and stamp as accumulators. */
  method Observations(rows: Rows) returns (ok: bool)
    ensures ok <==> forall n | 0 <= n < |rows| :: HistoryOk(rows, n)
  {
    var heldTick: Option<u64>, heldStamp: i64 := None, 0;
    ok := true;
    for n := 0 to |rows|
      invariant (heldTick, heldStamp) == HeldAfter(rows, n)
      invariant ok <==> forall k | 0 <= k < n :: HistoryOk(rows, k)
    {
      var r := rows[n];
      ghost var was := ok;
      if Flag(r, 1) {
        ok := ok && (heldTick.None? || r.sensorTick > heldTick.value) && r.sensorTick <= r.tick;
        heldTick, heldStamp := Some(r.sensorTick), r.sensorSendNs;
      }
      var age := if heldTick.Some? then r.tick - heldTick.value else n + 1;
      ok := ok && r.staleness == Min(0xffff_ffff, age)
            && r.sensorTick == (if heldTick.Some? then heldTick.value else 0xffff_ffff_ffff_ffff)
            && r.sensorSendNs == heldStamp;
      assert ok <==> was && HistoryOk(rows, n);
    }
  }

  method WindowErrors(name: string, l: Link, rows: Rows, raw: nat) returns (errors: seq<string>)
    ensures errors == [] <==> Tallied(l, rows, raw)
  {
    errors := [];
    var ladder := Ladder(rows);
    if ladder != [l.window.fresh_, l.window.coast, l.window.neutral, l.window.lost] {
      errors := errors + [name + " ladder flags"];
    }
    if l.counts.consumed != Count(rows, Fresh) { errors := errors + [name + " consumption"]; }
    if l.window.served != Count(rows, Served) { errors := errors + [name + " served"]; }
    if l.window.sent != Count(rows, Delivered) { errors := errors + [name + " ordinary send"]; }
    if l.window.failed != Count(rows, Undelivered) { errors := errors + [name + " ordinary failure"]; }
    if l.counts.aged != Sum(rows, Aged) { errors := errors + [name + " discarded_old"]; }
    if l.counts.superseded != Sum(rows, Superseded) { errors := errors + [name + " discarded_superseded"]; }
    if l.counts.nonfinite + l.counts.skewExcess != Sum(rows, Other) { errors := errors + [name + " discarded_other"]; }
    if Sum(rows, Received) != l.counts.received + l.counts.Bad() + raw { errors := errors + [name + " raw receipt"]; }
  }

  method DistributionErrors(name: string, d: Distribution, rows: Rows, f: Control -> int) returns (errors: seq<string>)
    ensures errors == [] <==> Matches(d, rows, f)
  {
    errors := [];
    if d.count != Count(rows, Served) { errors := errors + [name + " population"]; }
    if d.sum != Sum(rows, f) || !(forall r <- rows :: Served(r) ==> 0 <= f(r) <= HIGHEST_NS) {
      errors := errors + [name + " formula"];
    }
    if d.dropped != 0 { errors := errors + [name + " drops"]; }
  }

  method TerminalErrors(s: Summary, rows: Rows) returns (errors: seq<string>)
    ensures errors == [] <==> TerminalPartition(s, rows)
  {
    errors := [];
    var t := s.terminal;
    if t.cycle != Count(rows, IsTerminal) || t.cycle > 1 { errors := errors + ["terminal cycle"]; }
    if t.attempts != t.transmitted + t.txFail || !(if t.cycle > 0 then t.attempts >= 1 else t.attempts == 0) {
      errors := errors + ["terminal partition"];
    }
    if !(if t.cycle > 0 then
           && rows != [] && t.firstTxOk.Some? && t.firstTxOk.value == Flag(rows[|rows| - 1], 2)
           && t.transmitted >= (if t.firstTxOk.value then 1 else 0) && t.txFail >= (if t.firstTxOk.value then 0 else 1)
         else t.firstTxOk.None?)
    {
      errors := errors + ["terminal first send"];
    }
    if s.link.window.sent + s.link.window.failed != s.totalCycles - t.cycle { errors := errors + ["E1"]; }
    if s.actuator != Totals(s.totalCycles - t.cycle, s.link.window.sent, s.link.window.failed) {
      errors := errors + ["actuator totals"];
    }
  }

  method IdentityErrors(s: Summary) returns (errors: seq<string>)
    ensures errors == [] <==> Identities(s)
  {
    hide EmptyWindow, A.Counts.Closes, Window.Rungs;
    errors := [];
    if s.totalCycles > s.warmup {
      if s.parkedAtWarmup.None? || !s.recorded.counts.Closes(s.parkedAtWarmup.value, s.parkedAtEnd) {
        errors := errors + ["T4"];
      }
    } else if s.parkedAtWarmup.Some? || !EmptyWindow(s.recorded) {
      errors := errors + ["unopened window"];
    }
    if !s.link.counts.Closes(0, s.parkedAtEnd) { errors := errors + ["E3"]; }
    if s.link.window.Rungs() != s.totalCycles { errors := errors + ["E2"]; }
    if s.recorded.window.Rungs() != Max(0, s.totalCycles - s.warmup) { errors := errors + ["recorded ladder"]; }
  }

  method OwnershipErrors(s: Summary, rows: Rows) returns (errors: seq<string>)
    ensures errors == [] <==> Owned(s, rows)
  {
    errors := [];
    if s.cycles != Max(0, s.totalCycles - s.warmup) { errors := errors + ["actual recorded window"]; }
    if |rows| != s.totalCycles || s.totalCycles != s.recordsWritten { errors := errors + ["recording count"]; }
    if s.recordsDropped != 0 || !(forall r <- rows :: r.drops == 0) { errors := errors + ["recording drops"]; }
    if s.transitions != s.totalCycles || s.recordAttempts != s.totalCycles || s.recordsPushed != s.totalCycles {
      errors := errors + ["record ownership"];
    }
  }

  method TimingErrors(s: Summary, window: Rows) returns (errors: seq<string>)
    ensures errors == [] <==> Timed(s, window)
  {
    var a := DistributionErrors("latency_us", s.latency, window, Latency);
    var b := DistributionErrors("uplink_wait_us", s.uplinkWait, window, UplinkWait);
    var d := DistributionErrors("vehicle_compute_us", s.compute, window, Compute);
    errors := a + b + d;
    var c, count := s.recorded.counts, Max(0, s.totalCycles - s.warmup);
    if s.jitterCount != s.execCount || s.execCount != s.cycles || s.cycles != count || s.droppedSamples != 0 {
      errors := errors + ["T1"];
    }
    if s.latency.count != s.recorded.window.served { errors := errors + ["T2"]; }
    if s.discardAge.count != c.aged + c.superseded + c.nonfinite + c.skewExcess { errors := errors + ["T3"]; }
    if s.discardAge.dropped != 0 { errors := errors + ["discard histogram drops"]; }
    if count == 0 && s.discardAge.sum != 0 { errors := errors + ["empty discard population"]; }
  }

  /** The audit reports nothing exactly when every population agrees with the recording. */
  method Validate(s: Summary, rows: Rows) returns (errors: seq<string>)
    ensures errors == [] <==> Passes(s, rows)
  {
    hide Owned, Identities, TerminalPartition, Tallied, Timed, HistoryOk, OnSchedule, InOrder, FewReceipts, WindowRows;
    var owned := OwnershipErrors(s, rows);
    var identities := IdentityErrors(s);
    var terminal := TerminalErrors(s, rows);
    errors := owned + identities + terminal;
    if !(forall n | 0 <= n < |rows| :: OnSchedule(s, n, rows[n])) { errors := errors + ["record ticks"]; }
    if !(forall n | 0 <= n < |rows| :: InOrder(rows[n])) { errors := errors + ["timestamp order"]; }
    if !(forall n | 0 <= n < |rows| :: FewReceipts(n, rows[n])) { errors := errors + ["receive bounds"]; }
    var history := Observations(rows);
    if !history { errors := errors + ["admitted observation history"]; }
    var episode := WindowErrors("episode", s.link, rows, s.terminal.raw);
    var recorded := WindowErrors("recorded", s.recorded, WindowRows(rows, s.warmup), s.terminal.rawRecorded);
    var timing := TimingErrors(s, WindowRows(rows, s.warmup));
    errors := errors + episode + recorded + timing;
  }
}
