/** What an audit that reports nothing tells: what it recomputes is pinned down, and one counter off is reported. */
module AuditMeaning {
  import opened Basics
  import opened Payload
  import opened Reconcile
  import H = History
  import Audit
  import Episode
  import Simulator
  import Intervals
  import Verdict
  import Rng

  function One(b: bool): nat { if b then 1 else 0 }

  // Counters

  /** How many counters two records disagree in. */
  function SendsApart(c: SendCounts, d: SendCounts): nat {
    One(c.generated != d.generated) + One(c.originalAttempts != d.originalAttempts)
      + One(c.retryAttempts != d.retryAttempts) + One(c.notAttempted != d.notAttempted)
      + One(c.sendAttempts != d.sendAttempts) + One(c.sendPending != d.sendPending) + One(c.txFail != d.txFail)
      + One(c.transmitted != d.transmitted) + One(c.firstTransmitted != d.firstTransmitted)
      + One(c.additionalCopies != d.additionalCopies) + One(c.neverTransmitted != d.neverTransmitted)
  }

  function ReceiptsApart(c: ReceiveCounts, d: ReceiveCounts): nat {
    One(c.receivedRaw != d.receivedRaw) + One(c.malformed != d.malformed) + One(c.received != d.received)
      + One(c.decodePending != d.decodePending) + One(c.logicalReceived != d.logicalReceived)
      + One(c.discardedDuplicate != d.discardedDuplicate) + One(c.rejectedReceived != d.rejectedReceived)
      + One(c.classificationPending != d.classificationPending) + One(Sum(c.parts) != Sum(d.parts))
  }

  /** Whichever one counter of a sender is off, the audit reports it. */
  lemma OneSendOff(c: SendCounts, d: SendCounts)
    requires SenderErrors(c) == [] && SendsApart(c, d) == 1
    ensures SenderErrors(d) != []
  {
    hide SenderErrors;
    BalancedHasNoErrors(c);
    BalancedHasNoErrors(d);
  }

  /** And so for a receiver, the sum of its dispositions being one. */
  lemma OneReceiptOff(c: ReceiveCounts, d: ReceiveCounts)
    requires ReceiverBalanced(c) && ReceiptsApart(c, d) == 1
    ensures !ReceiverBalanced(d)
  {}

  // The lockstep history

  /** What the frames sent say of a record. */
  predicate SameSeen(c: Control, d: Control) {
    && c.tick == d.tick && c.sensorTick == d.sensorTick && c.theta == d.theta && c.omega == d.omega
    && c.staleness == d.staleness && c.flags % 2 == d.flags % 2 && c.rxCount == d.rxCount
    && c.discardedOld == d.discardedOld && c.discardedSuperseded == d.discardedSuperseded
    && c.discardedOther == d.discardedOther && c.deadlineNs == d.deadlineNs && c.wokeNs == d.wokeNs
    && c.doneNs == d.doneNs && c.sensorSendNs == d.sensorSendNs && c.rxNs == d.rxNs && c.txNs == d.txNs
  }

  /** What the record of a tick says of its reply: everything but the rung. */
  predicate SameReply(a: Actuator, b: Actuator) {
    && a.tick == b.tick && a.vehTick == b.vehTick && a.delta == b.delta && a.staleness == b.staleness
    && a.status % 0x1_0000 == b.status % 0x1_0000 && a.status / 0x100_0000 == b.status / 0x100_0000
  }

  lemma TwoBytes(x: nat, y: nat)
    requires x % 256 == y % 256 && x / 256 % 256 == y / 256 % 256
    ensures x % 0x1_0000 == y % 0x1_0000
  {
    assert x % 0x1_0000 == x % 256 + 256 * (x / 256 % 256);
    assert y % 0x1_0000 == y % 256 + 256 * (y / 256 % 256);
  }

  lemma TickDetermined(k: nat, held: Option<Episode.Obs<word>>, s: Sensor, c: Control, a: Actuator,
                       r: Simulator.SimRow, d: Control, b: Actuator, q: Simulator.SimRow)
    requires H.TickAgrees(k, held, s, c, a, r) && H.TickAgrees(k, held, s, d, b, q)
    ensures SameSeen(c, d) && r.tick == q.tick && (c == d ==> SameReply(a, b))
  {
    if c == d {
      TwoBytes(a.status, b.status);
    }
  }

  /** Two histories of the same frames that both pass agree in all that the frames decide of the records; and where
      the records agree too, in the replies. */
  lemma HistoryIsDetermined(a: H.Recordings, b: H.Recordings, n: nat, k: nat)
    requires k < n <= a.Length() && n <= b.Length() && a.sensors == b.sensors
    requires H.HistoryAgrees(a, n) && H.HistoryAgrees(b, n)
    ensures SameSeen(a.controls[k], b.controls[k]) && a.rows[k].tick == b.rows[k].tick
    ensures a.controls[k] == b.controls[k] ==> SameReply(a.replies[k], b.replies[k])
  {
    hide H.TickAgrees, SameSeen, SameReply, H.Held;
    TickDetermined(k, H.Held(a.sensors[..k + 1]), a.sensors[k], a.controls[k], a.replies[k], a.rows[k], b.controls[k],
                   b.replies[k], b.rows[k]);
  }

  // Eligible evidence

  /** One direction of a run of `n` ticks: every message was attempted and went out, every copy that went out arrived
      well formed, and each is the first of its tick, a duplicate or a rejected one. */
  predicate Explained(l: Verdict.Leg, n: nat) {
    var tx, rx := l.tx, l.rx;
    && tx.generated == tx.originalAttempts == tx.firstTransmitted == rx.logicalReceived == Sum(rx.parts) == n
    && tx.transmitted == n + tx.additionalCopies == rx.receivedRaw == rx.received
       == n + rx.discardedDuplicate + rx.rejectedReceived
    && tx.sendAttempts == n + tx.retryAttempts == tx.transmitted + tx.txFail
    && tx.notAttempted == tx.sendPending == tx.neverTransmitted == 0
    && rx.malformed == rx.decodePending == rx.classificationPending == 0
  }

  lemma LegExplained(l: Verdict.Leg, n: nat)
    requires SenderBalanced(l.tx) && ReceiverBalanced(l.rx) && Verdict.Clean(l)
    requires l.tx.generated == l.rx.logicalReceived == n
    ensures Explained(l, n)
  {
    hide Sum;
  }

  lemma {:induction false} AllSent(log: seq<Control>)
    requires H.Unsent(log) == 0
    ensures forall k | 0 <= k < |log| :: log[k].flags / 2 % 2 == 1
    decreases |log|
  {
    if log != [] {
      var n := |log| - 1;
      AllSent(log[..n]);
      assert forall k | 0 <= k < n :: log[..n][k] == log[k];
    }
  }

  /** What eligible evidence of `n` ticks tells: both directions explained, one record per tick with its first reply
      sent, four recordings of `n` ticks that agree, and `n` draws from each stream. */
  lemma EligibleMeans(e: Verdict.Evidence)
    requires Verdict.Eligible(e)
    ensures e.totalCycles > 0 && Explained(e.up, e.totalCycles) && Explained(e.down, e.totalCycles)
    ensures var n, r := e.totalCycles, e.recordings;
            && e.records == e.events.episodeTransitions == e.events.recordAttempts == e.events.recordsPushed == n
            && e.dropped == e.events.ringDrops == e.events.recordPending == e.originalTxFail == 0
            && |r.sensors| == |r.controls| == |r.replies| == |r.rows| == n
            && H.HistoryAgrees(r, n) && H.Tallied(r.sensors) == e.tally
            && (forall k | 0 <= k < n :: r.controls[k].flags / 2 % 2 == 1)
            && e.upFinal == Rng.StateAfter(Rng.StreamState(e.seed, 0), n)
            && e.downFinal == Rng.StateAfter(Rng.StreamState(e.seed, 1), n)
            && r.controls[n - 1].state == 3 && r.controls[n - 1].reason == e.ending.reason
            && r.controls[n - 1].tick == e.ending.reasonTick
  {
    hide H.HistoryAgrees, H.Tallied, H.Unsent, SenderBalanced, ReceiverBalanced, Verdict.Clean, Explained,
         Rng.StreamState, Rng.StateAfter, H.Paired;
    var n, r := e.totalCycles, e.recordings;
    LegExplained(e.up, n);
    LegExplained(e.down, n);
    AllSent(r.controls);
    Rng.StateIsLinear(Rng.StreamState(e.seed, 0), n);
    Rng.StateIsLinear(Rng.StreamState(e.seed, 1), n);
    assert r.sensors[..n] == r.sensors;
  }

  // The free-run summary

  predicate SameWindow(l: Audit.Link, m: Audit.Link) {
    var c, d := l.counts, m.counts;
    && l.window == m.window && c.consumed == d.consumed && c.aged == d.aged && c.superseded == d.superseded
    && c.nonfinite + c.skewExcess == d.nonfinite + d.skewExcess && c.received + c.Bad() == d.received + d.Bad()
  }

  predicate SameTimes(a: Intervals.Distribution, b: Intervals.Distribution) {
    a.count == b.count && a.sum == b.sum && a.dropped == b.dropped
  }

  lemma WindowDetermined(l: Audit.Link, m: Audit.Link, rows: Audit.Rows, raw: nat)
    requires Audit.Tallied(l, rows, raw) && Audit.Tallied(m, rows, raw)
    ensures SameWindow(l, m)
  {
    hide Audit.Count, Audit.Sum;
  }

  /** A recording and its terminal notices leave the audit one summary to accept: cycles, records, both windows, the
      terminal cycle and its first send, the totals and every distribution's population and sum. */
  lemma SummaryIsDetermined(s: Audit.Summary, t: Audit.Summary, rows: Audit.Rows)
    requires Audit.Passes(s, rows) && Audit.Passes(t, rows) && s.warmup == t.warmup
    requires s.terminal.raw == t.terminal.raw && s.terminal.rawRecorded == t.terminal.rawRecorded
    ensures s.totalCycles == t.totalCycles && s.cycles == t.cycles && s.recordsWritten == t.recordsWritten
    ensures s.recordsDropped == t.recordsDropped && s.transitions == t.transitions
    ensures s.recordAttempts == t.recordAttempts && s.recordsPushed == t.recordsPushed
    ensures SameWindow(s.link, t.link) && SameWindow(s.recorded, t.recorded)
    ensures s.terminal.cycle == t.terminal.cycle && s.terminal.firstTxOk == t.terminal.firstTxOk
    ensures s.actuator == t.actuator
    ensures SameTimes(s.latency, t.latency) && SameTimes(s.uplinkWait, t.uplinkWait) && SameTimes(s.compute, t.compute)
    ensures s.discardAge.count == t.discardAge.count && s.jitterCount == t.jitterCount && s.execCount == t.execCount
    ensures rows != [] ==> s.tickBase == t.tickBase && s.originNs == t.originNs
  {
    hide Audit.Count, Audit.Sum, Audit.Tallied, Audit.Identities, Audit.HistoryOk, Audit.WindowRows;
    WindowDetermined(s.link, t.link, rows, s.terminal.raw);
    WindowDetermined(s.recorded, t.recorded, Audit.WindowRows(rows, s.warmup), s.terminal.rawRecorded);
    if rows != [] {
      assert Audit.RowOk(s, 0, rows[0]) && Audit.RowOk(t, 0, rows[0]);
    }
  }
}
