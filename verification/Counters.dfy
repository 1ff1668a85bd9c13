/** Both sides of the lockstep exchange keep the audit's counter equations after every step. */
module Counters {
  import opened Basics
  import opened Episode
  import opened Frames
  import opened Payload
  import opened Reconcile
  import opened Headless
  import opened Session
  import opened Simulator
  import opened Refinement
  import Rng

  // The simulator

  function Attempts(p: Phase): nat {
    match p
    case Sending(a) => a
    case Listening(a) => a + 1
    case Ended(_) => ATTEMPTS
  }

  /** The equations, with what else keeps them true: one first attempt per tick, at most 26 attempts per tick,
      one recorded frame per tick sent, one reply and one row per logical receipt. */
  predicate SimulatorCounts(s: Sim) {
    var c := s.up.counts;
    && SenderBalanced(c) && c.sendPending == 0
    && c.notAttempted == (if s.phase == Sending(0) then 1 else 0)
    && (!s.logged ==> c.neverTransmitted >= 1)
    && c.generated == |s.core.rows| + (if s.phase == Ended(0) then 0 else 1)
    && Attempts(s.phase) <= ATTEMPTS && (s.phase.Sending? ==> s.phase.attempt < ATTEMPTS)
    && c.sendAttempts <= ATTEMPTS * (c.generated - 1) + Attempts(s.phase)
    && |s.inputs| == c.firstTransmitted
    && ReceiverBalanced(s.down.Audited()) && s.down.counts.decodePending == 0
    && s.down.counts.classificationPending == 0
    && |s.replies| == |s.core.rows| == s.down.counts.logicalReceived
    && 0 <= s.down.testDiscarded && 0 <= s.down.discardedOld
    && s.down.counts.rejectedReceived
       <= s.down.testDiscarded + s.down.discardedOld + (if s.phase == Ended(1) then 1 else 0)
    && s.down.testDiscarded + s.down.discardedOld <= s.down.counts.rejectedReceived
  }

  /** The same between a closed tick and the next one. */
  predicate ClosedCounts(s: Sim) {
    var c := s.up.counts;
    && SenderBalanced(c) && c.sendPending == 0 && c.notAttempted == 0
    && c.generated == |s.core.rows| && c.sendAttempts <= ATTEMPTS * c.generated && |s.inputs| == c.firstTransmitted
    && ReceiverBalanced(s.down.Audited()) && s.down.counts.decodePending == 0
    && s.down.counts.classificationPending == 0
    && |s.replies| == |s.core.rows| == s.down.counts.logicalReceived
    && 0 <= s.down.testDiscarded && 0 <= s.down.discardedOld
    && s.down.testDiscarded + s.down.discardedOld == s.down.counts.rejectedReceived
  }

  lemma ReceiptBalanced(r: Receipt)
    ensures ReceiverBalanced(r.Audited()) <==>
            && r.counts.(parts := []).Natural() && 0 <= r.modeledCommandLoss && 0 <= r.forwardedToDelay
            && r.counts.receivedRaw == r.counts.malformed + r.counts.received + r.counts.decodePending
            && r.counts.received == r.counts.logicalReceived + r.counts.discardedDuplicate + r.counts.rejectedReceived
                                    + r.counts.classificationPending
            && r.counts.logicalReceived == r.modeledCommandLoss + r.forwardedToDelay
  {
    var parts := [r.modeledCommandLoss, r.forwardedToDelay, 0];
    SumParts(r.modeledCommandLoss, r.forwardedToDelay, 0, 0);
    assert parts[0] in parts && parts[1] in parts;
  }

  lemma OpenCounts(sc: Scenario, s: Sim)
    requires ClosedCounts(s)
    ensures SimulatorCounts(OpenTick(sc, s))
  {
    hide OpeningOf, ReceiverBalanced, Rng.DrawDrop;
    GenerateBalances(s.up.counts);
  }

  lemma NothingYet(r: Receipt, up: Uplink, c: SendCounts)
    requires r == Receipt(NO_RECEIPTS, 0, 0, 0, 0) && up == NO_UPLINK && c == NOTHING_SENT
    ensures ReceiverBalanced(r.Audited()) && ReceiverBalanced(AuditedUp(up)) && SenderBalanced(c)
  {
    hide ReceiverBalanced;
    ReceiptBalanced(r);
    UplinkBalanced(up);
  }

  lemma BeginCounts(w: World)
    ensures SimulatorCounts(Begin(w))
  {
    hide OpenTick, Rng.StreamState, SenderBalanced, ReceiverBalanced, SimulatorCounts;
    var blank := Between(StartCore(w), NO_TRAFFIC, [], None, None);
    NothingYet(blank.down, NO_UPLINK, blank.up.counts);
    OpenCounts(w.sc, blank);
  }

  lemma SendCountsKept(s: Sim, ok: bool)
    requires SimulatorCounts(s) && s.phase.Sending?
    ensures SimulatorCounts(AfterSend(s, ok))
  {
    hide ReceiverBalanced, SenderBalanced;
    BeginBalances(s.up.counts, s.phase.attempt == 0);
    FinishBalances(BeginSend(s.up.counts, s.phase.attempt == 0), s.logged, ok);
  }

  lemma AcceptCounts(sc: Scenario, s: Sim, data: seq<byte>, v: Actuator)
    requires SimulatorCounts(s) && s.phase.Listening?
    ensures SimulatorCounts(Accept(sc, s, data, v))
  {
    hide ReceiverBalanced, SenderBalanced, Released, ActuatorStep, PendingReason, IsFinite, OpenTick;
    var core := Close(sc, s.core, s.now, v.delta, v.status % 256).0;
    var down := Count(s.down, 0, 1, 0, 0, 1);
    var t := s.(core := core, replies := s.replies + [v], lastReply := Some(data),
                down := if s.now.downDrop then down.(modeledCommandLoss := down.modeledCommandLoss + 1)
                        else down.(forwardedToDelay := down.forwardedToDelay + 1),
                vehicleSeen := if v.status % 256 == TERMINATED.Code() then Some(v.status / 256 % 256)
                               else s.vehicleSeen);
    ReceiptBalanced(s.down);
    ReceiptBalanced(t.down);
    assert core.rows[..|s.core.rows|] == s.core.rows && |core.rows| == |s.core.rows| + 1;
    assert ClosedCounts(t);
    OpenCounts(sc, t);
  }

  /** A datagram that is only counted. */
  lemma CountKeeps(s: Sim, down: Receipt, code: Phase)
    requires SimulatorCounts(s) && s.phase.Listening? && (code == s.phase || code == Ended(1))
    requires || down == Count(s.down, 1, 0, 0, 0, 0) || down == Count(s.down, 0, 1, 1, 0, 0)
             || down == Count(s.down, 0, 1, 0, 1, 0).(testDiscarded := s.down.testDiscarded + 1)
             || down == Count(s.down, 0, 1, 0, 1, 0).(discardedOld := s.down.discardedOld + 1)
             || (down == Count(s.down, 0, 1, 0, 1, 0) && code == Ended(1))
    ensures SimulatorCounts(s.(down := down, phase := code))
  {
    hide ReceiverBalanced, SenderBalanced;
    ReceiptBalanced(s.down);
    ReceiptBalanced(down);
  }

  lemma DataCounts(w: World, s: Sim, data: seq<byte>)
    requires SimulatorCounts(s) && s.phase.Listening?
    ensures SimulatorCounts(OnData(w, s, data))
  {
    hide SimulatorCounts, ReplyIn, Accept, IsFinite, Count;
    var n := OnData(w, s, data);
    if ReplyIn(data).Some? && n == Accept(w.sc, s, data, ReplyIn(data).value) {
      AcceptCounts(w.sc, s, data, ReplyIn(data).value);
    } else {
      assert n == s.(down := n.down, phase := n.phase);
      CountKeeps(s, n.down, n.phase);
    }
  }

  lemma CallCounts(w: World, s: Sim, o: Outcome)
    requires SimulatorCounts(s)
    ensures SimulatorCounts(Next(w, s, o))
  {
    hide ReceiverBalanced, SenderBalanced, OnData, AfterSend;
    match s.phase {
      case Sending(_) => SendCountsKept(s, o.Sent? && o.ok);
      case Listening(_) => if o.Got? { DataCounts(w, s, o.data); }
      case Ended(_) =>
    }
  }

  // The vehicle

  /** The equations between two passes of the loop: every logical receipt is one episode step, one record attempt
      and one generated reply. */
  predicate VehicleCounts(v: View) {
    var c, e := v.down, v.events;
    && SenderBalanced(c) && c.sendPending == 0 && c.notAttempted == 0
    && (v.answered && !v.replyTransmitted ==> c.neverTransmitted >= 1) && v.originalTxFail <= c.txFail
    && ReceiptCounts(v.up)
    && v.up.counts.logicalReceived == c.generated == e.episodeTransitions == e.recordAttempts
    && 0 <= c.generated && 0 <= c.neverTransmitted && e.recordPending == 0
    && e.recordAttempts == e.recordsPushed + e.ringDrops
    && 0 <= e.recordsPushed && 0 <= e.ringDrops && 0 <= e.pidCalls <= e.episodeTransitions
    && e.pidCalls <= v.up.admitted && c.neverTransmitted <= v.originalTxFail
    && (v.answered <==> c.generated > 0)
  }

  predicate ReceiptCounts(up: Uplink) {
    && ReceiverBalanced(AuditedUp(up)) && up.counts.decodePending == 0 && up.counts.classificationPending == 0
    && up.counts.malformed == up.bad.Total()
    && up.counts.rejectedReceived == up.discardedOld + up.discardedTickConflict + up.skippedTick
  }

  lemma UplinkBalanced(up: Uplink)
    ensures ReceiverBalanced(AuditedUp(up)) <==>
            && up.counts.(parts := []).Natural()
            && up.counts.receivedRaw == up.counts.malformed + up.counts.received + up.counts.decodePending
            && up.counts.received == up.counts.logicalReceived + up.counts.discardedDuplicate
                                     + up.counts.rejectedReceived + up.counts.classificationPending
            && up.counts.logicalReceived == up.admitted + up.sampleInvalid + up.sampleNonfinite
  {
    SumParts(0, 0, 0, 0);
    SumParts(up.admitted, up.sampleInvalid, up.sampleNonfinite, 0);
  }

  /** After a receive: a new cycle is one more of everything, and its reply has yet to be attempted. */
  predicate ReceivedCounts(v: View, n: View, kind: Disposition) {
    && ReceiptCounts(n.up)
    && (kind == Discard || kind == Fatal ==> n.down == v.down && n.events == v.events && n.answered == v.answered
                                             && n.replyTransmitted == v.replyTransmitted
                                             && n.up.counts.logicalReceived == v.up.counts.logicalReceived
                                             && n.up.admitted == v.up.admitted)
    && (kind == Cached ==> n.down == v.down && n.events == v.events && n.answered == v.answered && v.answered
                           && n.replyTransmitted == v.replyTransmitted
                           && n.up.counts.logicalReceived == v.up.counts.logicalReceived
                           && n.up.admitted == v.up.admitted)
    && (kind == New ==> n.down == Generate(v.down) && n.answered && !n.replyTransmitted
                        && n.events == v.events.(episodeTransitions := v.events.episodeTransitions + 1,
                                                 recordPending := v.events.recordPending + 1,
                                                 pidCalls := n.events.pidCalls)
                        && 0 <= n.events.pidCalls - v.events.pidCalls <= n.up.admitted - v.up.admitted <= 1
                        && n.up.counts.logicalReceived == v.up.counts.logicalReceived + 1)
    && n.originalTxFail == v.originalTxFail
  }

  lemma SampleCounts(up: Uplink, s: Sensor)
    requires ReceiptCounts(up)
    ensures ReceiptCounts(CountSample(CountReceived(up), s))
  {
    hide SampleFresh, Flag, ReceiverBalanced;
    UplinkBalanced(up);
    UplinkBalanced(CountSample(CountReceived(up), s));
  }

  lemma ReceiptSteps(up: Uplink, e: DatagramError)
    requires ReceiptCounts(up)
    ensures ReceiptCounts(CountBad(up, e))
    ensures var c := CountReceived(up);
            && ReceiptCounts(c.(counts := c.counts.(discardedDuplicate := c.counts.discardedDuplicate + 1)))
            && ReceiptCounts(Reject(c).(discardedTickConflict := c.discardedTickConflict + 1))
            && ReceiptCounts(Reject(c).(discardedOld := c.discardedOld + 1))
            && ReceiptCounts(Reject(c).(skippedTick := c.skippedTick + 1))
  {
    hide ReceiverBalanced;
    var c := CountReceived(up);
    UplinkBalanced(up);
    UplinkBalanced(CountBad(up, e));
    UplinkBalanced(c.(counts := c.counts.(discardedDuplicate := c.counts.discardedDuplicate + 1)));
    UplinkBalanced(Reject(c).(discardedTickConflict := c.discardedTickConflict + 1));
    UplinkBalanced(Reject(c).(discardedOld := c.discardedOld + 1));
    UplinkBalanced(Reject(c).(skippedTick := c.skippedTick + 1));
  }

  lemma ReceiveCountsKept(p: Policy<word>, v: View, packet: Datagram)
    requires VehicleCounts(v) && Sane(v)
    ensures ReceivedCounts(v, Received(p, v, packet).0, Received(p, v, packet).1)
  {
    hide ReceiptCounts, SenderBalanced, Decode, DecodeSensor, NewCycle, CountSample, RecordOf, ReplyOf, SampleInputs,
         Step, Flag, CountBad, Generate;
    var d := Decode(packet);
    ReceiptSteps(v.up, if d.Bad? then d.error else BadSync);
    if d.Good? {
      NewCycleFields(p, v.(up := CountReceived(v.up)), d.payload);
      SampleCounts(v.up, DecodeSensor(d.payload));
      SampleLogical(CountReceived(v.up), DecodeSensor(d.payload));
      InputsFresh(DecodeSensor(d.payload), v.held, v.up.counts.logicalReceived % TWO64);
    } else {
      BadLogical(v.up, d.error);
    }
  }

  lemma InputsFresh(s: Sensor, held: Option<Obs<word>>, cycle: nat)
    ensures SampleInputs(s, held, cycle).isFresh == SampleFresh(s)
  {
    hide SampleFresh, SampleAge, Flag;
  }

  lemma BadLogical(up: Uplink, e: DatagramError)
    ensures CountBad(up, e).counts.logicalReceived == up.counts.logicalReceived
    ensures CountBad(up, e).admitted == up.admitted
  {}

  lemma SampleLogical(up: Uplink, s: Sensor)
    ensures CountSample(up, s).counts.logicalReceived == up.counts.logicalReceived + 1
    ensures CountSample(up, s).admitted == up.admitted + if SampleFresh(s) then 1 else 0
  {
    hide SampleFresh, Flag;
  }

  lemma NewPass(v: View, n: View, sent: bool, pushed: bool)
    requires VehicleCounts(v) && ReceivedCounts(v, n, New)
    ensures VehicleCounts(RecordNoted(SendFinished(SendBegun(n, true), true, sent), pushed))
    ensures SenderBalanced(n.down) && SenderBalanced(SendBegun(n, true).down)
    ensures SenderBalanced(SendFinished(SendBegun(n, true), true, sent).down)
  {
    hide ReceiptCounts, SenderBalanced, WithTransmitted;
    GenerateBalances(v.down);
    BeginBalances(n.down, true);
    FinishBalances(BeginSend(n.down, true), false, sent);
  }

  lemma CachedPass(v: View, n: View, sent: bool)
    requires VehicleCounts(v) && ReceivedCounts(v, n, Cached)
    ensures VehicleCounts(SendFinished(SendBegun(n, false), false, sent))
    ensures SenderBalanced(n.down) && SenderBalanced(SendBegun(n, false).down)
    ensures SenderBalanced(SendFinished(SendBegun(n, false), false, sent).down)
  {
    hide ReceiptCounts, SenderBalanced;
    BeginBalances(n.down, false);
    FinishBalances(BeginSend(n.down, false), n.replyTransmitted, sent);
  }

  /** The equations hold after the receive, after the send begins, after it ends and after the record is noted. */
  lemma PassCounts(p: Policy<word>, v: View, packet: Datagram, sent: bool, pushed: bool)
    requires VehicleCounts(v) && Sane(v)
    ensures VehicleCounts(Handle(p, v, packet, sent, pushed).view)
    ensures var (n, kind) := Received(p, v, packet);
            && ReceiptCounts(n.up) && SenderBalanced(n.down)
            && (kind == New || kind == Cached ==>
                  var b := SendBegun(n, kind == New);
                  SenderBalanced(b.down) && SenderBalanced(SendFinished(b, kind == New, sent).down))
  {
    hide ReceiptCounts, SenderBalanced, Received, WithTransmitted, SendFinished, SendBegun, RecordNoted;
    var (n, kind) := Received(p, v, packet);
    ReceiveCountsKept(p, v, packet);
    if kind == New {
      NewPass(v, n, sent, pushed);
    } else if kind == Cached {
      CachedPass(v, n, sent);
    }
  }

  lemma StopCounts(v: View, why: Reason)
    requires VehicleCounts(v)
    ensures VehicleCounts(Stopped(v, why))
  {}

  predicate Zero(up: Uplink) {
    var c := up.counts;
    && c.receivedRaw == c.malformed == c.received == c.decodePending == c.logicalReceived == c.discardedDuplicate
       == c.rejectedReceived == c.classificationPending == 0
    && up.admitted == up.sampleInvalid == up.sampleNonfinite == up.discardedOld == up.discardedTickConflict
       == up.skippedTick == 0
    && up.bad == BadCounts(0, 0, 0, 0, 0)
  }

  lemma NoUplinkZero(up: Uplink)
    requires up == NO_UPLINK
    ensures Zero(up)
  {}

  lemma ZeroReceipts(up: Uplink)
    requires Zero(up)
    ensures ReceiptCounts(up)
  {
    hide ReceiverBalanced;
    UplinkBalanced(up);
  }

  lemma ZeroSends(c: SendCounts)
    requires c == NOTHING_SENT
    ensures SenderBalanced(c) && c.sendPending == c.notAttempted == c.neverTransmitted == c.generated == c.txFail == 0
  {}

  lemma FreshCounts(v: View)
    requires Zero(v.up) && ReceiptCounts(v.up) && SenderBalanced(v.down)
    requires v.down.sendPending == v.down.notAttempted == v.down.neverTransmitted == v.down.generated == 0
    requires v.down.txFail == 0
    requires v.events.episodeTransitions == v.events.pidCalls == v.events.recordAttempts == v.events.recordsPushed
          == v.events.ringDrops == v.events.recordPending == 0
    requires v.originalTxFail == 0 && !v.answered
    ensures VehicleCounts(v)
  {
    hide ReceiptCounts, SenderBalanced;
  }

  // Every run

  lemma StartCounts(w: World)
    ensures SimulatorCounts(StartOf(w).sim) && VehicleCounts(StartOf(w).veh)
  {
    hide SimulatorCounts, VehicleCounts, Begin, Zero, ReceiptCounts, SenderBalanced;
    BeginCounts(w);
    var v := StartOf(w).veh;
    NoUplinkZero(v.up);
    ZeroReceipts(v.up);
    ZeroSends(v.down);
    FreshCounts(v);
  }

  lemma ActCounts(w: World, y: System, a: Action)
    requires Sane(y.veh) && SimulatorCounts(y.sim) && VehicleCounts(y.veh)
    ensures SimulatorCounts(Act(w, y, a).sim) && VehicleCounts(Act(w, y, a).veh)
  {
    hide SimulatorCounts, VehicleCounts, Next, Handle, Stopped;
    match a {
      case Call(o) => CallCounts(w, y.sim, o);
      case Serves(packet, sent, pushed) => PassCounts(PolicyOf(w.sc), y.veh, packet, sent, pushed);
      case Stops(why) => StopCounts(y.veh, why);
    }
  }

  /** After every action of any run both sides satisfy every audit equation, so the audit reports nothing. */
  lemma {:induction false} CountersBalance(w: World, actions: seq<Action>)
    requires Possible(w, actions)
    ensures SimulatorCounts(Reached(w, actions).sim) && VehicleCounts(Reached(w, actions).veh)
    decreases |actions|
  {
    hide SimulatorCounts, VehicleCounts, Act, StartOf, CanHappen;
    if actions == [] {
      StartCounts(w);
    } else {
      CountersBalance(w, actions[..|actions| - 1]);
      ActCounts(w, Reached(w, actions[..|actions| - 1]), actions[|actions| - 1]);
    }
  }

  lemma AuditsReportNothing(w: World, actions: seq<Action>)
    requires Possible(w, actions)
    ensures var y := Reached(w, actions);
            && SenderErrors(y.sim.up.counts) == [] && ReceiverBalanced(y.sim.down.Audited())
            && SenderErrors(y.veh.down) == [] && ReceiverBalanced(AuditedUp(y.veh.up))
            && y.veh.up.counts.logicalReceived == y.veh.down.generated == y.veh.events.episodeTransitions
  {
    hide Reached, SenderErrors, ReceiverBalanced, SenderBalanced;
    CountersBalance(w, actions);
    BalancedHasNoErrors(Reached(w, actions).sim.up.counts);
    BalancedHasNoErrors(Reached(w, actions).veh.down);
  }
}
