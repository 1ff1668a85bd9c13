/** The whole verdict of the offline lockstep audit, and the completed runs it finds eligible. */
module Verdict {
  import opened Basics
  import opened Payload
  import opened Episode
  import opened Reconcile
  import opened Headless
  import opened Session
  import opened Simulator
  import opened Lockstep
  import opened Refinement
  import opened HistoryRuns
  import opened Endings
  import Counters
  import Lossless
  import Rng
  import H = History

  /** One direction: what its sender and its receiver counted. */
  datatype Leg = Leg(tx: SendCounts, rx: ReceiveCounts)

  /** The two reports and the recordings, as the audit reads them. */
  datatype Evidence = Evidence(up: Leg, down: Leg, originalTxFail: int, totalCycles: int, records: int, dropped: int,
                               events: Events, tally: H.Tally, recordings: H.Recordings, seed: u64, upFinal: u64,
                               downFinal: u64, ending: H.Ending)

  // What the audit demands

  predicate Settled(rx: ReceiveCounts) {
    rx.decodePending == rx.classificationPending == rx.malformed == 0
    && rx.parts != [] && rx.parts[|rx.parts| - 1] == 0
  }

  predicate Clean(l: Leg) {
    && l.tx.transmitted == l.rx.receivedRaw && l.tx.notAttempted == l.tx.neverTransmitted == l.tx.sendPending == 0
    && Settled(l.rx)
  }

  predicate Recorded(e: Evidence) {
    var v := e.events;
    && 0 <= v.episodeTransitions && 0 <= v.pidCalls && 0 <= v.recordAttempts && 0 <= v.recordsPushed && 0 <= v.ringDrops
    && 0 <= v.recordPending
    && v.episodeTransitions == e.totalCycles == v.recordAttempts + v.recordPending
    && v.recordAttempts == v.recordsPushed + v.ringDrops
    && v.recordPending == 0 && v.ringDrops == e.dropped && v.recordsPushed == e.records
    && v.pidCalls <= e.tally.admitted
  }

  predicate Whole(e: Evidence) {
    var r, n := e.recordings, e.totalCycles;
    && n > 0 && |r.sensors| == |r.controls| == |r.replies| == |r.rows| == n
    && e.records == e.up.tx.generated == e.up.tx.firstTransmitted == e.up.rx.logicalReceived == n
    && e.down.tx.generated == e.down.rx.logicalReceived == n
  }

  predicate StreamsOwned(e: Evidence) {
    && e.upFinal as int == (Rng.StreamState(e.seed, 0) + e.up.tx.generated * Rng.GOLDEN) % TWO64
    && e.downFinal as int == (Rng.StreamState(e.seed, 1) + e.up.tx.generated * Rng.GOLDEN) % TWO64
  }

  predicate Consistent(r: H.Recordings, tally: H.Tally) {
    H.HistoryAgrees(r, r.Length()) && H.Tallied(r.sensors[..r.Length()]) == tally
  }

  predicate Eligible(e: Evidence) {
    && SenderBalanced(e.up.tx) && ReceiverBalanced(e.up.rx) && Clean(e.up)
    && SenderBalanced(e.down.tx) && ReceiverBalanced(e.down.rx) && Clean(e.down)
    && H.Unsent(e.recordings.controls) == e.originalTxFail == 0 && e.dropped == 0
    && Recorded(e) && Whole(e) && Consistent(e.recordings, e.tally) && StreamsOwned(e)
    && H.EndingErrors(e.ending, e.recordings.controls) == []
  }

  // The audit program

  method LegErrors(name: string, l: Leg) returns (errors: seq<string>, balanced: bool)
    ensures balanced <==> SenderBalanced(l.tx) && ReceiverBalanced(l.rx)
    ensures errors == [] <==> balanced && Clean(l)
  {
    hide SenderErrors, SenderBalanced, ReceiverBalanced;
    BalancedHasNoErrors(l.tx);
    var received := ReceiverErrors(l.rx);
    errors := SenderErrors(l.tx) + received;
    balanced := errors == [];
    if !balanced { return; }
    if l.tx.transmitted != l.rx.receivedRaw {
      errors := errors + [name + ": unexplained observed-send/receipt discrepancy"];
    }
    if l.tx.notAttempted != 0 { errors := errors + [name + ": incomplete not_attempted"]; }
    if l.tx.neverTransmitted != 0 { errors := errors + [name + ": incomplete never_transmitted"]; }
    if l.tx.sendPending != 0 { errors := errors + [name + ": incomplete send_pending"]; }
    if !Settled(l.rx) { errors := errors + [name + ": incomplete or invalid receipt"]; }
  }

  method EventErrors(e: Evidence) returns (errors: seq<string>)
    ensures errors == [] <==> Recorded(e)
  {
    errors := [];
    var v := e.events;
    if v.episodeTransitions < 0 || v.pidCalls < 0 || v.recordAttempts < 0 || v.recordsPushed < 0 || v.ringDrops < 0
       || v.recordPending < 0 {
      errors := errors + ["missing or invalid vehicle event counter"];
    }
    if v.episodeTransitions != e.totalCycles || v.episodeTransitions != v.recordAttempts + v.recordPending {
      errors := errors + ["transition/record attempt identity"];
    }
    if v.recordAttempts != v.recordsPushed + v.ringDrops { errors := errors + ["record push identity"]; }
    if v.recordPending != 0 || v.ringDrops != e.dropped || v.recordsPushed != e.records {
      errors := errors + ["incomplete record population"];
    }
    if v.pidCalls > e.tally.admitted { errors := errors + ["PID calls exceed admitted samples"]; }
  }

  /** The audit reports nothing exactly when the evidence is eligible. Unbalanced counters end it at once. */
  method ReconcileRun(e: Evidence) returns (errors: seq<string>)
    ensures errors == [] <==> Eligible(e)
  {
    hide SenderBalanced, ReceiverBalanced, Clean, Recorded, Whole, Consistent, StreamsOwned, H.Unsent, H.EndingErrors;
    var up, upBalanced := LegErrors("uplink", e.up);
    if !upBalanced { return up; }
    var down, downBalanced := LegErrors("downlink", e.down);
    errors := up + down;
    if !downBalanced { return; }
    if e.originalTxFail < 0 { errors := errors + ["missing or invalid original actuator failure counter"]; }
    if e.originalTxFail != 0 { errors := errors + ["original actuator send failed"]; }
    if H.Unsent(e.recordings.controls) != e.originalTxFail {
      errors := errors + ["TX_OK disagrees with original send outcomes"];
    }
    if e.dropped != 0 { errors := errors + ["ring drops"]; }
    var events := EventErrors(e);
    if !Whole(e) { events := events + ["incomplete logical artifacts"]; }
    var history := CheckHistory(e.recordings, e.tally);
    if !StreamsOwned(e) { history := history + ["RNG ownership mismatch"]; }
    errors := errors + events + history + H.EndingErrors(e.ending, e.recordings.controls);
  }

  method CheckHistory(r: H.Recordings, tally: H.Tally) returns (errors: seq<string>)
    ensures errors == [] <==> Consistent(r, tally)
  {
    errors := H.CheckHistory(r, tally);
  }

  // A completed run under the audit

  function EvidenceOf(w: World, y: System, r: H.Recordings): Evidence {
    Evidence(Leg(y.sim.up.counts, AuditedUp(y.veh.up)), Leg(y.veh.down, y.sim.down.Audited()), y.veh.originalTxFail,
             y.veh.up.counts.logicalReceived, y.veh.events.recordsPushed, y.veh.events.ringDrops, y.veh.events,
             TallyOf(y.veh.up), r, w.seed, y.sim.core.up, y.sim.core.down, EndingOf(y))
  }

  /** As many datagrams arrived as were sent, all of them well formed, and no first reply failed to go out. */
  predicate Quiet(y: System) {
    && y.sim.up.counts.transmitted == y.veh.up.counts.receivedRaw && y.veh.up.counts.malformed == 0
    && y.veh.down.transmitted == y.sim.down.counts.receivedRaw && y.sim.down.counts.malformed == 0
    && y.veh.originalTxFail == 0
  }

  /** The tail of every receiver's parts is a disposition it never leaves pending. */
  lemma NothingPending(up: Uplink, down: Receipt)
    ensures AuditedUp(up).parts == [up.admitted, up.sampleInvalid, up.sampleNonfinite, 0]
    ensures down.Audited().parts == [down.modeledCommandLoss, down.forwardedToDelay, 0]
  {}

  lemma UplinkClean(w: World, y: System)
    requires Counters.SimulatorCounts(y.sim) && Counters.VehicleCounts(y.veh) && y.sim.phase == Ended(0)
    requires |y.sim.inputs| == |y.sim.core.rows|
    ensures SenderBalanced(y.sim.up.counts) && ReceiverBalanced(AuditedUp(y.veh.up))
    ensures Clean(Leg(y.sim.up.counts, AuditedUp(y.veh.up))) <==>
              y.sim.up.counts.transmitted == y.veh.up.counts.receivedRaw && y.veh.up.counts.malformed == 0
    ensures y.sim.up.counts.generated == y.sim.up.counts.firstTransmitted == |y.sim.core.rows|
  {
    hide ReceiverBalanced;
    NothingPending(y.veh.up, y.sim.down);
  }

  lemma DownlinkClean(w: World, y: System)
    requires Counters.SimulatorCounts(y.sim) && Counters.VehicleCounts(y.veh) && y.sim.phase == Ended(0)
    ensures SenderBalanced(y.veh.down) && ReceiverBalanced(y.sim.down.Audited())
    ensures y.veh.originalTxFail == 0 ==>
              (Clean(Leg(y.veh.down, y.sim.down.Audited())) <==>
                 y.veh.down.transmitted == y.sim.down.counts.receivedRaw && y.sim.down.counts.malformed == 0)
    ensures Clean(Leg(y.veh.down, y.sim.down.Audited())) ==>
              y.veh.down.transmitted == y.sim.down.counts.receivedRaw && y.sim.down.counts.malformed == 0
    ensures y.sim.down.counts.logicalReceived == |y.sim.core.rows|
  {
    hide ReceiverBalanced;
    NothingPending(y.veh.up, y.sim.down);
  }

  lemma VehicleRecorded(v: View, n: nat, tally: H.Tally)
    requires Counters.VehicleCounts(v) && v.up.counts.logicalReceived == n && v.events.ringDrops == 0
    ensures v.down.generated == v.events.recordsPushed == v.events.episodeTransitions == v.events.recordAttempts == n
    ensures v.events.recordPending == 0 && 0 <= v.events.pidCalls <= v.up.admitted
  {
    hide SenderBalanced, ReceiverBalanced;
  }

  /** Of a run that ends with code 0 and no ring drop the audit demands nothing that the programs do not guarantee,
      but this: that as many datagrams arrived as were sent and none was garbled, that no first reply failed to go out,
      and that the run did not start lost. */
  lemma CompletedRunVerdict(w: World, actions: seq<Action>) returns (r: H.Recordings)
    requires Loaded(w.sc) && Possible(w, actions) && Completed(Reached(w, actions))
    ensures ReadsAs(Reached(w, actions).sim.inputs, r.sensors) && r.controls == Pushed(w, actions)
    ensures r.replies == Reached(w, actions).sim.replies && r.rows == Reached(w, actions).sim.core.rows
    ensures Eligible(EvidenceOf(w, Reached(w, actions), r)) <==> Quiet(Reached(w, actions)) && !StartsLost(w)
  {
    hide RunFor, Loaded, Reached, Possible, Pushed, StartsLost, SenderBalanced, ReceiverBalanced, Clean,
         H.HistoryAgrees, H.Tallied, H.EndingErrors, H.Unsent, EndingOf, Counters.SimulatorCounts,
         Counters.VehicleCounts, Rng.StreamState, AuditedUp;
    var y := Reached(w, actions);
    r := CompletedRunAgrees(w, actions);
    CompletedRunStreams(w, actions);
    CompletedRunEnds(w, actions);
    Counters.CountersBalance(w, actions);
    SameLength(y.sim.inputs, r.sensors);
    UplinkClean(w, y);
    DownlinkClean(w, y);
    VehicleRecorded(y.veh, r.Length(), TallyOf(y.veh.up));
    AuditedTally(y.veh.up);
    assert r.sensors[..r.Length()] == r.sensors;
  }

  lemma AuditedTally(up: Uplink)
    ensures AuditedUp(up).logicalReceived == up.counts.logicalReceived
  {}

  lemma SameLength(inputs: seq<seq<byte>>, sensors: seq<Sensor>)
    requires ReadsAs(inputs, sensors)
    ensures |inputs| == |sensors|
  {
    hide Decode, DecodeSensor;
  }

  // A run that is eligible

  /** What a call does to the counters of sends and receipts. */
  lemma CallMoved(w: World, s: Sim, o: Outcome)
    requires s.phase.Sending? || s.phase.Listening?
    ensures var n := Next(w, s, o);
            && n.up.counts.transmitted == s.up.counts.transmitted
               + (if s.phase.Sending? && o == Sent(true) then 1 else 0)
            && n.down.counts.receivedRaw == s.down.counts.receivedRaw + (if s.phase.Listening? && o.Got? then 1 else 0)
            && n.down.counts.malformed == s.down.counts.malformed
                                          + (if s.phase.Listening? && o.Got? && ReplyIn(o.data).None? then 1 else 0)
  {
    hide ReplyIn, IsFinite, Close, OpeningOf, Opened;
  }

  lemma ReceiptMoved(p: Policy<word>, v: View, packet: Datagram)
    requires Sane(v)
    ensures var n := Received(p, v, packet).0;
            && n.up.counts.receivedRaw == v.up.counts.receivedRaw + 1
            && n.up.counts.malformed == v.up.counts.malformed + (if Decode(packet).Bad? then 1 else 0)
            && n.down.transmitted == v.down.transmitted && n.originalTxFail == v.originalTxFail
  {
    hide Decode, DecodeSensor, NewCycle;
    var d := Decode(packet);
    if d.Good? {
      NewMoved(p, v.(up := CountReceived(v.up)), d.payload);
    }
  }

  lemma SendMoved(v: View, original: bool, sent: bool)
    ensures var m := SendFinished(SendBegun(v, original), original, sent);
            && m.up == v.up && m.down.transmitted == v.down.transmitted + (if sent then 1 else 0)
            && (sent ==> m.originalTxFail == v.originalTxFail)
  {}

  /** What a pass does to them. */
  lemma PassMoved(p: Policy<word>, v: View, packet: Datagram, sent: bool, pushed: bool)
    requires Sane(v)
    ensures var r := Handle(p, v, packet, sent, pushed);
            && r.view.up.counts.receivedRaw == v.up.counts.receivedRaw + 1
            && r.view.up.counts.malformed == v.up.counts.malformed + (if Decode(packet).Bad? then 1 else 0)
            && r.view.down.transmitted == v.down.transmitted + (if r.replied then 1 else 0)
            && (sent ==> r.view.originalTxFail == v.originalTxFail)
  {
    hide Decode, Received, SendBegun, SendFinished, CurrentReason;
    var (n, kind) := Received(p, v, packet);
    ReceiptMoved(p, v, packet);
    SendMoved(n, kind == New, sent);
  }

  lemma NewMoved(p: Policy<word>, v: View, payload: seq<byte>)
    requires |payload| == 44 && Sane(v)
    ensures var n := NewCycle(p, v, payload);
            && n.up.counts.receivedRaw == v.up.counts.receivedRaw && n.up.counts.malformed == v.up.counts.malformed
            && n.down.transmitted == v.down.transmitted && n.originalTxFail == v.originalTxFail
  {
    hide NewCycle, DecodeSensor, Step, RecordOf, ReplyOf, SampleInputs, Flag, SampleFresh;
    NewCycleFields(p, v, payload);
  }

  /** The frame goes out and is answered: one datagram each way sent, one received. */
  lemma ServedOnce(w: World, actions: seq<Action>, k: nat)
    requires Loaded(w.sc) && Possible(w, actions) && Lossless.Trying(w, Reached(w, actions), k, 0)
    requires Quiet(Reached(w, actions))
    ensures var y := Reached(w, actions + [Call(Sent(true))] + [Serves(Datagram(FrameAt(w, k), false), true, true)]);
            && y.sim.phase.Listening? && y.sim.up.counts.transmitted == y.veh.up.counts.receivedRaw
            && y.veh.up.counts.malformed == y.sim.down.counts.malformed == y.veh.originalTxFail == 0
            && y.veh.down.transmitted == y.sim.down.counts.receivedRaw + 1
  {
    hide RunFor, SimulatorAt, VehicleAt, FrameAt, ReplyAt, Reached, Possible, CanHappen, Loaded, Handle, Next, Decode;
    var packet := Datagram(FrameAt(w, k), false);
    var y0 := Reached(w, actions);
    Lossless.SendStep(w, y0, k, 0, true);
    Lossless.ReachedNext(w, actions, Call(Sent(true)));
    CallMoved(w, y0.sim, Sent(true));
    var y1 := Reached(w, actions + [Call(Sent(true))]);
    Replies(w, y1, k);
    Lossless.ReachedNext(w, actions + [Call(Sent(true))], Serves(packet, true, true));
    PassMoved(PolicyOf(w.sc), y1.veh, packet, true, true);
    FrameRead(w, k);
  }

  /** An attempt that gets through is one datagram each way, sent and received. */
  lemma GoodAttemptQuiet(w: World, actions: seq<Action>, k: nat)
    requires Loaded(w.sc) && Possible(w, actions) && Lossless.Trying(w, Reached(w, actions), k, 0)
    requires Quiet(Reached(w, actions))
    ensures Quiet(Reached(w, actions + Lossless.GoodAttempt(w, k)))
  {
    hide RunFor, SimulatorAt, VehicleAt, FrameAt, ReplyAt, Reached, Possible, CanHappen, Loaded, Handle, Next, ReplyIn,
         StatusAt, InputsNow, OutputNow;
    var two := actions + [Call(Sent(true))] + [Serves(Datagram(FrameAt(w, k), false), true, true)];
    ServedOnce(w, actions, k);
    Lossless.ReachedNext(w, two, Call(Got(ReplyAt(w, k))));
    ReplyRead(w, k);
    CallMoved(w, Reached(w, two).sim, Got(ReplyAt(w, k)));
    assert actions + Lossless.GoodAttempt(w, k) == two + [Call(Got(ReplyAt(w, k)))];
  }

  lemma Replies(w: World, y: System, k: nat)
    requires Loaded(w.sc) && Live(w, k) && Sane(y.veh) && Lossless.VehicleReady(w, y, k)
    ensures Handle(PolicyOf(w.sc), y.veh, Datagram(FrameAt(w, k), false), true, true).replied
  {
    hide RunFor, VehicleAt, FrameAt, Handle, Loaded, PolicyOf;
    if VehicleAt(w, y.veh, k) {
      Lossless.AnswersFirst(w, y, k, true);
    } else {
      Lossless.AnswersAgain(w, y, k, true);
    }
  }

  lemma StartQuiet(w: World)
    ensures Quiet(StartOf(w))
  {
    hide OpeningOf, Opened, StartCore, Initial;
  }

  lemma TickQuiet(w: World, n: nat)
    requires Loaded(w.sc) && Lossless.Deliverable(w) && Live(w, n)
    requires Quiet(Reached(w, Lossless.Schedule(w, Lossless.NoFailures, n)))
    ensures Quiet(Reached(w, Lossless.Schedule(w, Lossless.NoFailures, n + 1)))
  {
    hide RunFor, Loaded, Lossless.Deliverable, Lossless.Trying, Lossless.Poised, Lossless.GoodAttempt,
         Lossless.Survivable, Reached, Possible, Quiet, Lossless.FailedAttempt;
    var before := Lossless.Schedule(w, Lossless.NoFailures, n);
    Lossless.NothingToSurvive(w);
    var k := Lossless.PlanFollowed(w, Lossless.NoFailures, n);
    Lossless.StillLive(w, k, n);
    Lossless.PoisedTrying(w, Reached(w, before), n);
    GoodAttemptQuiet(w, before, n);
    assert Lossless.Failures(w, n, []) == [] && before + [] == before;
  }

  lemma ScheduleStays(w: World, plan: Lossless.Plan, n: nat)
    requires !Live(w, n)
    ensures Lossless.Schedule(w, plan, n + 1) == Lossless.Schedule(w, plan, n)
  {
    hide RunFor, Lossless.GoodAttempt, Lossless.Failures;
  }

  lemma {:induction false} DeliveryQuiet(w: World, n: nat)
    requires Loaded(w.sc) && Lossless.Deliverable(w)
    ensures Quiet(Reached(w, Lossless.Schedule(w, Lossless.NoFailures, n)))
    decreases n
  {
    hide RunFor, Loaded, Lossless.Deliverable, Reached, Possible, Quiet, Lossless.Schedule;
    if n == 0 {
      Lossless.NothingPossible(w);
      StartQuiet(w);
      NothingScheduled(w);
    } else {
      DeliveryQuiet(w, n - 1);
      if Live(w, n - 1) {
        TickQuiet(w, n - 1);
      } else {
        ScheduleStays(w, Lossless.NoFailures, n - 1);
      }
    }
  }

  lemma NothingScheduled(w: World)
    ensures Lossless.Schedule(w, Lossless.NoFailures, 0) == []
  {}

  /** The run in which every datagram sent is received once is eligible, unless it starts lost. */
  lemma DeliveryIsEligible(w: World) returns (actions: seq<Action>, r: H.Recordings)
    requires Loaded(w.sc) && Lossless.Deliverable(w) && !StartsLost(w)
    ensures Possible(w, actions) && Completed(Reached(w, actions))
    ensures ReadsAs(Reached(w, actions).sim.inputs, r.sensors) && r.controls == Pushed(w, actions)
    ensures Eligible(EvidenceOf(w, Reached(w, actions), r))
  {
    hide RunFor, Loaded, Reached, Possible, Pushed, StartsLost, Eligible, EvidenceOf, Lossless.Deliverable, Quiet,
         Lossless.Schedule, ReadsAs;
    actions := Lossless.DeliveryCompletes(w);
    DeliveryQuiet(w, w.sc.ticks);
    r := CompletedRunVerdict(w, actions);
  }
}
