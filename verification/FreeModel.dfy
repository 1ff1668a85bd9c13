/** The free-run simulator's model: loss draws, the choice among a period's replies, the delay line and the plant. */
module FreeModel {
  import opened Basics
  import opened Payload
  import opened Headless
  import opened Episode
  import Rng

  datatype Direction = UP | DOWN

  datatype UpCounts = UpCounts(generated: nat, lost: nat, transmitted: nat, txFail: nat, forcedTransmit: nat,
                               forcedDrop: nat)

  datatype DownCounts = DownCounts(received: nat, lost: nat, selected: nat, superseded: nat, malformed: nat,
                                   invalid: nat, lastTick: Option<u64>)

  datatype TermCounts = TermCounts(upAttempts: nat, upLost: nat, upTxFail: nat, upTransmitted: nat, downRaw: nat,
                                   downLost: nat, downSurvived: nat)

  datatype Events = Events(plantSteps: nat, actuatorUpdates: nat, fifoAdvances: nat, observations: nat)

  datatype Model = Model(truth: Truth, applied: word, delay: seq<Option<word>>, upStream: u64, downStream: u64,
                         upDraws: nat, downDraws: nat, up: UpCounts, down: DownCounts, term: TermCounts, events: Events,
                         reason: Option<u32>, vehicleSeen: Option<nat>, raised: bool)

  function Initial(sc: Scenario, seed: u64, delayTicks: nat): Model {
    Model(sc.initial, 0, EmptyLine(delayTicks), Rng.StreamState(seed, 0), Rng.StreamState(seed, 1), 0, 0,
          UpCounts(0, 0, 0, 0, 0, 0), DownCounts(0, 0, 0, 0, 0, 0, None), TermCounts(0, 0, 0, 0, 0, 0, 0),
          Events(0, 0, 0, 0), None, None, false)
  }

  // Loss

  /** The prologue is never dropped, terminal packets follow the raw draw, the rest may be overridden. */
  function Override(sc: Scenario, d: Direction, tick: nat, terminal: bool, prologue: bool): Option<bool> {
    if prologue then Some(false)
    else if terminal then None
    else if d == UP then sc.forcedUp(tick)
    else sc.forcedDown(tick)
  }

  /** Every call draws exactly once. */
  function Loss(sc: Scenario, s: Model, d: Direction, tick: nat, terminal: bool, prologue: bool): (Model, bool, bool) {
    var (raw, next) := if d == UP then Rng.DrawDrop(s.upStream, sc.lossUp) else Rng.DrawDrop(s.downStream, sc.lossDown);
    (if d == UP then s.(upStream := next, upDraws := s.upDraws + 1)
     else s.(downStream := next, downDraws := s.downDraws + 1),
     raw, Decide(raw, Override(sc, d, tick, terminal, prologue)))
  }

  // Receiving a period's replies

  predicate IsTerminal(v: Actuator) { v.status % 256 == 3 }

  function ReasonByte(v: Actuator): nat { v.status / 256 % 256 }

  function CountDown(s: Model, v: Actuator, drop: bool): Model {
    if IsTerminal(v) then
      s.(term := s.term.(downRaw := s.term.downRaw + 1, downLost := s.term.downLost + if drop then 1 else 0,
                         downSurvived := s.term.downSurvived + if drop then 0 else 1))
    else
      s.(down := s.down.(received := s.down.received + 1, lost := s.down.lost + (if drop then 1 else 0),
                         lastTick := Some(if s.down.lastTick.None? then v.tick
                                          else Max(s.down.lastTick.value, v.tick))))
  }

  /** A readable reply, with the replies that have survived so far. */
  function TakeReply(sc: Scenario, s: Model, survivors: seq<Actuator>, v: Actuator, tick: nat): (Model, seq<Actuator>) {
    var (drawn, _, drop) := Loss(sc, s, DOWN, tick, IsTerminal(v), false);
    var t := CountDown(drawn, v, drop);
    if drop then (t, survivors)
    else if IsTerminal(v) then
      if 1 <= ReasonByte(v) <= 8 then (t.(vehicleSeen := Some(ReasonByte(v))), survivors)
      else (t.(raised := true), survivors)
    else if !IsFinite(v.delta) then (t.(down := t.down.(invalid := t.down.invalid + 1), raised := true), survivors)
    else (t, survivors + [v])
  }

  /** One datagram of a batch. */
  function TakeOne(sc: Scenario, s: Model, survivors: seq<Actuator>, data: seq<byte>, tick: nat)
    : (Model, seq<Actuator>)
  {
    var v := ReplyIn(data);
    if v.None? then (s.(down := s.down.(malformed := s.down.malformed + 1)), survivors)
    else TakeReply(sc, s, survivors, v.value, tick)
  }

  /** A batch, up to a datagram that raises. */
  function TakeAll(sc: Scenario, s: Model, packets: seq<seq<byte>>, tick: nat): (Model, seq<Actuator>)
    decreases |packets|
  {
    if packets == [] then (s, [])
    else
      var (t, survivors) := TakeAll(sc, s, packets[..|packets| - 1], tick);
      if t.raised then (t, survivors) else TakeOne(sc, t, survivors, packets[|packets| - 1], tick)
  }

  /** The first reply of the newest tick. */
  function Newest(survivors: seq<Actuator>): Actuator
    requires survivors != []
    decreases |survivors|
  {
    if |survivors| == 1 then survivors[0]
    else
      var best, last := Newest(survivors[..|survivors| - 1]), survivors[|survivors| - 1];
      if last.tick > best.tick then last else best
  }

  /** What the batch comes to: a terminal notice ends the run, else the newest reply is selected. */
  function Choose(s: Model, survivors: seq<Actuator>): (Model, Option<word>) {
    if s.vehicleSeen.Some? then
      (s.(down := s.down.(superseded := s.down.superseded + |survivors|),
          reason := if s.reason.None? then Some(VEHICLE_TERMINAL) else s.reason), None)
    else if survivors == [] then (s, None)
    else
      (s.(down := s.down.(selected := s.down.selected + 1, superseded := s.down.superseded + |survivors| - 1)),
       Some(Newest(survivors).delta))
  }

  function Receive(sc: Scenario, s: Model, packets: seq<seq<byte>>, tick: nat): (Model, Option<word>) {
    var (t, survivors) := TakeAll(sc, s, packets, tick);
    if t.raised then (t, None) else Choose(t, survivors)
  }

  // Advancing the plant

  function Advance(sc: Scenario, s: Model, k: nat, selected: Option<word>): (Model, Option<word>) {
    if s.reason.Some? then (s.(raised := true), None)
    else
      var (arriving, delay) := Released(s.delay, selected);
      var applied := ActuatorStep(s.applied, arriving);
      var truth := sc.plant(k, s.truth, applied);
      var reason := if !IsFinite(truth.theta) || !IsFinite(truth.omega) then Some(SIM_LOC_NONFINITE)
                    else if AbsExceeds(truth.theta, LOSS_OF_CONTROL) then Some(SIM_LOC_ANGLE)
                    else if k + 2 == sc.ticks then Some(SIM_HORIZON) else None;
      (s.(delay := delay, applied := applied, truth := truth, reason := reason,
          events := s.events.(fifoAdvances := s.events.fifoAdvances + 1,
                              actuatorUpdates := s.events.actuatorUpdates + 1,
                              plantSteps := s.events.plantSteps + 1)), arriving)
  }

  // Offering a sensor frame

  /** A terminal notice offered: `sent` is the outcome of the send. */
  function CountNotice(c: TermCounts, drop: bool, sent: bool): TermCounts {
    c.(upAttempts := c.upAttempts + 1, upLost := c.upLost + (if drop then 1 else 0),
       upTxFail := c.upTxFail + (if !drop && !sent then 1 else 0),
       upTransmitted := c.upTransmitted + (if !drop && sent then 1 else 0))
  }

  function CountSample(c: UpCounts, raw: bool, drop: bool, sent: bool): UpCounts {
    c.(generated := c.generated + 1, lost := c.lost + (if drop then 1 else 0),
       forcedDrop := c.forcedDrop + (if drop && !raw then 1 else 0),
       txFail := c.txFail + (if !drop && !sent then 1 else 0),
       transmitted := c.transmitted + (if !drop && sent then 1 else 0),
       forcedTransmit := c.forcedTransmit + (if !drop && sent && raw then 1 else 0))
  }

  /** `cached` says that the terminal frame was already built; a prologue that cannot be sent raises. */
  function Offer(sc: Scenario, s0: Model, tick: nat, terminal: bool, prologue: bool, cached: bool, sent: bool): Model {
    var s := if terminal && cached then s0 else s0.(events := s0.events.(observations := s0.events.observations + 1));
    var (t, raw, drop) := Loss(sc, s, UP, tick, terminal, prologue);
    if terminal then t.(term := CountNotice(t.term, drop, sent))
    else
      t.(up := CountSample(t.up, raw, drop, sent), raised := t.raised || (prologue && !drop && !sent))
  }

  // Accounting, over any sequence of calls

  datatype Op =
    | Offering(tick: nat, terminal: bool, prologue: bool, cached: bool, sent: bool)
    | Receiving(packets: seq<seq<byte>>, tick: nat)
    | Advancing(k: nat, selected: Option<word>)

  /** After a call has raised, no further call is made. */
  function Apply(sc: Scenario, s: Model, op: Op): Model {
    if s.raised then s
    else match op
      case Offering(tick, terminal, prologue, cached, sent) => Offer(sc, s, tick, terminal, prologue, cached, sent)
      case Receiving(packets, tick) => Receive(sc, s, packets, tick).0
      case Advancing(k, selected) => Advance(sc, s, k, selected).0
  }

  function Run(sc: Scenario, seed: u64, delayTicks: nat, ops: seq<Op>): Model
    decreases |ops|
  {
    if ops == [] then Initial(sc, seed, delayTicks)
    else Apply(sc, Run(sc, seed, delayTicks, ops[..|ops| - 1]), ops[|ops| - 1])
  }

  /** Draws are packets, in each direction; the streams are where that many draws leave them. */
  predicate Drawn(s: Model, seed: u64) {
    && s.upDraws == s.up.generated + s.term.upAttempts && s.downDraws == s.down.received + s.term.downRaw
    && s.upStream == Rng.StateAfter(Rng.StreamState(seed, 0), s.upDraws)
    && s.downStream == Rng.StateAfter(Rng.StreamState(seed, 1), s.downDraws)
  }

  predicate Partitioned(s: Model) {
    && s.up.generated == s.up.lost + s.up.transmitted + s.up.txFail
    && s.up.forcedDrop <= s.up.lost && s.up.forcedTransmit <= s.up.transmitted
    && s.term.upAttempts == s.term.upLost + s.term.upTxFail + s.term.upTransmitted
    && s.term.downRaw == s.term.downLost + s.term.downSurvived
    && s.events.plantSteps == s.events.actuatorUpdates == s.events.fifoAdvances
  }

  /** Every reply received by a call that returned was selected, lost or superseded. */
  predicate Resolved(s: Model, pending: nat) {
    && (!s.raised ==>
          && s.down.received == s.down.selected + s.down.lost + s.down.superseded + pending
          && s.down.invalid == 0)
    && (s.vehicleSeen.Some? ==> 1 <= s.vehicleSeen.value <= 8)
  }

  predicate Accounted(s: Model, seed: u64, pending: nat) { Drawn(s, seed) && Partitioned(s) && Resolved(s, pending) }

  lemma LossDraws(sc: Scenario, s: Model, d: Direction, tick: nat, terminal: bool, prologue: bool)
    ensures var t := Loss(sc, s, d, tick, terminal, prologue).0;
            t == (if d == UP then s.(upStream := Rng.NextState(s.upStream), upDraws := s.upDraws + 1)
                  else s.(downStream := Rng.NextState(s.downStream), downDraws := s.downDraws + 1))
  {}

  lemma InitialAccounted(sc: Scenario, seed: u64, delayTicks: nat)
    ensures Accounted(Initial(sc, seed, delayTicks), seed, 0)
  {
    hide Rng.StreamState;
  }

  lemma OfferAccounted(sc: Scenario, s: Model, seed: u64, tick: nat, terminal: bool, prologue: bool, cached: bool,
                       sent: bool)
    requires Accounted(s, seed, 0) && !s.raised
    ensures Accounted(Offer(sc, s, tick, terminal, prologue, cached, sent), seed, 0)
  {
    hide Loss, Rng.StreamState, Rng.NextState;
    var o := if terminal && cached then s else s.(events := s.events.(observations := s.events.observations + 1));
    LossDraws(sc, o, UP, tick, terminal, prologue);
  }

  lemma TakeAccounted(sc: Scenario, s: Model, seed: u64, survivors: seq<Actuator>, data: seq<byte>, tick: nat)
    requires Accounted(s, seed, |survivors|) && !s.raised
    ensures var (t, rest) := TakeOne(sc, s, survivors, data, tick);
            Accounted(t, seed, |rest|)
  {
    hide Loss, ReplyIn, IsFinite, Rng.StreamState, Rng.NextState, IsTerminal, ReasonByte;
    if ReplyIn(data).Some? {
      LossDraws(sc, s, DOWN, tick, IsTerminal(ReplyIn(data).value), false);
    }
  }

  lemma {:induction false} TakeAllAccounted(sc: Scenario, s: Model, seed: u64, packets: seq<seq<byte>>, tick: nat)
    requires Accounted(s, seed, 0) && !s.raised
    ensures var (t, survivors) := TakeAll(sc, s, packets, tick); Accounted(t, seed, |survivors|)
    decreases |packets|
  {
    hide TakeOne, Accounted;
    if packets != [] {
      var (t, survivors) := TakeAll(sc, s, packets[..|packets| - 1], tick);
      TakeAllAccounted(sc, s, seed, packets[..|packets| - 1], tick);
      if !t.raised {
        TakeAccounted(sc, t, seed, survivors, packets[|packets| - 1], tick);
      }
    }
  }

  lemma ChooseAccounted(s: Model, seed: u64, survivors: seq<Actuator>)
    requires Accounted(s, seed, |survivors|) && !s.raised
    ensures Accounted(Choose(s, survivors).0, seed, 0)
  {
    hide Newest, Rng.StateAfter, Rng.StreamState;
  }

  lemma ReceiveAccounted(sc: Scenario, s: Model, seed: u64, packets: seq<seq<byte>>, tick: nat)
    requires Accounted(s, seed, 0) && !s.raised
    ensures Accounted(Receive(sc, s, packets, tick).0, seed, 0)
  {
    hide TakeAll, Choose, Drawn, Partitioned;
    var (t, survivors) := TakeAll(sc, s, packets, tick);
    TakeAllAccounted(sc, s, seed, packets, tick);
    if !t.raised {
      ChooseAccounted(t, seed, survivors);
    }
  }

  lemma AdvanceAccounted(sc: Scenario, s: Model, seed: u64, k: nat, selected: Option<word>)
    requires Accounted(s, seed, 0) && !s.raised
    ensures Accounted(Advance(sc, s, k, selected).0, seed, 0)
  {
    hide Released, ActuatorStep, IsFinite, AbsExceeds, Rng.StateAfter, Rng.StreamState;
  }

  /** After any calls: draws equal ordinary plus terminal packets in each direction, and every partition holds. */
  lemma {:induction false} RunAccounted(sc: Scenario, seed: u64, delayTicks: nat, ops: seq<Op>)
    ensures Accounted(Run(sc, seed, delayTicks, ops), seed, 0)
    decreases |ops|
  {
    hide Accounted, Initial, Offer, Receive, Advance;
    if ops == [] {
      InitialAccounted(sc, seed, delayTicks);
    } else {
      var s := Run(sc, seed, delayTicks, ops[..|ops| - 1]);
      RunAccounted(sc, seed, delayTicks, ops[..|ops| - 1]);
      if !s.raised {
        match ops[|ops| - 1] {
          case Offering(tick, terminal, prologue, cached, sent) =>
            OfferAccounted(sc, s, seed, tick, terminal, prologue, cached, sent);
          case Receiving(packets, tick) => ReceiveAccounted(sc, s, seed, packets, tick);
          case Advancing(k, selected) => AdvanceAccounted(sc, s, seed, k, selected);
        }
      }
    }
  }

  // The choice

  /** The selected reply is the first of the newest. */
  lemma {:induction false} NewestIsFirst(survivors: seq<Actuator>) returns (i: nat)
    requires survivors != []
    ensures i < |survivors| && Newest(survivors) == survivors[i]
    ensures forall j | 0 <= j < |survivors| :: survivors[j].tick <= survivors[i].tick
    ensures forall j | 0 <= j < i :: survivors[j].tick < survivors[i].tick
    decreases |survivors|
  {
    var n := |survivors| - 1;
    if n == 0 {
      i := 0;
    } else {
      i := NewestIsFirst(survivors[..n]);
      if survivors[n].tick > survivors[i].tick {
        i := n;
      }
    }
  }

  // The control delay

  /** The bodies run so far: what each selected, what each applied. */
  datatype Bodies = Bodies(model: Model, selected: seq<Option<word>>, arriving: seq<Option<word>>, over: bool)

  /** Body `k`: receive, stop on a vehicle notice, advance, offer the next frame, stop on a reason. */
  function Body(sc: Scenario, b: Bodies, packets: seq<seq<byte>>, sent: bool): Bodies {
    if b.over then b
    else
      var k := |b.arriving|;
      var (s, selected) := Receive(sc, b.model, packets, k);
      if s.raised || s.vehicleSeen.Some? then b.(model := s, over := true)
      else
        var (t, arriving) := Advance(sc, s, k, selected);
        if t.raised then b.(model := t, over := true)
        else
          var terminal := t.reason.Some?;
          Bodies(Offer(sc, t, k + 1, terminal, false, false, sent), b.selected + [selected], b.arriving + [arriving],
                 terminal || k + 2 >= sc.ticks)
  }

  function RunBodies(sc: Scenario, s: Model, batches: seq<(seq<seq<byte>>, bool)>): Bodies
    decreases |batches|
  {
    if batches == [] then Bodies(s, [], [], s.raised)
    else
      var last := batches[|batches| - 1];
      Body(sc, RunBodies(sc, s, batches[..|batches| - 1]), last.0, last.1)
  }

  /** The line holds what is still to be applied. */
  predicate Lined(b: Bodies, delayTicks: nat) {
    var line := EmptyLine(delayTicks) + b.selected;
    && |b.arriving| == |b.selected| && b.arriving == line[..|b.arriving|] && b.model.delay == line[|b.arriving|..]
  }

  lemma {:induction false} TakeAllKeepsDelay(sc: Scenario, s: Model, packets: seq<seq<byte>>, tick: nat)
    ensures TakeAll(sc, s, packets, tick).0.delay == s.delay
    decreases |packets|
  {
    hide Loss, ReplyIn, IsFinite;
    if packets != [] {
      var (t, survivors) := TakeAll(sc, s, packets[..|packets| - 1], tick);
      TakeAllKeepsDelay(sc, s, packets[..|packets| - 1], tick);
      if ReplyIn(packets[|packets| - 1]).Some? {
        LossDraws(sc, t, DOWN, tick, IsTerminal(ReplyIn(packets[|packets| - 1]).value), false);
      }
    }
  }

  lemma ReceiveKeepsDelay(sc: Scenario, s: Model, packets: seq<seq<byte>>, tick: nat)
    ensures Receive(sc, s, packets, tick).0.delay == s.delay
  {
    hide TakeAll, Newest;
    TakeAllKeepsDelay(sc, s, packets, tick);
  }

  lemma OfferKeepsDelay(sc: Scenario, s: Model, tick: nat, terminal: bool, sent: bool)
    ensures Offer(sc, s, tick, terminal, false, false, sent).delay == s.delay
  {
    hide Loss;
    LossDraws(sc, s.(events := s.events.(observations := s.events.observations + 1)), UP, tick, terminal, false);
  }

  lemma AdvanceReleases(sc: Scenario, s: Model, k: nat, selected: Option<word>)
    ensures var (t, arriving) := Advance(sc, s, k, selected);
            if s.reason.Some? then t.raised && t.delay == s.delay
            else t.raised == s.raised && (arriving, t.delay) == Released(s.delay, selected)
  {
    hide Released, ActuatorStep, IsFinite, AbsExceeds;
  }

  lemma BodyLined(sc: Scenario, b: Bodies, delayTicks: nat, packets: seq<seq<byte>>, sent: bool)
    requires Lined(b, delayTicks)
    ensures Lined(Body(sc, b, packets, sent), delayTicks)
  {
    hide Receive, Advance, Offer, EmptyLine;
    var k := |b.arriving|;
    var s, selected := Receive(sc, b.model, packets, k).0, Receive(sc, b.model, packets, k).1;
    var t := Advance(sc, s, k, selected).0;
    ReceiveKeepsDelay(sc, b.model, packets, k);
    AdvanceReleases(sc, s, k, selected);
    OfferKeepsDelay(sc, t, k + 1, t.reason.Some?, sent);
    var line := EmptyLine(delayTicks) + b.selected;
    assert EmptyLine(delayTicks) + (b.selected + [selected]) == line + [selected];
    var more := line + [selected];
    assert line[k..] + [selected] == more[k..];
    assert more[..k + 1] == line[..k] + [more[k]] && more[k..][1..] == more[k + 1..];
  }

  /** Body `k` applies what body `k - delay` selected, and nothing in the first `delay` bodies. */
  lemma {:induction false} DelayIsExact(sc: Scenario, seed: u64, delayTicks: nat, batches: seq<(seq<seq<byte>>, bool)>)
    ensures var b := RunBodies(sc, Initial(sc, seed, delayTicks), batches);
            && Lined(b, delayTicks)
            && forall k | 0 <= k < |b.arriving| ::
                 b.arriving[k] == if k < delayTicks then None else b.selected[k - delayTicks]
    decreases |batches|
  {
    hide Body, Initial, EmptyLine;
    LineStarts(sc, seed, delayTicks);
    EmptyLineNone(delayTicks);
    if batches != [] {
      DelayIsExact(sc, seed, delayTicks, batches[..|batches| - 1]);
      BodyLined(sc, RunBodies(sc, Initial(sc, seed, delayTicks), batches[..|batches| - 1]), delayTicks,
                batches[|batches| - 1].0, batches[|batches| - 1].1);
    }
  }

  lemma LineStarts(sc: Scenario, seed: u64, delayTicks: nat)
    ensures Lined(Bodies(Initial(sc, seed, delayTicks), [], [], Initial(sc, seed, delayTicks).raised), delayTicks)
  {
    hide Rng.StreamState, EmptyLine;
    assert EmptyLine(delayTicks) + [] == EmptyLine(delayTicks);
  }

  lemma EmptyLineNone(delayTicks: nat)
    ensures |EmptyLine(delayTicks)| == delayTicks && forall k | 0 <= k < delayTicks :: EmptyLine(delayTicks)[k].None?
  {}
}
