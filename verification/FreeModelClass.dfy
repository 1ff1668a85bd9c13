/** The free-run simulator's model as one object updated in place. */
module FreeModelClass {
  import opened Basics
  import opened Payload
  import opened Headless
  import opened Episode
  import Rng
  import opened FreeModel

  class Simulator {
    const sc: Scenario
    const upStream: Rng.SplitMix64
    const downStream: Rng.SplitMix64
    var truth: Truth
    var applied: word
    var delay: seq<Option<word>>
    var upDraws: nat
    var downDraws: nat
    var up: UpCounts
    var down: DownCounts
    var term: TermCounts
    var events: Events
    var reason: Option<u32>
    var vehicleSeen: Option<nat>
    var raised: bool

    ghost predicate Valid() { upStream != downStream }

    ghost function Value(): Model
      reads this, upStream, downStream
    {
      Model(truth, applied, delay, upStream.state, downStream.state, upDraws, downDraws, up, down, term, events, reason,
            vehicleSeen, raised)
    }

    constructor (sc: Scenario, seed: u64, delayTicks: nat)
      ensures Valid() && this.sc == sc && Value() == FreeModel.Initial(sc, seed, delayTicks)
      ensures fresh(upStream) && fresh(downStream)
    {
      hide Rng.StreamState;
      this.sc := sc;
      upStream := new Rng.SplitMix64(Rng.StreamState(seed, 0));
      downStream := new Rng.SplitMix64(Rng.StreamState(seed, 1));
      truth, applied, delay, upDraws, downDraws := sc.initial, 0, EmptyLine(delayTicks), 0, 0;
      up, down := UpCounts(0, 0, 0, 0, 0, 0), DownCounts(0, 0, 0, 0, 0, 0, None);
      term, events := TermCounts(0, 0, 0, 0, 0, 0, 0), Events(0, 0, 0, 0);
      reason, vehicleSeen, raised := None, None, false;
    }

    method LossUp(tick: nat, terminal: bool, prologue: bool) returns (raw: bool, drop: bool)
      requires Valid()
      modifies `upDraws, upStream
      ensures downStream.state == old(downStream.state) && upDraws == old(upDraws) + 1
      ensures (raw, upStream.state) == Rng.DrawDrop(old(upStream.state), sc.lossUp)
      ensures drop == Decide(raw, Override(sc, UP, tick, terminal, prologue))
    {
      hide Rng.DrawDrop;
      raw := DrawFrom(upStream, sc.lossUp);
      upDraws := upDraws + 1;
      var forced := if prologue then Some(false) else if terminal then None else sc.forcedUp(tick);
      drop := if forced.None? then raw else forced.value;
    }

    method LossDown(tick: nat, terminal: bool, prologue: bool) returns (raw: bool, drop: bool)
      requires Valid()
      modifies `downDraws, downStream
      ensures upStream.state == old(upStream.state) && downDraws == old(downDraws) + 1
      ensures (raw, downStream.state) == Rng.DrawDrop(old(downStream.state), sc.lossDown)
      ensures drop == Decide(raw, Override(sc, DOWN, tick, terminal, prologue))
    {
      hide Rng.DrawDrop;
      raw := DrawFrom(downStream, sc.lossDown);
      downDraws := downDraws + 1;
      var forced := if prologue then Some(false) else if terminal then None else sc.forcedDown(tick);
      drop := if forced.None? then raw else forced.value;
    }

    method DrawLoss(d: Direction, tick: nat, terminal: bool, prologue: bool) returns (raw: bool, drop: bool)
      requires Valid()
      modifies `upDraws, `downDraws, upStream, downStream
      ensures (Value(), raw, drop) == Loss(sc, old(Value()), d, tick, terminal, prologue)
    {
      hide Rng.DrawDrop, Override, Decide;
      if d == UP {
        raw, drop := LossUp(tick, terminal, prologue);
      } else {
        raw, drop := LossDown(tick, terminal, prologue);
      }
    }

    method Count(v: Actuator, drop: bool)
      modifies `term, `down
      ensures var t := CountDown(old(Value()), v, drop); term == t.term && down == t.down
    {
      if IsTerminal(v) {
        term := term.(downRaw := term.downRaw + 1);
        if drop {
          term := term.(downLost := term.downLost + 1);
        } else {
          term := term.(downSurvived := term.downSurvived + 1);
        }
      } else {
        var last := down.lastTick;
        down := down.(received := down.received + 1,
                      lastTick := Some(if last.None? then v.tick else Max(last.value, v.tick)));
        if drop { down := down.(lost := down.lost + 1); }
      }
    }

    /** A reply that survived the draw: a terminal notice is remembered, a command is kept if it is finite. */
    method Keep(survivors: seq<Actuator>, v: Actuator) returns (rest: seq<Actuator>)
      modifies `down, `vehicleSeen, `raised
      ensures rest == if IsTerminal(v) || !IsFinite(v.delta) then survivors else survivors + [v]
      ensures vehicleSeen == if IsTerminal(v) && 1 <= ReasonByte(v) <= 8 then Some(ReasonByte(v)) else old(vehicleSeen)
      ensures raised == (old(raised) || if IsTerminal(v) then !(1 <= ReasonByte(v) <= 8) else !IsFinite(v.delta))
      ensures down == if IsTerminal(v) || IsFinite(v.delta) then old(down)
                      else old(down).(invalid := old(down).invalid + 1)
    {
      hide IsFinite, IsTerminal, ReasonByte;
      rest := survivors;
      if IsTerminal(v) {
        if 1 <= ReasonByte(v) <= 8 { vehicleSeen := Some(ReasonByte(v)); } else { raised := true; }
      } else if !IsFinite(v.delta) {
        down := down.(invalid := down.invalid + 1);
        raised := true;
      } else {
        rest := survivors + [v];
      }
    }

    /** A readable reply: one draw, counted, and kept if it survives. */
    method Draw(survivors: seq<Actuator>, v: Actuator, tick: nat) returns (rest: seq<Actuator>)
      requires Valid()
      modifies `down, `term, `downDraws, `vehicleSeen, `raised, downStream
      ensures (Value(), rest) == TakeReply(sc, old(Value()), survivors, v, tick)
    {
      hide Rng.DrawDrop, IsFinite, IsTerminal, ReasonByte, Override, Decide;
      rest := survivors;
      var _, drop := LossDown(tick, IsTerminal(v), false);
      Count(v, drop);
      if !drop { rest := Keep(survivors, v); }
    }

    /** One datagram of a batch. */
    method Take(survivors: seq<Actuator>, data: seq<byte>, tick: nat) returns (rest: seq<Actuator>)
      requires Valid()
      modifies `down, `term, `downDraws, `vehicleSeen, `raised, downStream
      ensures (Value(), rest) == TakeOne(sc, old(Value()), survivors, data, tick)
    {
      hide ReplyIn, TakeReply;
      rest := survivors;
      var v := ReplyIn(data);
      if v.None? {
        down := down.(malformed := down.malformed + 1);
      } else {
        rest := Draw(survivors, v.value, tick);
      }
    }

    /** `max(survivors, key=tick)` */
    method SelectNewest(survivors: seq<Actuator>) returns (best: Actuator)
      requires survivors != []
      ensures best == Newest(survivors)
    {
      best := survivors[0];
      for i := 1 to |survivors|
        invariant best == Newest(survivors[..i])
      {
        assert survivors[..i + 1][..i] == survivors[..i];
        if survivors[i].tick > best.tick { best := survivors[i]; }
      }
      assert survivors[..|survivors|] == survivors;
    }

    method Resolve(survivors: seq<Actuator>) returns (selected: Option<word>)
      modifies `down, `reason
      ensures (Value(), selected) == Choose(old(Value()), survivors)
    {
      if vehicleSeen.Some? {
        down := down.(superseded := down.superseded + |survivors|);
        if reason.None? { reason := Some(VEHICLE_TERMINAL); }
        return None;
      }
      if survivors == [] { return None; }
      var best := SelectNewest(survivors);
      down := down.(selected := down.selected + 1, superseded := down.superseded + |survivors| - 1);
      return Some(best.delta);
    }

    method ReceiveBatch(packets: seq<seq<byte>>, tick: nat) returns (selected: Option<word>)
      requires Valid() && !raised
      modifies this, upStream, downStream
      ensures (Value(), selected) == Receive(sc, old(Value()), packets, tick)
    {
      hide TakeOne, Choose;
      ghost var s := Value();
      var survivors: seq<Actuator> := [];
      for i := 0 to |packets|
        invariant !raised && (Value(), survivors) == TakeAll(sc, s, packets[..i], tick)
      {
        TakeAllNext(sc, s, packets, tick, i);
        survivors := Take(survivors, packets[i], tick);
        if raised {
          TakeAllRaised(sc, s, packets, tick, i + 1);
          return None;
        }
      }
      assert packets[..|packets|] == packets;
      selected := Resolve(survivors);
    }

    method StepPlant(k: nat, arriving: Option<word>)
      modifies `applied, `truth, `events
      ensures applied == ActuatorStep(old(applied), arriving) && truth == sc.plant(k, old(truth), applied)
      ensures events == old(events).(fifoAdvances := old(events).fifoAdvances + 1,
                                     actuatorUpdates := old(events).actuatorUpdates + 1,
                                     plantSteps := old(events).plantSteps + 1)
    {
      hide ActuatorStep;
      applied := ActuatorStep(applied, arriving);
      events := events.(fifoAdvances := events.fifoAdvances + 1, actuatorUpdates := events.actuatorUpdates + 1);
      truth := sc.plant(k, truth, applied);
      events := events.(plantSteps := events.plantSteps + 1);
    }

    method AdvancePlant(k: nat, selected: Option<word>) returns (arriving: Option<word>)
      requires !raised
      modifies `raised, `delay, `applied, `truth, `events, `reason
      ensures (Value(), arriving) == Advance(sc, old(Value()), k, selected)
    {
      hide ActuatorStep, IsFinite, AbsExceeds;
      if reason.Some? {
        raised := true;
        return None;
      }
      delay := delay + [selected];
      arriving, delay := delay[0], delay[1..];
      StepPlant(k, arriving);
      reason := if !IsFinite(truth.theta) || !IsFinite(truth.omega) then Some(SIM_LOC_NONFINITE)
                else if AbsExceeds(truth.theta, LOSS_OF_CONTROL) then Some(SIM_LOC_ANGLE)
                else if k + 1 == sc.ticks - 1 then Some(SIM_HORIZON) else None;
    }

    // Offering a sensor frame; `sent` is the outcome of the send

    method NoteNotice(drop: bool, sent: bool)
      modifies `term
      ensures term == CountNotice(old(term), drop, sent)
    {
      term := term.(upAttempts := term.upAttempts + 1);
      if drop {
        term := term.(upLost := term.upLost + 1);
      } else if !sent {
        term := term.(upTxFail := term.upTxFail + 1);
      } else {
        term := term.(upTransmitted := term.upTransmitted + 1);
      }
    }

    method NoteSample(raw: bool, drop: bool, sent: bool)
      modifies `up
      ensures up == CountSample(old(up), raw, drop, sent)
    {
      up := up.(generated := up.generated + 1);
      if drop {
        up := up.(lost := up.lost + 1, forcedDrop := up.forcedDrop + if raw then 0 else 1);
      } else if !sent {
        up := up.(txFail := up.txFail + 1);
      } else {
        up := up.(transmitted := up.transmitted + 1, forcedTransmit := up.forcedTransmit + if raw then 1 else 0);
      }
    }

    method OfferNotice(tick: nat, prologue: bool, cached: bool, sent: bool)
      requires Valid() && !raised
      modifies `events, `upDraws, `term, upStream
      ensures Value() == Offer(sc, old(Value()), tick, true, prologue, cached, sent)
    {
      hide Rng.DrawDrop, Override, Decide, FreeModel.CountNotice, FreeModel.CountSample;
      if !cached { events := events.(observations := events.observations + 1); }
      var _, drop := LossUp(tick, true, prologue);
      NoteNotice(drop, sent);
    }

    method OfferSample(tick: nat, prologue: bool, cached: bool, sent: bool)
      requires Valid() && !raised
      modifies `events, `upDraws, `up, `raised, upStream
      ensures Value() == Offer(sc, old(Value()), tick, false, prologue, cached, sent)
    {
      hide Rng.DrawDrop, Override, Decide, FreeModel.CountNotice, FreeModel.CountSample;
      events := events.(observations := events.observations + 1);
      var raw, drop := LossUp(tick, false, prologue);
      NoteSample(raw, drop, sent);
      raised := prologue && !drop && !sent;
    }

    method OfferFrame(tick: nat, terminal: bool, prologue: bool, cached: bool, sent: bool)
      requires Valid() && !raised
      modifies `events, `upDraws, `term, `up, `raised, upStream
      ensures Value() == Offer(sc, old(Value()), tick, terminal, prologue, cached, sent)
    {
      hide Offer;
      if terminal { OfferNotice(tick, prologue, cached, sent); } else { OfferSample(tick, prologue, cached, sent); }
    }
  }

  lemma TakeAllNext(sc: Scenario, s: Model, packets: seq<seq<byte>>, tick: nat, i: nat)
    requires i < |packets| && !TakeAll(sc, s, packets[..i], tick).0.raised
    ensures var (t, survivors) := TakeAll(sc, s, packets[..i], tick);
            TakeAll(sc, s, packets[..i + 1], tick) == TakeOne(sc, t, survivors, packets[i], tick)
  {
    hide TakeOne;
    assert packets[..i + 1][..i] == packets[..i];
  }

  lemma {:induction false} TakeAllRaised(sc: Scenario, s: Model, packets: seq<seq<byte>>, tick: nat, i: nat)
    requires i <= |packets| && TakeAll(sc, s, packets[..i], tick).0.raised
    ensures TakeAll(sc, s, packets, tick) == TakeAll(sc, s, packets[..i], tick)
    decreases |packets| - i
  {
    hide TakeOne;
    if i == |packets| {
      assert packets[..i] == packets;
    } else {
      assert packets[..i + 1][..i] == packets[..i];
      TakeAllRaised(sc, s, packets, tick, i + 1);
    }
  }
}
