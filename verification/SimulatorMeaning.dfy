/** What the lockstep simulator makes of every datagram, read off the replies it has accepted so far. */
module SimulatorMeaning {
  import opened Basics
  import opened Episode
  import opened Payload
  import opened Reconcile
  import opened Headless
  import opened Simulator
  import opened HeadlessMeaning
  import Rng

  /** The datagrams that closed a tick, in order. */
  function Taken(w: World, outcomes: seq<Outcome>): seq<seq<byte>>
    decreases |outcomes|
  {
    if outcomes == [] then []
    else
      var before, last := outcomes[..|outcomes| - 1], outcomes[|outcomes| - 1];
      var s := Played(w, before);
      Taken(w, before)
        + if s.phase.Listening? && last.Got? && Next(w, s, last).core.tick != s.core.tick then [last.data] else []
  }

  /** One reply accepted for each tick closed, and the last one kept. */
  ghost predicate Remembers(s: Sim, taken: seq<seq<byte>>) {
    && |taken| == |s.replies| == s.core.tick == |s.core.rows| == s.down.counts.logicalReceived
    && (forall k | 0 <= k < |taken| :: ReplyIn(taken[k]) == Some(s.replies[k]) && s.replies[k].tick == k)
    && s.lastReply == (if taken == [] then None else Some(taken[|taken| - 1]))
    && (forall k | 0 <= k < |taken| :: s.core.rows[k].tick == k)
  }

  /** A reply to this tick, of this tick's cycle, with a finite request and no time stamps. */
  predicate Answers(v: Actuator, tick: nat) {
    v.tick == tick == v.vehTick && IsFinite(v.delta) && v.sensorSendNs == 0 == v.vehSendNs
  }

  function One(b: bool): nat { if b then 1 else 0 }

  /** How a datagram is disposed of: malformed, discarded by the test hook, the answer to the current tick, an answer to
      it that cannot be used and ends the run, the last accepted datagram again, or an old one. */
  ghost predicate Disposed(w: World, s: Sim, n: Sim, data: seq<byte>, taken: seq<seq<byte>>) {
    var v, t := ReplyIn(data), |taken|;
    var hooked := v.Some? && Some(s.down.counts.receivedRaw + 1) == w.dropActuator;
    var current := v.Some? && !hooked && v.value.tick == t;
    var accepted, again := current && Answers(v.value, t), taken != [] && data == taken[t - 1];
    var past := v.Some? && !hooked && !current;
    var a, b := s.down, n.down;
    && (accepted <==> n.core.tick == t + 1) && (!accepted ==> n.core == s.core)
    && (n.phase == Ended(1) <==> current && !accepted)
    && (!accepted ==> n == s.(down := n.down, phase := n.phase) && (n.phase == s.phase || n.phase == Ended(1)))
    && b.counts.receivedRaw == a.counts.receivedRaw + 1 && b.counts.malformed == a.counts.malformed + One(v.None?)
    && b.counts.received == a.counts.received + One(v.Some?)
    && b.counts.logicalReceived == a.counts.logicalReceived + One(accepted)
    && b.counts.discardedDuplicate == a.counts.discardedDuplicate + One(past && again)
    && b.counts.rejectedReceived
       == a.counts.rejectedReceived + One(hooked || (current && !accepted) || (past && !again))
    && b.testDiscarded == a.testDiscarded + One(hooked) && b.discardedOld == a.discardedOld + One(past && !again)
    && b.modeledCommandLoss == a.modeledCommandLoss + One(accepted && s.now.downDrop)
    && b.forwardedToDelay == a.forwardedToDelay + One(accepted && !s.now.downDrop)
  }

  lemma StartRemembers(w: World)
    ensures Remembers(Begin(w), [])
  {
    hide OpeningOf, Rng.StreamState, Rng.DrawDrop;
  }

  lemma OpenTickKeeps(sc: Scenario, s: Sim)
    ensures var t := OpenTick(sc, s);
            && t.core.tick == s.core.tick && t.core.rows == s.core.rows && t.replies == s.replies
            && t.lastReply == s.lastReply && t.down == s.down && t.phase == Sending(0)
  {
    hide OpeningOf, Rng.DrawDrop;
  }

  lemma CloseAdds(sc: Scenario, c: Core, now: Opening, delta: word, state: byte)
    ensures var d := Close(sc, c, now, delta, state).0;
            d.tick == c.tick + 1 && |d.rows| == |c.rows| + 1 && d.rows[..|c.rows|] == c.rows
            && d.rows[|c.rows|].tick == c.tick
  {
    hide IsFinite, AbsExceeds, ActuatorStep, Released, PendingReason;
  }

  lemma AcceptMeans(sc: Scenario, s: Sim, data: seq<byte>, v: Actuator)
    ensures var t := Accept(sc, s, data, v);
            && t.core.tick == s.core.tick + 1 && t.replies == s.replies + [v] && t.lastReply == Some(data)
            && |t.core.rows| == |s.core.rows| + 1 && t.core.rows[..|s.core.rows|] == s.core.rows
            && t.core.rows[|s.core.rows|].tick == s.core.tick && t.phase != Ended(1)
            && t.down == Count(s.down, 0, 1, 0, 0, 1).(
                           modeledCommandLoss := s.down.modeledCommandLoss + One(s.now.downDrop),
                           forwardedToDelay := s.down.forwardedToDelay + One(!s.now.downDrop))
  {
    hide Close, OpenTick;
    CloseAdds(sc, s.core, s.now, v.delta, v.status % 256);
    var core := Close(sc, s.core, s.now, v.delta, v.status % 256).0;
    var down := Count(s.down, 0, 1, 0, 0, 1);
    OpenTickKeeps(sc, s.(core := core, replies := s.replies + [v], lastReply := Some(data),
                         down := if s.now.downDrop then down.(modeledCommandLoss := down.modeledCommandLoss + 1)
                                 else down.(forwardedToDelay := down.forwardedToDelay + 1),
                         vehicleSeen := if v.status % 256 == TERMINATED.Code() then Some(v.status / 256 % 256)
                                        else s.vehicleSeen));
  }

  lemma TakenNext(s: Sim, n: Sim, taken: seq<seq<byte>>, data: seq<byte>, v: Actuator)
    requires Remembers(s, taken) && ReplyIn(data) == Some(v) && v.tick == s.core.tick
    requires n.core.tick == s.core.tick + 1 && n.replies == s.replies + [v] && n.lastReply == Some(data)
    requires |n.core.rows| == |s.core.rows| + 1 && n.core.rows[..|s.core.rows|] == s.core.rows
    requires n.core.rows[|s.core.rows|].tick == s.core.tick
    requires n.down.counts.logicalReceived == s.down.counts.logicalReceived + 1
    ensures Remembers(n, taken + [data])
  {
    hide ReplyIn;
    assert forall k | 0 <= k < |taken| :: n.core.rows[..|s.core.rows|][k] == n.core.rows[k];
  }

  /** Whatever datagram comes while the simulator listens. */
  lemma DataMeans(w: World, s: Sim, data: seq<byte>, taken: seq<seq<byte>>)
    requires Remembers(s, taken) && s.phase.Listening?
    ensures var n := OnData(w, s, data);
            && Disposed(w, s, n, data, taken)
            && Remembers(n, if n.core.tick == s.core.tick then taken else taken + [data])
  {
    hide ReplyIn, IsFinite, Accept;
    var v := ReplyIn(data);
    if v.Some? {
      AcceptMeans(w.sc, s, data, v.value);
      if v.value.tick == s.core.tick {
        TakenNext(s, Accept(w.sc, s, data, v.value), taken, data, v.value);
      }
    }
  }

  /** Over every run, against any vehicle and any network: the simulator remembers exactly the replies it accepted, one
      for each closed tick, and disposes of a datagram by them. */
  lemma {:induction false} EveryDatagramMeans(w: World, outcomes: seq<Outcome>, data: seq<byte>)
    ensures Remembers(Played(w, outcomes), Taken(w, outcomes))
    ensures var s := Played(w, outcomes);
            s.phase.Listening? ==> Disposed(w, s, OnData(w, s, data), data, Taken(w, outcomes))
    decreases |outcomes|
  {
    hide Remembers, Disposed, OnData, Begin;
    if outcomes == [] {
      StartRemembers(w);
    } else {
      var before, last := outcomes[..|outcomes| - 1], outcomes[|outcomes| - 1];
      EveryDatagramMeans(w, before, data);
      NextRemembers(w, Played(w, before), last, Taken(w, before));
    }
    if Played(w, outcomes).phase.Listening? {
      DataMeans(w, Played(w, outcomes), data, Taken(w, outcomes));
    }
  }

  lemma NextRemembers(w: World, s: Sim, o: Outcome, taken: seq<seq<byte>>)
    requires Remembers(s, taken)
    ensures var n := Next(w, s, o);
            Remembers(n, taken + if s.phase.Listening? && o.Got? && n.core.tick != s.core.tick then [o.data] else [])
  {
    hide OnData, Remembers, Disposed;
    assert taken + [] == taken;
    if s.phase.Listening? && o.Got? {
      DataMeans(w, s, o.data, taken);
    } else {
      StillRemembers(s, Next(w, s, o), taken);
    }
  }

  lemma StillRemembers(s: Sim, n: Sim, taken: seq<seq<byte>>)
    requires Remembers(s, taken) && n.core == s.core && n.replies == s.replies && n.lastReply == s.lastReply
    requires n.down == s.down
    ensures Remembers(n, taken)
  {}

  // Losses

  predicate LostUp(w: World, k: nat) { Lost(w.seed, 0, k, w.sc.lossUp, w.sc.forcedUp(k)) }

  predicate LostDown(w: World, k: nat) { Lost(w.seed, 1, k, w.sc.lossDown, w.sc.forcedDown(k)) }

  function UpLosses(w: World, n: nat): nat { if n == 0 then 0 else UpLosses(w, n - 1) + One(LostUp(w, n - 1)) }

  function DownLosses(w: World, n: nat): nat { if n == 0 then 0 else DownLosses(w, n - 1) + One(LostDown(w, n - 1)) }

  /** After `n` closed ticks: both streams drawn from once a tick, and every loss modelled is a decision of its tick. */
  ghost predicate Drawn(w: World, c: Core, up: Transmission, down: Receipt, begun: nat) {
    var closed := |c.rows|;
    && c.tick == closed
    && c.up == Rng.StateAfter(Rng.StreamState(w.seed, 0), begun)
    && c.down == Rng.StateAfter(Rng.StreamState(w.seed, 1), begun)
    && up.modeledSampleLoss == UpLosses(w, begun)
    && (begun > 0 ==> up.firstTick == Some(0) && up.lastTick == Some(begun - 1))
    && (begun == 0 ==> up.firstTick.None?)
    && down.modeledCommandLoss == DownLosses(w, closed)
    && down.forwardedToDelay == closed - DownLosses(w, closed)
  }

  /** Between two ticks, and within one. */
  ghost predicate LossesDrawn(w: World, s: Sim) {
    if s.phase == Ended(0) then Drawn(w, s.core, s.up, s.down, |s.core.rows|)
    else
      && Drawn(w, s.core, s.up, s.down, |s.core.rows| + 1)
      && (s.now.upDrop <==> LostUp(w, s.core.tick)) && (s.now.downDrop <==> LostDown(w, s.core.tick))
  }

  lemma OpenDrawn(w: World, s: Sim)
    requires Drawn(w, s.core, s.up, s.down, |s.core.rows|)
    ensures LossesDrawn(w, OpenTick(w.sc, s))
  {
    hide Rng.StreamState, Rng.StateAfter, Rng.DrawDrop, Lost, FrameNow, SimReason, Generate;
    var k := |s.core.rows|;
    DrawMeans(w.seed, 0, k, w.sc.lossUp, w.sc.forcedUp(k));
    DrawMeans(w.seed, 1, k, w.sc.lossDown, w.sc.forcedDown(k));
  }

  lemma ClosedDrawn(w: World, s: Sim, core: Core, down: Receipt)
    requires LossesDrawn(w, s) && s.phase != Ended(0)
    requires core.tick == s.core.tick + 1 && |core.rows| == |s.core.rows| + 1
    requires core.up == s.core.up && core.down == s.core.down
    requires down.modeledCommandLoss == s.down.modeledCommandLoss + One(s.now.downDrop)
    requires down.forwardedToDelay == s.down.forwardedToDelay + One(!s.now.downDrop)
    ensures Drawn(w, core, s.up, down, |core.rows|)
  {
    hide Rng.StreamState, Rng.StateAfter, LostUp, LostDown, UpLosses;
  }

  lemma CloseKeepsStreams(sc: Scenario, c: Core, now: Opening, delta: word, state: byte)
    ensures var d := Close(sc, c, now, delta, state).0; d.up == c.up && d.down == c.down
  {
    hide IsFinite, AbsExceeds, ActuatorStep, Released, PendingReason;
  }

  lemma AcceptDrawn(w: World, s: Sim, data: seq<byte>, v: Actuator)
    requires LossesDrawn(w, s) && s.phase != Ended(0)
    ensures LossesDrawn(w, Accept(w.sc, s, data, v))
  {
    hide Close, OpenTick, Drawn, LostUp, LostDown;
    var (core, final) := Close(w.sc, s.core, s.now, v.delta, v.status % 256);
    CloseAdds(w.sc, s.core, s.now, v.delta, v.status % 256);
    CloseKeepsStreams(w.sc, s.core, s.now, v.delta, v.status % 256);
    var counted := Count(s.down, 0, 1, 0, 0, 1);
    var down := if s.now.downDrop then counted.(modeledCommandLoss := counted.modeledCommandLoss + 1)
                else counted.(forwardedToDelay := counted.forwardedToDelay + 1);
    ClosedDrawn(w, s, core, down);
    OpenDrawn(w, s.(core := core, replies := s.replies + [v], lastReply := Some(data), down := down,
                    vehicleSeen := if v.status % 256 == TERMINATED.Code() then Some(v.status / 256 % 256)
                                   else s.vehicleSeen));
  }

  /** A step that closes no tick. */
  lemma StaysDrawn(w: World, s: Sim, n: Sim)
    requires LossesDrawn(w, s) && n.core == s.core && n.now == s.now && (n.phase == Ended(0) <==> s.phase == Ended(0))
    requires n.up.(counts := s.up.counts) == s.up
    requires n.down.modeledCommandLoss == s.down.modeledCommandLoss
    requires n.down.forwardedToDelay == s.down.forwardedToDelay
    ensures LossesDrawn(w, n)
  {
    hide LostUp, LostDown, UpLosses, DownLosses, Rng.StreamState, Rng.StateAfter;
  }

  lemma NextDrawn(w: World, s: Sim, o: Outcome)
    requires LossesDrawn(w, s)
    ensures LossesDrawn(w, Next(w, s, o))
  {
    hide LossesDrawn, Accept, ReplyIn, IsFinite, BeginSend, FinishSend;
    var n := Next(w, s, o);
    var v := if o.Got? then ReplyIn(o.data) else None;
    if s.phase.Listening? && o.Got? && v.Some? && n == Accept(w.sc, s, o.data, v.value) {
      AcceptDrawn(w, s, o.data, v.value);
    } else {
      StaysDrawn(w, s, n);
    }
  }

  /** Over every run: the losses the simulator reports are the decisions of the ticks it opened and closed, one draw
      from each stream per tick, however often the network made it repeat itself. */
  lemma {:induction false} LossesAreDrawn(w: World, outcomes: seq<Outcome>)
    ensures LossesDrawn(w, Played(w, outcomes))
    decreases |outcomes|
  {
    hide LossesDrawn, Next, Begin;
    if outcomes == [] {
      BeginDrawn(w);
    } else {
      LossesAreDrawn(w, outcomes[..|outcomes| - 1]);
      NextDrawn(w, Played(w, outcomes[..|outcomes| - 1]), outcomes[|outcomes| - 1]);
    }
  }

  lemma BeginDrawn(w: World)
    ensures LossesDrawn(w, Begin(w))
  {
    hide LossesDrawn, OpenTick, Rng.StreamState;
    OpenDrawn(w, Between(StartCore(w), NO_TRAFFIC, [], None, None));
  }
}
