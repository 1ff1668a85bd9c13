/** What a completed lockstep run cannot do without: every reply, and the last one on its only sending. */
module FinalReply {
  import opened Basics
  import opened Episode
  import opened Frames
  import opened Payload
  import opened Headless
  import opened Session
  import opened Simulator
  import opened Lockstep
  import opened Refinement
  import HeadlessRuns
  import HistoryRuns
  import EpisodeRuns
  import Rng

  // Every tick is closed by its reply

  /** A call that moves the simulator on hands it the reply to its tick. */
  lemma MovedByReply(w: World, y: System, t: nat, a: nat, o: Outcome)
    requires Loaded(w.sc) && Sane(y.veh) && Coupled(w, y, t, a) && CanHappen(y, Call(o))
    ensures var n := Next(w, y.sim, o);
            || n.core.tick == y.sim.core.tick == t
            || (n.core.tick == t + 1 && y.sim.core.tick == t && o == Got(ReplyAt(w, t)))
  {
    hide RunFor, Loaded, SimulatorAt, VehicleAt, DecodeDatagram, Next, ReplyAt, FrameAt, ReplyIn, Accept, IsFinite,
         StatusAt, InputsNow, OutputNow, IsFrame;
    SimulatorTick(w, y.sim, t);
    OnlyAcceptanceMoves(w, y.sim, o);
    if !SameModel(y.sim, Next(w, y.sim, o)) {
      BadUnread(o.data);
      assert IsReply(w, o.data, a);
      var k: nat :| k < a && Live(w, k) && o.data == ReplyAt(w, k);
      ReplyRead(w, k);
      HistoryRuns.AcceptLogs(w, y.sim, o.data, ReplyIn(o.data).value);
    }
  }

  lemma TickMoves(w: World, y: System, t: nat, a: nat, act: Action)
    requires Loaded(w.sc) && Sane(y.veh) && Coupled(w, y, t, a) && CanHappen(y, act)
    ensures var z := Act(w, y, act);
            || z.sim.core.tick == y.sim.core.tick
            || (z.sim.core.tick == y.sim.core.tick + 1 && act == Call(Got(ReplyAt(w, y.sim.core.tick))))
  {
    hide RunFor, Loaded, Coupled, Act, ReplyAt, Next;
    ActTick(w, y, act);
    if act.Call? {
      MovedByReply(w, y, t, a, act.outcome);
    }
  }

  /** No tick is closed without a delivery of its reply. */
  lemma {:induction false} EveryReplyArrives(w: World, actions: seq<Action>, k: nat)
    requires Loaded(w.sc) && Possible(w, actions) && k < Reached(w, actions).sim.core.tick
    ensures Call(Got(ReplyAt(w, k))) in actions
    decreases |actions|
  {
    hide RunFor, Coupled, Act, CanHappen, StartOf, ReplyAt, Loaded;
    if actions == [] {
      StartsAtTickZero(w);
    } else {
      var init, last := actions[..|actions| - 1], actions[|actions| - 1];
      var t, a := AlwaysCoupled(w, init);
      TickMoves(w, Reached(w, init), t, a, last);
      if k < Reached(w, init).sim.core.tick {
        EveryReplyArrives(w, init, k);
      }
    }
  }

  lemma StartsAtTickZero(w: World)
    ensures StartOf(w).sim.core.tick == 0
  {
    hide Rng.StreamState, Rng.DrawDrop, FrameNow;
  }

  lemma ActTick(w: World, y: System, a: Action)
    requires Sane(y.veh)
    ensures Act(w, y, a).sim == if a.Call? then Next(w, y.sim, a.outcome) else y.sim
  {
    hide Next, Handle;
  }

  /** A run that ends with code 0 was handed the reply to every tick it ran. */
  lemma CompletedNeedsReplies(w: World, actions: seq<Action>)
    requires Loaded(w.sc) && Possible(w, actions) && Reached(w, actions).sim.phase == Ended(0)
    ensures forall k: nat | Live(w, k) :: Call(Got(ReplyAt(w, k))) in actions
  {
    hide RunFor, Loaded, VehicleAt, SimulatorAt, Reached, Possible, OnlyFrames, OnlyReplies, ReplyAt;
    var t, a := AlwaysCoupled(w, actions);
    EndedTick(w, Reached(w, actions).sim, t);
    forall k: nat | Live(w, k)
      ensures Call(Got(ReplyAt(w, k))) in actions
    {
      LiveBelow(w, k, t);
      EveryReplyArrives(w, actions, k);
    }
  }

  lemma EndedTick(w: World, s: Sim, t: nat)
    requires SimulatorAt(w, s, t) && s.phase == Ended(0)
    ensures !Live(w, t) && s.core.tick == w.At(t).tick
  {
    hide RunFor;
  }

  /** The ticks before the end are those the run at its end has run. */
  lemma LiveBelow(w: World, k: nat, t: nat)
    requires Live(w, k) && !Live(w, t)
    ensures k < w.At(t).tick
  {
    hide RunFor, Tick, InputsNow, OutputNow, Released, ActuatorStep, Observed, UpDrop, DownDrop, NextSeq, PendingReason,
         Rng.DrawDrop;
    if t <= k {
      EndedStays(w.sc, w.seed, w.delayTicks, t, k);
    } else {
      RunForNext(w.sc, w.seed, w.delayTicks, k);
      TickFields(w.sc, w.At(k));
      LaterTick(w, k + 1, t);
    }
  }

  lemma {:induction false} LaterTick(w: World, m: nat, n: nat)
    requires m <= n
    ensures w.At(m).tick <= w.At(n).tick
    decreases n
  {
    hide RunFor, Tick, InputsNow, OutputNow, Released, ActuatorStep, Observed, UpDrop, DownDrop, NextSeq, PendingReason,
         Rng.DrawDrop;
    if m < n {
      LaterTick(w, m, n - 1);
      if Live(w, n - 1) {
        RunForNext(w.sc, w.seed, w.delayTicks, n - 1);
        TickFields(w.sc, w.At(n - 1));
      } else {
        EndedStays(w.sc, w.seed, w.delayTicks, n - 1, n);
      }
    }
  }

  // The vehicle leaves its loop in the pass that answers the last tick

  lemma EpisodeEnded(w: World, a: nat)
    requires Loaded(w.sc) && !Live(w, a)
    ensures w.At(a).episode.terminal.Some? && w.At(a).episode.terminal.value.reason != NONE
  {
    hide RunFor, After, Initial, HeadlessRuns.GoodRows;
    var r := w.At(a);
    ReferenceConsistent(w, a);
    EpisodeRuns.RunWellFormed(PolicyOf(w.sc), w.sc.autoArm, HeadlessRuns.InputsOf(r.rows));
  }

  lemma EndedReason(w: World, v: View, a: nat)
    requires Loaded(w.sc) && VehicleAt(w, v, a) && v.fault.None? && !Live(w, a)
    ensures CurrentReason(v) != NONE
  {
    hide RunFor, Loaded, SensorAt, ReplyAt;
    EpisodeEnded(w, a);
  }

  /** The vehicle goes on serving only while the reference run does. */
  predicate ServesLive(w: World, y: System) {
    0 <= y.veh.up.counts.logicalReceived && (y.serving ==> Live(w, y.veh.up.counts.logicalReceived))
  }

  lemma PassEnds(w: World, y: System, t: nat, a: nat, packet: Datagram, sent: bool, pushed: bool)
    requires Loaded(w.sc) && Sane(y.veh) && Coupled(w, y, t, a) && ServesLive(w, y)
    requires CanHappen(y, Serves(packet, sent, pushed))
    ensures ServesLive(w, Act(w, y, Serves(packet, sent, pushed)))
  {
    hide RunFor, SimulatorAt, VehicleAt, Handle, IsFrame, IsReply, Loaded, FrameAt, ReplyAt, Received, DecodeDatagram,
         CurrentReason;
    HistoryRuns.AnsweredCount(w, y.veh, a);
    var b := VehicleHandles(w, y.veh, a, t + 1, packet, sent, pushed);
    var r := Handle(PolicyOf(w.sc), y.veh, packet, sent, pushed);
    HistoryRuns.AnsweredCount(w, r.view, b);
    if !Live(w, b) {
      EndedReason(w, r.view, b);
      NewPassStops(PolicyOf(w.sc), y.veh, packet, sent, pushed);
    }
  }

  /** A pass that answers a new tick ends the loop once there is a reason; any other leaves the tick count. */
  lemma NewPassStops(p: Policy<word>, v: View, packet: Datagram, sent: bool, pushed: bool)
    requires Sane(v)
    ensures var r := Handle(p, v, packet, sent, pushed);
            || r.view.up.counts.logicalReceived == v.up.counts.logicalReceived
            || (r.stopped <==> CurrentReason(r.view) != NONE)
  {
    hide CurrentReason;
    if Received(p, v, packet).1 != New && Received(p, v, packet).1 != Fatal {
      hide Received;
      HistoryRuns.OldPass(p, v, packet, sent, pushed);
    } else {
      FatalCounts(p, v, packet);
    }
  }

  lemma FatalCounts(p: Policy<word>, v: View, packet: Datagram)
    requires Sane(v)
    ensures var (n, kind) := Received(p, v, packet);
            kind == Fatal ==> n.up.counts.logicalReceived == v.up.counts.logicalReceived
  {
    hide Decode, DecodeSensor, NewCycle;
  }

  lemma {:induction false} AlwaysServesLive(w: World, actions: seq<Action>)
    requires Loaded(w.sc) && Possible(w, actions)
    ensures ServesLive(w, Reached(w, actions))
    decreases |actions|
  {
    hide RunFor, Coupled, Act, CanHappen, StartOf, Loaded, ServesLive;
    if actions == [] {
      StartServesLive(w);
    } else {
      var init, last := actions[..|actions| - 1], actions[|actions| - 1];
      AlwaysServesLive(w, init);
      var t, a := AlwaysCoupled(w, init);
      match last {
        case Call(o) => QuietAct(w, Reached(w, init), last);
        case Serves(packet, sent, pushed) => PassEnds(w, Reached(w, init), t, a, packet, sent, pushed);
        case Stops(why) => QuietAct(w, Reached(w, init), last);
      }
    }
  }

  lemma StartServesLive(w: World)
    ensures ServesLive(w, StartOf(w))
  {
    hide Begin;
  }

  lemma QuietAct(w: World, y: System, a: Action)
    requires Sane(y.veh) && ServesLive(w, y) && !a.Serves?
    ensures ServesLive(w, Act(w, y, a))
  {
    hide RunFor, Next;
  }

  lemma {:induction false} StoppedForGood(w: World, actions: seq<Action>, i: nat)
    requires i <= |actions| && !Reached(w, actions[..i]).serving
    ensures Possible(w, actions) ==>
              !Reached(w, actions).serving && forall j | i <= j < |actions| :: !actions[j].Serves?
    decreases |actions|
  {
    hide Handle, Next, StartOf, Stopped;
    if i == |actions| {
      assert actions[..i] == actions;
    } else {
      var n := |actions| - 1;
      assert actions[..n][..i] == actions[..i];
      StoppedForGood(w, actions[..n], i);
      if Possible(w, actions) {
        assert forall j | i <= j < n :: actions[j] == actions[..n][j];
      }
    }
  }

  lemma {:induction false} PrefixPossible(w: World, actions: seq<Action>, i: nat)
    requires Possible(w, actions) && i <= |actions|
    ensures Possible(w, actions[..i])
    decreases |actions|
  {
    hide CanHappen, Reached;
    if i == |actions| {
      assert actions[..i] == actions;
    } else {
      assert actions[..|actions| - 1][..i] == actions[..i];
      PrefixPossible(w, actions[..|actions| - 1], i);
    }
  }

  /** The vehicle has answered the last tick. */
  predicate LastAnswered(w: World, y: System) {
    var a := y.veh.up.counts.logicalReceived; 0 <= a && !Live(w, a)
  }

  /** Once the last tick is answered nothing is served any more: its reply goes out in that pass or never, so the
      delivery a completed run needs is of that one copy. */
  lemma LastReplySentOnce(w: World, actions: seq<Action>, i: nat)
    requires Loaded(w.sc) && Possible(w, actions) && i <= |actions| && LastAnswered(w, Reached(w, actions[..i]))
    ensures forall j | i <= j < |actions| :: !actions[j].Serves?
  {
    hide RunFor, Reached, Possible, Loaded;
    PrefixPossible(w, actions, i);
    AlwaysServesLive(w, actions[..i]);
    StoppedForGood(w, actions, i);
  }
}
