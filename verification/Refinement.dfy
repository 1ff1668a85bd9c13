/** The two lockstep processes and the network between them: every reachable state agrees with the reference run. */
module Refinement {
  import opened Basics
  import opened Episode
  import opened Frames
  import opened Headless
  import opened Session
  import opened Simulator
  import opened Lockstep
  import Rng

  /** `upNet` and `downNet` hold every datagram ever sent; nothing is removed, so the network may deliver any of
      them any number of times, in any order, or never. */
  datatype System = System(sim: Sim, veh: View, serving: bool, upNet: set<seq<byte>>, downNet: set<seq<byte>>)

  datatype Action =
    | Call(outcome: Outcome)
    | Serves(packet: Datagram, sent: bool, pushed: bool)
    | Stops(why: Reason)

  function StartOf(w: World): (y: System)
    ensures Sane(y.veh)
  {
    System(Begin(w), Fresh(PolicyOf(w.sc), w.sc.autoArm), true, {}, {})
  }

  /** A delivered datagram was sent, or is refused by the decoder. */
  predicate CanHappen(y: System, a: Action) {
    match a
    case Call(o) => !y.sim.phase.Ended? && (o.Got? ==> o.data in y.downNet || DecodeDatagram(o.data, {ACTUATOR}).Bad?)
    case Serves(packet, _, _) => y.serving && (Decode(packet).Bad? || packet.bytes in y.upNet)
    case Stops(_) => y.serving
  }

  function Act(w: World, y: System, a: Action): (z: System)
    requires Sane(y.veh)
    ensures Sane(z.veh)
  {
    match a
    case Call(o) =>
      var out := if y.sim.phase.Sending? && o == Sent(true) then {y.sim.now.frame} else {};
      y.(sim := Next(w, y.sim, o), upNet := y.upNet + out)
    case Serves(packet, sent, pushed) =>
      var r := Handle(PolicyOf(w.sc), y.veh, packet, sent, pushed);
      y.(veh := r.view, serving := !r.stopped, downNet := y.downNet + if r.replied then {r.view.reply} else {})
    case Stops(why) => y.(veh := Stopped(y.veh, why), serving := false)
  }

  /** The system after a sequence of actions. */
  function Reached(w: World, actions: seq<Action>): (y: System)
    ensures Sane(y.veh)
    decreases |actions|
  {
    if actions == [] then StartOf(w) else Act(w, Reached(w, actions[..|actions| - 1]), actions[|actions| - 1])
  }

  predicate Possible(w: World, actions: seq<Action>)
    decreases |actions|
  {
    actions == [] ||
      (Possible(w, actions[..|actions| - 1])
       && CanHappen(Reached(w, actions[..|actions| - 1]), actions[|actions| - 1]))
  }

  ghost predicate OnlyFrames(w: World, net: set<seq<byte>>, n: nat) { forall x <- net :: IsFrame(w, x, n) }

  ghost predicate OnlyReplies(w: World, net: set<seq<byte>>, n: nat) { forall x <- net :: IsReply(w, x, n) }

  /** The simulator is at tick `t`, the vehicle has answered `a` ticks, and only frames of ticks up to `t` and
      replies to answered ticks were ever sent. */
  ghost predicate Coupled(w: World, y: System, t: nat, a: nat) {
    && SimulatorAt(w, y.sim, t) && VehicleAt(w, y.veh, a)
    && (a == t || (a == t + 1 && y.sim.phase != Ended(0)))
    && OnlyFrames(w, y.upNet, t + 1) && OnlyReplies(w, y.downNet, a)
    && (y.serving ==> y.veh.fault.None?)
  }

  lemma StartCoupled(w: World)
    ensures Coupled(w, StartOf(w), 0, 0)
  {
    hide SimulatorAt, VehicleAt;
    SimulatorStarts(w);
    VehicleStarts(w);
  }

  lemma FramesGrow(w: World, net: set<seq<byte>>, m: nat, n: nat)
    requires OnlyFrames(w, net, m) && m <= n
    ensures OnlyFrames(w, net, n)
  {
    hide FrameAt, RunFor;
  }

  lemma RepliesGrow(w: World, net: set<seq<byte>>, m: nat, n: nat)
    requires OnlyReplies(w, net, m) && m <= n
    ensures OnlyReplies(w, net, n)
  {
    hide ReplyAt, RunFor;
  }

  lemma SentFrame(w: World, s: Sim, t: nat)
    requires SimulatorAt(w, s, t) && s.phase != Ended(0)
    ensures IsFrame(w, s.now.frame, t + 1)
  {
    hide RunFor, FrameNow, CoreOf;
    assert s.now.frame == FrameAt(w, t) && Live(w, t);
  }

  lemma SentReply(w: World, k: nat)
    requires Live(w, k)
    ensures IsReply(w, ReplyAt(w, k), k + 1)
  {
    hide RunFor, ReplyAt;
  }

  lemma CallKeeps(w: World, y: System, t: nat, a: nat, o: Outcome) returns (u: nat)
    requires Loaded(w.sc) && Sane(y.veh) && Coupled(w, y, t, a) && CanHappen(y, Call(o))
    ensures Coupled(w, Act(w, y, Call(o)), u, a)
  {
    hide RunFor, SimulatorAt, VehicleAt, DecodeDatagram, Next, IsFrame, IsReply, Loaded, SameModel;
    u := CallMoves(w, y.sim, t, a, o);
    NotEnded(y.sim, Next(w, y.sim, o));
    if y.sim.phase.Sending? {
      SentFrame(w, y.sim, t);
    }
    FramesGrow(w, Act(w, y, Call(o)).upNet, t + 1, u + 1);
  }

  lemma NotEnded(s: Sim, n: Sim)
    ensures SameModel(s, n) ==> n.phase != Ended(0)
  {}

  lemma ServeKeeps(w: World, y: System, t: nat, a: nat, packet: Datagram, sent: bool, pushed: bool) returns (b: nat)
    requires Loaded(w.sc) && Sane(y.veh) && Coupled(w, y, t, a) && CanHappen(y, Serves(packet, sent, pushed))
    ensures Coupled(w, Act(w, y, Serves(packet, sent, pushed)), t, b)
    ensures Received(PolicyOf(w.sc), y.veh, packet).1 != Fatal
  {
    hide RunFor, SimulatorAt, VehicleAt, Handle, IsFrame, IsReply, Loaded, FrameAt, ReplyAt, Received, DecodeDatagram;
    b := VehicleHandles(w, y.veh, a, t + 1, packet, sent, pushed);
    RepliesGrow(w, y.downNet, a, b);
    if b > 0 && Live(w, b - 1) {
      SentReply(w, b - 1);
    }
    EndedDead(w, y.sim, t);
  }

  lemma EndedDead(w: World, s: Sim, t: nat)
    requires SimulatorAt(w, s, t)
    ensures s.phase == Ended(0) <==> !Live(w, t)
  {
    hide RunFor;
  }

  lemma StopKeeps(w: World, y: System, t: nat, a: nat, why: Reason)
    requires Sane(y.veh) && Coupled(w, y, t, a)
    ensures Coupled(w, Act(w, y, Stops(why)), t, a)
  {
    hide RunFor, SimulatorAt, OnlyFrames, OnlyReplies, SensorAt, ReplyAt;
  }

  /** Whatever the network does, the two processes stay coupled to the reference run. */
  lemma {:induction false} AlwaysCoupled(w: World, actions: seq<Action>) returns (t: nat, a: nat)
    requires Loaded(w.sc) && Possible(w, actions)
    ensures Coupled(w, Reached(w, actions), t, a)
    decreases |actions|
  {
    hide Coupled, Act, CanHappen, StartOf;
    if actions == [] {
      StartCoupled(w);
      t, a := 0, 0;
    } else {
      var init, last := actions[..|actions| - 1], actions[|actions| - 1];
      t, a := AlwaysCoupled(w, init);
      match last {
        case Call(o) => t := CallKeeps(w, Reached(w, init), t, a, o);
        case Serves(packet, sent, pushed) => a := ServeKeeps(w, Reached(w, init), t, a, packet, sent, pushed);
        case Stops(why) => StopKeeps(w, Reached(w, init), t, a, why);
      }
    }
  }

  // What follows

  /** The rows of the reference program, as the simulator writes them. */
  function ReferenceRows(w: World): seq<SimRow> { SimRows(w.At(w.sc.ticks).rows) }

  lemma RowsNext(w: World, n: nat)
    requires Live(w, n)
    ensures SimRows(w.At(n).rows) <= SimRows(w.At(n + 1).rows)
  {
    hide RunFor, Tick, SimRowOf, InputsNow, OutputNow, Observed, UpDrop, DownDrop, Rng.DrawDrop, PendingReason,
         ActuatorStep;
    RunForNext(w.sc, w.seed, w.delayTicks, n);
    TickFields(w.sc, w.At(n));
    SimRowsNext(w.At(n).rows, w.At(n + 1).rows[|w.At(n).rows|]);
  }

  lemma {:induction false} RowsGrow(w: World, m: nat, n: nat)
    requires m <= n
    ensures SimRows(w.At(m).rows) <= SimRows(w.At(n).rows)
    decreases n
  {
    hide RunFor, Tick, SimRows;
    if m < n {
      RowsGrow(w, m, n - 1);
      if Live(w, n - 1) {
        RowsNext(w, n - 1);
      } else {
        EndedStays(w.sc, w.seed, w.delayTicks, n - 1, n);
      }
    }
  }

  /** The ticks a run can be at are within the horizon. */
  lemma TickInHorizon(w: World, s: Sim, t: nat)
    requires Loaded(w.sc) && SimulatorAt(w, s, t)
    ensures s.core.rows <= ReferenceRows(w)
    ensures s.phase == Ended(0) ==>
              s.core.rows == ReferenceRows(w) && w.At(w.sc.ticks).finalReason == Some(s.finalReason)
  {
    hide RunFor, Tick, SimRows, Loaded;
    if Live(w, t) {
      LiveTick(w, t);
      RowsGrow(w, t, w.sc.ticks);
    } else {
      HorizonEnds(w);
      if t <= w.sc.ticks {
        EndedStays(w.sc, w.seed, w.delayTicks, t, w.sc.ticks);
      } else {
        EndedStays(w.sc, w.seed, w.delayTicks, w.sc.ticks, t);
      }
    }
  }

  lemma HorizonEnds(w: World)
    requires Loaded(w.sc)
    ensures !Live(w, w.sc.ticks)
  {
    hide RunFor, Loaded;
    if Live(w, w.sc.ticks) {
      LiveTick(w, w.sc.ticks);
    }
  }

  /** Refinement: the simulator's rows are always a prefix of the reference program's rows, and all of them, with
      the same final reason, when it ends with code 0; the vehicle never meets a conflicting or skipped tick. */
  lemma RunsRefineReference(w: World, actions: seq<Action>)
    requires Loaded(w.sc) && Possible(w, actions)
    ensures var y := Reached(w, actions);
            && y.sim.core.rows <= ReferenceRows(w)
            && (y.sim.phase == Ended(0) ==>
                  y.sim.core.rows == ReferenceRows(w) && w.At(w.sc.ticks).finalReason == Some(y.sim.finalReason))
            && y.veh.up.skippedTick == 0 && y.veh.up.discardedTickConflict == 0
            && (y.serving ==> y.veh.fault.None?)
  {
    hide RunFor, SimulatorAt, ReferenceRows, Reached, OnlyFrames, OnlyReplies, SensorAt, ReplyAt;
    var t, a := AlwaysCoupled(w, actions);
    TickInHorizon(w, Reached(w, actions).sim, t);
  }

  /** No packet a running vehicle can be given is fatal. */
  lemma NeverFatal(w: World, actions: seq<Action>, packet: Datagram, sent: bool, pushed: bool)
    requires Loaded(w.sc) && Possible(w, actions) && CanHappen(Reached(w, actions), Serves(packet, sent, pushed))
    ensures Received(PolicyOf(w.sc), Reached(w, actions).veh, packet).1 != Fatal
  {
    hide RunFor, Coupled, Reached, CanHappen, Received;
    var t, a := AlwaysCoupled(w, actions);
    var b := ServeKeeps(w, Reached(w, actions), t, a, packet, sent, pushed);
  }

  /** The run is over, with every record in the recording. */
  predicate Completed(y: System) { y.sim.phase == Ended(0) && y.veh.events.ringDrops == 0 }

  /** The kernel-call outcomes the simulator has seen. */
  function Outcomes(actions: seq<Action>): seq<Outcome>
    decreases |actions|
  {
    if actions == [] then [] else
      Outcomes(actions[..|actions| - 1])
        + if actions[|actions| - 1].Call? then [actions[|actions| - 1].outcome] else []
  }

  /** The simulator of the system is the simulator program under those outcomes. */
  lemma {:induction false} SimulatorIsPlayed(w: World, actions: seq<Action>)
    ensures Reached(w, actions).sim == Played(w, Outcomes(actions))
    decreases |actions|
  {
    hide Next, Begin, Handle, Stopped;
    if actions == [] {
      assert Outcomes([]) == [];
    } else {
      var init := actions[..|actions| - 1];
      SimulatorIsPlayed(w, init);
      if actions[|actions| - 1].Call? {
        assert Outcomes(actions)[..|Outcomes(init)|] == Outcomes(init);
      } else {
        assert Outcomes(actions) == Outcomes(init);
      }
    }
  }
}
