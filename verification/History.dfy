/** The offline audit of a completed lockstep run: four recordings, read tick by tick, must tell one story. */
module History {
  import opened Basics
  import opened Payload
  import opened Episode
  import opened Session
  import Headless
  import Simulator

  /** The sensor frames sent, the records written, the replies accepted and the rows of the simulator. */
  datatype Recordings = Recordings(sensors: seq<Sensor>, controls: seq<Control>, replies: seq<Actuator>,
                                   rows: seq<Simulator.SimRow>)
  {
    /** How far all four reach. */
    function Length(): nat { Min(Min(|sensors|, |controls|), Min(|replies|, |rows|)) }
  }

  /** The sample held after a tick, given only what was sent. */
  function Held(sensors: seq<Sensor>): Option<Obs<word>> {
    if sensors == [] then None else SampleHeld(sensors[|sensors| - 1], Held(sensors[..|sensors| - 1]))
  }

  datatype Tally = Tally(admitted: nat, invalid: nat, nonfinite: nat) {
    function Add(s: Sensor): Tally {
      if SampleFresh(s) then this.(admitted := admitted + 1)
      else if !Flag(s.flags, 1) then this.(invalid := invalid + 1)
      else this.(nonfinite := nonfinite + 1)
    }
  }

  const NO_SAMPLES := Tally(0, 0, 0)

  function Tallied(sensors: seq<Sensor>): Tally {
    if sensors == [] then NO_SAMPLES else Tallied(sensors[..|sensors| - 1]).Add(sensors[|sensors| - 1])
  }

  function AckShown(c: Control): int { if Flag(c.flags, 64) then 128 + c.ackStatus % 128 else 0 }

  function HeldTick(held: Option<Obs<word>>): int { if held.Some? then held.value.tick else MAX64 }

  predicate SameTick(tick: nat, s: Sensor, c: Control, a: Actuator, r: Simulator.SimRow) {
    s.tick == c.tick == a.tick == r.tick == a.vehTick == tick
  }

  predicate Admitted(tick: nat, held: Option<Obs<word>>, s: Sensor, c: Control) {
    c.sensorTick == HeldTick(held) && c.staleness == Headless.Age(tick, held) && Flag(c.flags, 1) == SampleFresh(s)
  }

  predicate Observed(held: Option<Obs<word>>, c: Control) {
    && c.theta == (if held.Some? then held.value.theta else 0)
    && c.omega == (if held.Some? then held.value.omega else 0)
  }

  predicate Answered(tick: nat, held: Option<Obs<word>>, c: Control, a: Actuator) {
    && a.status % 256 == c.state && a.status / 256 % 256 == c.reason && a.delta == c.cmd
    && a.staleness == Headless.Age(tick, held)
  }

  predicate LogicalOnly(c: Control) {
    c.rxCount == 1 && c.discardedOld == 0 && c.discardedSuperseded == 0 && !Flag(c.flags, 32)
  }

  predicate Timeless(s: Sensor, c: Control) {
    c.deadlineNs == c.wokeNs == c.doneNs == c.sensorSendNs == c.rxNs == c.txNs == s.sendNs == 0
  }

  /** One tick of the story, `held` being the sample held after it. */
  predicate TickAgrees(tick: nat, held: Option<Obs<word>>, s: Sensor, c: Control, a: Actuator, r: Simulator.SimRow) {
    && SameTick(tick, s, c, a, r) && Admitted(tick, held, s, c) && Observed(held, c) && Answered(tick, held, c, a)
    && a.status / 0x100_0000 == AckShown(c) && LogicalOnly(c)
    && c.discardedOther == (if Flag(s.flags, 1) && !SampleFresh(s) then 1 else 0)
    && Timeless(s, c)
  }

  predicate HistoryAgrees(r: Recordings, n: nat)
    requires n <= r.Length()
  {
    forall k | 0 <= k < n ::
      TickAgrees(k, Held(r.sensors[..k + 1]), r.sensors[k], r.controls[k], r.replies[k], r.rows[k])
  }

  lemma TakeOne(r: Recordings, n: nat)
    requires n < r.Length()
    ensures Held(r.sensors[..n + 1]) == SampleHeld(r.sensors[n], Held(r.sensors[..n]))
    ensures Tallied(r.sensors[..n + 1]) == Tallied(r.sensors[..n]).Add(r.sensors[n])
  {
    assert r.sensors[..n + 1][..n] == r.sensors[..n];
  }

  /** The first thing wrong with a tick whose numbers agree. */
  method TickErrors(tick: nat, held: Option<Obs<word>>, s: Sensor, c: Control, a: Actuator, row: Simulator.SimRow)
    returns (errors: seq<string>)
    requires SameTick(tick, s, c, a, row)
    ensures errors == [] <==> TickAgrees(tick, held, s, c, a, row)
  {
    hide SampleFresh, Flag, AckShown, SameTick, Admitted, Observed, Answered, LogicalOnly, Timeless;
    if !Admitted(tick, held, s, c) { return ["admission history or staleness mismatch"]; }
    if !Observed(held, c) { return ["held observation mismatch"]; }
    if !Answered(tick, held, c, a) { return ["actuator/control record mismatch"]; }
    if a.status / 0x100_0000 != AckShown(c) { return ["ACK projection mismatch"]; }
    if !LogicalOnly(c) { return ["physical diagnostics leaked into logical record"]; }
    if c.discardedOther != if Flag(s.flags, 1) && !SampleFresh(s) then 1 else 0 {
      return ["logical nonfinite count mismatch"];
    }
    if !Timeless(s, c) { return ["nonzero lockstep timestamp"]; }
    return [];
  }

  lemma SameTickFirst(tick: nat, held: Option<Obs<word>>, s: Sensor, c: Control, a: Actuator, row: Simulator.SimRow)
    ensures TickAgrees(tick, held, s, c, a, row) ==> SameTick(tick, s, c, a, row)
  {}

  /** The audit's loop. It stops at the first tick that disagrees. */
  method CheckHistory(r: Recordings, link: Tally) returns (errors: seq<string>)
    ensures errors == [] <==> HistoryAgrees(r, r.Length()) && Tallied(r.sensors[..r.Length()]) == link
  {
    hide SampleHeld, SampleFresh, Flag, SameTick, TickAgrees, Held, Tallied;
    errors := [];
    NothingHeld(r);
    var held: Option<Obs<word>>, tally := None, NO_SAMPLES;
    var tick := 0;
    while tick < r.Length()
      invariant tick <= r.Length() && errors == [] && HistoryAgrees(r, tick)
      invariant held == Held(r.sensors[..tick]) && tally == Tallied(r.sensors[..tick])
    {
      TakeOne(r, tick);
      var s, c, a, row := r.sensors[tick], r.controls[tick], r.replies[tick], r.rows[tick];
      SameTickFirst(tick, SampleHeld(s, held), s, c, a, row);
      if !SameTick(tick, s, c, a, row) {
        errors := ["noncontiguous logical tick"];
        break;
      }
      held, tally := SampleHeld(s, held), tally.Add(s);
      errors := TickErrors(tick, held, s, c, a, row);
      if errors != [] { break; }
      tick := tick + 1;
    }
    if tally != link { errors := errors + ["sample disposition totals mismatch"]; }
  }

  lemma NothingHeld(r: Recordings)
    ensures Held(r.sensors[..0]) == None && Tallied(r.sensors[..0]) == NO_SAMPLES
  {}

  /** Records whose reply did not go out. */
  function Unsent(log: seq<Control>): nat {
    if log == [] then 0
    else Unsent(log[..|log| - 1]) + if Flag(log[|log| - 1].flags, 2) then 0 else 1
  }

  // How the two programs may end together

  /** The vehicle's reason, as the two reports and the last record show it. */
  datatype Ending = Ending(simReason: u32, reason: nat, reasonTick: nat, simSeen: Option<u32>,
                           vehicleSeen: Option<byte>)

  predicate Paired(e: Ending, last: Control) {
    || (e.simReason, e.reason) in {(1, 1), (1, 7), (2, 2), (3, 2), (4, 2), (4, 3), (4, 4)}
    || ((e.simReason, e.reason) == (1, 4) && last.staleness >= 21)
  }

  function Complaint(ok: bool, name: string): seq<string> { if ok then [] else [name] }

  function EndingErrors(e: Ending, controls: seq<Control>): seq<string> {
    var recorded := controls != []
      && (var last := controls[|controls| - 1];
          last.state == 3 && last.reason == e.reason && e.reasonTick == last.tick);
    var simSeen := 1 <= e.simReason <= 3 ==> e.simSeen == Some(e.simReason);
    var invented := e.simReason == 4 ==> e.simSeen.None?;
    var seen := e.vehicleSeen.Some? && e.vehicleSeen.value == e.reason;
    var expected := recorded && simSeen && invented && seen && Paired(e, controls[|controls| - 1]);
    Complaint(recorded, "terminal tick or record mismatch")
      + Complaint(simSeen, "simulator reason observation mismatch")
      + Complaint(invented, "invented simulator observation")
      + Complaint(seen, "vehicle reason observation mismatch")
      + Complaint(expected, "unexpected terminal pairing")
  }
}
