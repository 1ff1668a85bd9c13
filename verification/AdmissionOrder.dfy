/** Order in free-run admission: what is consumed, what is latched, where a parked frame goes. */
module AdmissionOrder {
  import opened Basics
  import opened Payload
  import opened Admission
  import opened AdmissionRuns

  // What one call leaves alone

  lemma BegunFields(cfg: Config, s: State, expected: u64) returns (d: nat)
    requires Kept(cfg, s) && CanBegin(cfg, s, expected)
    ensures d >= 1 && (s.cycles > 0 ==> d == expected - s.expected)
    ensures s.cycles == 0 ==> forall i | 0 <= i < SLOTS :: s.future[i].None?
    ensures var t := BeginCycle(cfg, s, expected);
            && t.open && t.expected == expected && t.cycles == s.cycles && t.held == s.held && t.latch == s.latch
            && t.episode == s.episode && t.recorded == s.recorded && t.cycle.admitted.None? && t.cycle.rxCount == 0
            && t.future == Rolled(s.future, d)
            && t.candidate == (if d <= SLOTS && Normal(s.future[d - 1]) == 1 then s.future[d - 1] else None)
            && t.cycle.counts.futureExpired == NormalParked(s.future[..Min(SLOTS, d - 1)])
            && t.terminals.futureExpired == s.terminals.futureExpired + TerminalParked(s.future[..Min(SLOTS, d - 1)])
            && t.cycle == NO_CYCLE.(counts := NO_COUNTS.(futureExpired := t.cycle.counts.futureExpired))
            && t.terminals.receivedRaw == s.terminals.receivedRaw
  {
    hide NormalParked, TerminalParked, BeginCycle, Balanced, Bounded, Ordered;
    d := BeginExact(cfg, s, expected);
    assert BeginCycle(cfg, s, expected).future == Rolled(s.future, d);
  }

  // Consumption

  /** The samples consumed, in order. */
  function Consumed(cfg: Config, ops: seq<Op>): seq<Sensor>
    requires cfg.Valid()
    decreases |ops|
  {
    if ops == [] then []
    else
      var s, t := Run(cfg, ops[..|ops| - 1]), Run(cfg, ops);
      Consumed(cfg, ops[..|ops| - 1]) + if ops[|ops| - 1] == Finish && s.open then Taken(t.cycle.admitted) else []
  }

  function Taken(o: Option<Sensor>): seq<Sensor> { if o.Some? then [o.value] else [] }

  predicate Increasing(cs: seq<Sensor>) { forall i, j | 0 <= i < j < |cs| :: cs[i].tick < cs[j].tick }

  predicate AllUsable(cs: seq<Sensor>) {
    forall i | 0 <= i < |cs| :: cs[i].flags % 2 == 1 && IsFinite(cs[i].theta) && IsFinite(cs[i].omega)
  }

  function Last(cs: seq<Sensor>): Option<Sensor> { if cs == [] then None else Some(cs[|cs| - 1]) }

  /** What a call does to the held sample, the latch and the consumed count. */
  lemma ApplyFields(cfg: Config, s: State, op: Op)
    requires Kept(cfg, s)
    ensures var t := Apply(cfg, s, op);
            && (s.latch.Some? ==> t.latch == s.latch)
            && (if op == Finish && s.open then
                  && t.held == (if t.cycle.admitted.Some? then t.cycle.admitted else s.held)
                  && (t.cycle.admitted.Some? ==>
                        && s.candidate.Some? && s.candidate.value.Valid()
                        && t.cycle.admitted == Some(s.candidate.value.sample))
                  && t.expected == s.expected
                else t.held == s.held && t.expected >= s.expected)
  {
    hide NormalParked, Shift, Classified, SlotsAt, Balanced, Staleness, ReadingOf, CountBad, Bounded;
    match op {
      case Begin(expected) =>
        hide Opened;
        if CanBegin(cfg, s, expected) {
          var d := BegunFields(cfg, s, expected);
        }
      case Datagram(packet) =>
        ReceivedKeeps(cfg, s, packet);
      case Finish =>
    }
  }

  lemma HeldOrdered(cfg: Config, s: State)
    requires Kept(cfg, s)
    ensures s.held.Some? ==> s.held.value.tick <= s.expected && s.held.value.flags % 2 == 1
                             && IsFinite(s.held.value.theta) && IsFinite(s.held.value.omega)
    ensures s.open && s.candidate.Some? && s.held.Some? ==> s.candidate.value.Tick() > s.held.value.tick
    ensures s.latch.Some? ==> s.latch.value.Terminal() && s.latch.value.Tick() <= s.expected
  {
    hide NormalParked, SlotsAt, Balanced, Bounded;
  }

  lemma RunNext(cfg: Config, ops: seq<Op>)
    requires cfg.Valid() && ops != []
    ensures Run(cfg, ops) == Apply(cfg, Run(cfg, ops[..|ops| - 1]), ops[|ops| - 1])
  {
    hide Apply, Kept;
  }

  predicate ConsumedWell(cs: seq<Sensor>, held: Option<Sensor>, expected: u64) {
    Increasing(cs) && AllUsable(cs) && Last(cs) == held && forall i | 0 <= i < |cs| :: cs[i].tick <= expected
  }

  lemma TakeOne(cs: seq<Sensor>, held: Option<Sensor>, expected: u64, taken: Option<Sensor>, now: u64)
    requires ConsumedWell(cs, held, expected) && expected <= now
    requires taken.Some? ==> taken.value.tick <= now && AllUsable([taken.value])
                             && (held.Some? ==> held.value.tick < taken.value.tick)
    ensures ConsumedWell(cs + Taken(taken), if taken.Some? then taken else held, now)
  {
    if taken.Some? {
      assert AllUsable([taken.value]) && [taken.value][0] == taken.value;
    } else {
      assert cs + [] == cs;
    }
  }

  /** Consumed samples are finite, have strictly increasing ticks, and the last of them is the held one. */
  lemma {:induction false} ConsumedInOrder(cfg: Config, ops: seq<Op>)
    requires cfg.Valid()
    ensures ConsumedWell(Consumed(cfg, ops), Run(cfg, ops).held, Run(cfg, ops).expected)
    decreases |ops|
  {
    hide Apply, Kept, Run, ConsumedWell;
    var s := Run(cfg, ops);
    HeldOrdered(cfg, s);
    if ops == [] {
      RunNothing(cfg, ops);
      NothingConsumed(s.expected);
    } else {
      var init, op := ops[..|ops| - 1], ops[|ops| - 1];
      var before := Run(cfg, init);
      ConsumedInOrder(cfg, init);
      RunNext(cfg, ops);
      ApplyFields(cfg, before, op);
      HeldOrdered(cfg, before);
      var taken := if op == Finish && before.open then s.cycle.admitted else None;
      TakeOne(Consumed(cfg, init), before.held, before.expected, taken, s.expected);
    }
  }

  lemma NothingConsumed(expected: u64)
    ensures ConsumedWell([], None, expected)
  {}

  lemma RunNothing(cfg: Config, ops: seq<Op>)
    requires cfg.Valid() && ops == []
    ensures Run(cfg, ops).held.None?
  {
    hide Kept;
  }

  lemma FinishedAge(cfg: Config, s: State)
    requires Kept(cfg, s) && s.open
    ensures var t := Finished(cfg, s);
            && t.cycle.staleness == Min(if t.held.None? then t.cycles else t.expected - t.held.value.tick, MAX32)
            && t.expected == s.expected && Kept(cfg, t)
  {
    hide Kept;
    FinishedKeeps(cfg, s);
    HeldOrdered(cfg, Finished(cfg, s));
  }

  /** The staleness of a cycle is the distance to the last consumed tick, or the number of cycles before any. */
  lemma StalenessIsAge(cfg: Config, ops: seq<Op>)
    requires cfg.Valid() && Run(cfg, ops).open
    ensures var all := ops + [Finish];
            var cs, t := Consumed(cfg, all), Run(cfg, all);
            t.cycle.staleness == Min(if cs == [] then t.cycles else t.expected - cs[|cs| - 1].tick, MAX32)
  {
    hide Kept, Run, Finished, Consumed, Increasing, AllUsable;
    var all := ops + [Finish];
    assert all[..|all| - 1] == ops;
    RunNext(cfg, all);
    ConsumedInOrder(cfg, all);
    FinishedAge(cfg, Run(cfg, ops));
  }

  /** A latched terminal notice was due when it was latched, and never changes. */
  lemma {:induction false} LatchNeverChanges(cfg: Config, ops: seq<Op>, n: nat)
    requires cfg.Valid() && n <= |ops| && Run(cfg, ops[..n]).latch.Some?
    ensures Run(cfg, ops).latch == Run(cfg, ops[..n]).latch
    ensures Run(cfg, ops[..n]).latch.value.Terminal()
    ensures Run(cfg, ops[..n]).latch.value.Tick() <= Run(cfg, ops[..n]).expected
    decreases |ops|
  {
    hide Apply, Kept, Run;
    HeldOrdered(cfg, Run(cfg, ops[..n]));
    if n == |ops| {
      assert ops[..n] == ops;
    } else {
      var init := ops[..|ops| - 1];
      assert init[..n] == ops[..n];
      LatchNeverChanges(cfg, init, n);
      RunNext(cfg, ops);
      ApplyFields(cfg, Run(cfg, init), ops[|ops| - 1]);
    }
  }
}
