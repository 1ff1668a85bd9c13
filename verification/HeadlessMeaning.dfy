/** The rows of the reference run, each said from the rows before it and the scenario. */
module HeadlessMeaning {
  import opened Basics
  import opened Episode
  import opened Headless
  import Rng

  // What a row must show

  /** The truth of tick `k`: the initial one, and then the plant's answer to what the row before applied. */
  function TruthAfter(sc: Scenario, before: seq<Row>): Truth {
    if before == [] then sc.initial
    else
      var k := |before| - 1;
      sc.plant(k, before[k].truth, before[k].applied)
  }

  /** What the actuator was left at. */
  function AppliedAfter(before: seq<Row>): word { if before == [] then 0 else before[|before| - 1].applied }

  /** The loss decision of tick `k` on a stream: the forced one, or whether the `k`-th draw falls below the rate. */
  predicate Lost(seed: u64, stream: nat, k: nat, p: real, forced: Option<bool>) {
    if forced.Some? then forced.value
    else Rng.Shr(Rng.Draw(Rng.StreamState(seed, stream), k), 11) as real / 9007199254740992.0 < p
  }

  /** A sample that arrives and can be used. */
  predicate Usable(row: Row) { !row.upDrop && IsFinite(row.truth.theta) && IsFinite(row.truth.omega) }

  /** The last tick up to the end of some rows whose sample arrived and can be used. */
  function LastUsable(rows: seq<Row>): (last: Option<nat>)
    ensures last.Some? ==> last.value < |rows| && Usable(rows[last.value])
    ensures forall k | (if last.None? then 0 else last.value + 1) <= k < |rows| :: !Usable(rows[k])
    decreases |rows|
  {
    if rows == [] then None
    else if Usable(rows[|rows| - 1]) then Some(|rows| - 1)
    else LastUsable(rows[..|rows| - 1])
  }

  /** The observation held after some rows. */
  function HeldAfter(rows: seq<Row>): Option<Obs<word>> {
    var last := LastUsable(rows);
    if last.None? then None
    else Some(Obs(last.value, rows[last.value].truth.theta, rows[last.value].truth.omega, true))
  }

  /** How many commands the scenario has asked for before tick `k`. */
  function CommandsBefore(sc: Scenario, k: nat): nat {
    if k == 0 then 0 else CommandsBefore(sc, k - 1) + if sc.commandAt(k - 1).Some? then 1 else 0
  }

  /** Loss of control, seen in a truth the plant has come to. */
  function LossSeen(k: nat, truth: Truth): Option<u32> {
    if k > 0 && (!IsFinite(truth.theta) || !IsFinite(truth.omega)) then Some(3)
    else if k > 0 && AbsExceeds(truth.theta, LOSS_OF_CONTROL) then Some(2)
    else None
  }

  /** What the simulator tells the vehicle: loss of control, or the horizon. */
  function Told(sc: Scenario, k: nat, truth: Truth): Option<u32> {
    if LossSeen(k, truth).Some? then LossSeen(k, truth) else if k + 1 == sc.ticks then Some(1) else None
  }

  /** What the links make of a row's request. */
  function Forwarded(row: Row): Option<word> { if row.downDrop then None else Some(row.output.delta) }

  /** The request that reaches the actuator in tick `k`: that of `delayTicks` ticks before, if there was one and it
      was not lost. */
  predicate Arrives(rows: seq<Row>, k: nat, delayTicks: nat)
    requires k < |rows|
  {
    rows[k].arriving == if k < delayTicks then None else Forwarded(rows[k - delayTicks])
  }

  /** What is applied: the last command still, when none arrives; an arriving one within the limit as it is, and one
      beyond it as the limit with its sign. */
  predicate Applies(applied: word, last: word, arriving: Option<word>) {
    && (arriving.None? ==> applied == last)
    && (arriving.Some? && Magnitude(arriving.value) <= DELTA_MAX ==> applied == arriving.value)
    && (arriving.Some? && !IsNaN(arriving.value) && Magnitude(arriving.value) > DELTA_MAX ==>
          Magnitude(applied) == DELTA_MAX && Negative(applied) == Negative(arriving.value))
    && (arriving.Some? && IsNaN(arriving.value) ==> applied == arriving.value)
  }

  /** What the episode is given. */
  predicate Observes(sc: Scenario, rows: seq<Row>, k: nat)
    requires k < |rows|
  {
    var i, last := rows[k].inputs, LastUsable(rows[..k + 1]);
    && i.tick == k && i.isFresh == Usable(rows[k]) && i.stopReason.None? && !i.horizonReached
    && i.held == HeldAfter(rows[..k + 1])
    && i.staleness == Min(if last.None? then k + 1 else k - last.value, MAX32)
    && i.command == (if sc.commandAt(k).None? then None
                     else Some(Command((CommandsBefore(sc, k) + 1) % TWO32, sc.commandAt(k).value, k + 50)))
    && i.simReason == Told(sc, k, rows[k].truth)
  }

  /** The episode after some rows. */
  function StateAfterRows(sc: Scenario, before: seq<Row>): State<word> {
    if before == [] then Initial(PolicyOf(sc), sc.autoArm) else before[|before| - 1].output.state
  }

  /** Why the run is over after some rows: the simulator said so in the last one, or else the episode ended there. */
  function Over(rows: seq<Row>): Option<u32> {
    if rows == [] then None
    else
      var last := rows[|rows| - 1];
      if last.inputs.simReason.Some? then last.inputs.simReason
      else if last.output.state.terminal.Some? then Some(4)
      else None
  }

  /** One row, after the rows before it. */
  predicate Follows(sc: Scenario, seed: u64, delayTicks: nat, rows: seq<Row>, k: nat)
    requires k < |rows|
  {
    var row := rows[k];
    && row.tick == k && row.truth == TruthAfter(sc, rows[..k]) && Over(rows[..k]).None?
    && row.inputs.Admitted() && row.output == Step(PolicyOf(sc), StateAfterRows(sc, rows[..k]), row.inputs)
    && row.upDrop == Lost(seed, 0, k, sc.lossUp, sc.forcedUp(k))
    && row.downDrop == Lost(seed, 1, k, sc.lossDown, sc.forcedDown(k))
    && Observes(sc, rows, k) && Arrives(rows, k, delayTicks)
    && Applies(row.applied, AppliedAfter(rows[..k]), row.arriving)
  }

  // Every row shows it

  function Requests(rows: seq<Row>): (s: seq<Option<word>>)
    ensures |s| == |rows| && forall k | 0 <= k < |rows| :: s[k] == Forwarded(rows[k])
  {
    seq(|rows|, k requires 0 <= k < |rows| => Forwarded(rows[k]))
  }

  /** The fields of a run, from its rows. */
  ghost predicate Linked(sc: Scenario, seed: u64, delayTicks: nat, r: Run) {
    var n := |r.rows|;
    && r.tick == n && r.applied == AppliedAfter(r.rows) && r.held == HeldAfter(r.rows)
    && r.up == Rng.StateAfter(Rng.StreamState(seed, 0), n) && r.down == Rng.StateAfter(Rng.StreamState(seed, 1), n)
    && r.delay == (EmptyLine(delayTicks) + Requests(r.rows))[n..]
    && r.cmdSeq as int == CommandsBefore(sc, n) % TWO32
    && r.episode == StateAfterRows(sc, r.rows) && r.finalReason == Over(r.rows)
    && (r.finalReason.None? ==>
          r.truth == TruthAfter(sc, r.rows) && r.pending == LossSeen(n, r.truth))
  }

  lemma StartLinked(sc: Scenario, seed: u64, delayTicks: nat)
    ensures Linked(sc, seed, delayTicks, Start(sc, seed, delayTicks))
  {
    hide Rng.StreamState;
    assert EmptyLine(delayTicks) + Requests([]) == EmptyLine(delayTicks);
  }

  lemma DrawMeans(seed: u64, stream: nat, k: nat, p: real, forced: Option<bool>)
    ensures Decide(Rng.DrawDrop(Rng.StateAfter(Rng.StreamState(seed, stream), k), p).0, forced)
         <==> Lost(seed, stream, k, p, forced)
    ensures Rng.DrawDrop(Rng.StateAfter(Rng.StreamState(seed, stream), k), p).1
         == Rng.StateAfter(Rng.StreamState(seed, stream), k + 1)
  {
    hide Rng.StreamState, Rng.Mix, Rng.Shr;
  }

  lemma HeldNext(rows: seq<Row>, row: Row)
    requires row.observation == Observe(|rows|, row.truth, row.upDrop)
    ensures HeldAfter(rows + [row]) == HeldNow(row.observation, HeldAfter(rows))
    ensures IsFresh(row.observation) == Usable(row)
  {
    hide IsFinite;
    assert (rows + [row])[..|rows|] == rows;
    FiniteZero();
  }

  lemma FiniteZero()
    ensures IsFinite(0)
  {}

  lemma AppliesMeans(applied: word, arriving: Option<word>)
    ensures Applies(ActuatorStep(applied, arriving), applied, arriving)
  {}

  lemma LineNext(line: seq<Option<word>>, requests: seq<Option<word>>, n: nat, request: Option<word>)
    requires n == |requests|
    ensures var all := line + requests;
            var (released, rest) := Released(all[n..], request);
            && rest == (line + (requests + [request]))[n + 1..]
            && released == (line + (requests + [request]))[n]
  {
    var all := line + (requests + [request]);
    assert (line + requests)[n..] + [request] == all[n..];
  }

  lemma RequestsNext(rows: seq<Row>, row: Row)
    ensures Requests(rows + [row]) == Requests(rows) + [Forwarded(row)]
  {}

  lemma ToldMeans(sc: Scenario, k: nat, truth: Truth, pending: Option<u32>)
    requires pending == LossSeen(k, truth)
    ensures SimReason(sc, k, pending) == Told(sc, k, truth)
  {
    hide IsFinite, AbsExceeds;
  }

  lemma CommandNext(sc: Scenario, r: Run)
    requires r.cmdSeq as int == CommandsBefore(sc, r.tick) % TWO32
    ensures NextSeq(sc, r) as int == CommandsBefore(sc, r.tick + 1) % TWO32
    ensures CommandNow(sc, r) == if sc.commandAt(r.tick).None? then None
                                 else Some(Command((CommandsBefore(sc, r.tick) + 1) % TWO32, sc.commandAt(r.tick).value,
                                                   r.tick + 50))
  {
    WrapNext(CommandsBefore(sc, r.tick));
  }

  lemma WrapNext(n: nat)
    ensures (n % TWO32 + 1) % TWO32 == (n + 1) % TWO32
  {}

  /** What the episode is given in a live tick. */
  lemma ObservesRow(sc: Scenario, r: Run, rows: seq<Row>)
    requires HeldInPast(r) && |rows| == r.tick + 1 && rows[r.tick].inputs == InputsNow(sc, r)
    requires rows[r.tick].truth == r.truth
    requires r.cmdSeq as int == CommandsBefore(sc, r.tick) % TWO32 && r.pending == LossSeen(r.tick, r.truth)
    requires HeldAfter(rows) == HeldNow(Observed(sc, r), r.held) && IsFresh(Observed(sc, r)) == Usable(rows[r.tick])
    ensures Observes(sc, rows, r.tick)
  {
    hide UpDrop, IsFinite, CommandNow, LossSeen, Told, SimReason, IsFresh, HeldNow, Usable;
    assert rows[..r.tick + 1] == rows;
    CommandNext(sc, r);
    ToldMeans(sc, r.tick, r.truth, r.pending);
  }

  /** The row a live tick adds. */
  lemma RowAdded(sc: Scenario, seed: u64, delayTicks: nat, r: Run)
    requires Linked(sc, seed, delayTicks, r) && r.finalReason.None? && HeldInPast(r)
    ensures var t := Tick(sc, r);
            |t.rows| == |r.rows| + 1 && t.rows[..|r.rows|] == r.rows
            && Follows(sc, seed, delayTicks, t.rows, |r.rows|)
  {
    hide Rng.StreamState, Rng.StateAfter, Rng.DrawDrop, Step, ActuatorStep, Tick, IsFinite, Lost, Applies, LossSeen,
         HeldAfter, Released, Observes, InputsNow, IsFresh, HeldNow, Usable, NextSeq, PendingReason, EmptyLine;
    var t, n := Tick(sc, r), |r.rows|;
    TickFields(sc, r);
    var row := t.rows[n];
    assert t.rows == r.rows + [row] && t.rows[..n] == r.rows && t.rows[..n + 1] == t.rows;
    DrawMeans(seed, 0, n, sc.lossUp, sc.forcedUp(n));
    DrawMeans(seed, 1, n, sc.lossDown, sc.forcedDown(n));
    HeldNext(r.rows, row);
    AppliesMeans(r.applied, row.arriving);
    LineNext(EmptyLine(delayTicks), Requests(r.rows), n, Forwarded(row));
    RequestsNext(r.rows, row);
    LineAt(delayTicks, Requests(t.rows), n);
    ObservesRow(sc, r, t.rows);
  }

  lemma LineAt(depth: nat, requests: seq<Option<word>>, n: nat)
    requires n < |requests|
    ensures (EmptyLine(depth) + requests)[n] == if n < depth then None else requests[n - depth]
  {}

  lemma TickLinked(sc: Scenario, seed: u64, delayTicks: nat, r: Run)
    requires Linked(sc, seed, delayTicks, r) && r.finalReason.None? && HeldInPast(r)
    ensures Linked(sc, seed, delayTicks, Tick(sc, r))
  {
    hide Rng.StreamState, Rng.StateAfter, Rng.DrawDrop, Step, ActuatorStep, Tick, IsFinite, LossSeen, HeldAfter,
         Released, InputsNow, OutputNow, IsFresh, HeldNow, Usable, NextSeq, EmptyLine, Observed, UpDrop, DownDrop;
    var t, n := Tick(sc, r), |r.rows|;
    TickFields(sc, r);
    var row := t.rows[n];
    DrawMeans(seed, 0, n, sc.lossUp, None);
    DrawMeans(seed, 1, n, sc.lossDown, None);
    HeldKept(sc, r, row);
    LineNext(EmptyLine(delayTicks), Requests(r.rows), n, Forwarded(row));
    RequestsNext(r.rows, row);
    CommandNext(sc, r);
    if t.finalReason.None? {
      NothingPending(sc, r);
      LossNext(sc, r, t.truth);
    }
  }

  lemma HeldKept(sc: Scenario, r: Run, row: Row)
    requires HeldInPast(r) && r.held == HeldAfter(r.rows) && |r.rows| == r.tick
    requires row.observation == Observed(sc, r) && row.truth == r.truth && row.upDrop == UpDrop(sc, r)
    ensures InputsNow(sc, r).held == HeldAfter(r.rows + [row])
  {
    hide IsFinite, UpDrop, HeldAfter;
    HeldNext(r.rows, row);
  }

  lemma NothingPending(sc: Scenario, r: Run)
    requires HeldInPast(r) && InputsNow(sc, r).simReason.None?
    ensures r.pending.None?
  {
    hide Observed;
  }

  lemma LossNext(sc: Scenario, r: Run, truth: Truth)
    requires r.pending.None?
    ensures PendingReason(truth, r.pending) == LossSeen(r.tick + 1, truth)
  {
    hide IsFinite, AbsExceeds;
  }

  // Every run

  predicate RowFollows(sc: Scenario, seed: u64, delayTicks: nat, rows: seq<Row>, k: nat)
    requires k < |rows|
  {
    Follows(sc, seed, delayTicks, rows[..k + 1], k)
  }

  predicate AllFollow(sc: Scenario, seed: u64, delayTicks: nat, rows: seq<Row>) {
    forall k | 0 <= k < |rows| :: RowFollows(sc, seed, delayTicks, rows, k)
  }

  lemma FollowsGrow(sc: Scenario, seed: u64, delayTicks: nat, rows: seq<Row>, more: seq<Row>)
    requires AllFollow(sc, seed, delayTicks, rows) && |more| == |rows| + 1 && more[..|rows|] == rows
    requires Follows(sc, seed, delayTicks, more, |rows|)
    ensures AllFollow(sc, seed, delayTicks, more)
  {
    hide Follows;
    forall k | 0 <= k < |more|
      ensures RowFollows(sc, seed, delayTicks, more, k)
    {
      if k < |rows| {
        assert RowFollows(sc, seed, delayTicks, rows, k) && more[..k + 1] == rows[..k + 1];
      } else {
        assert more[..k + 1] == more;
      }
    }
  }

  /** Every row of every run follows from the rows before it, the scenario and the seed: truth, losses, observation,
      staleness, command, reason, the request that arrives and what is applied. */
  lemma {:induction false} RowsFollow(sc: Scenario, seed: u64, delayTicks: nat, n: nat)
    ensures AllFollow(sc, seed, delayTicks, RunFor(sc, seed, delayTicks, n).rows)
    ensures Linked(sc, seed, delayTicks, RunFor(sc, seed, delayTicks, n))
    decreases n
  {
    hide AllFollow, Linked, Tick, Start, Follows;
    if n == 0 {
      StartLinked(sc, seed, delayTicks);
      NoRows(sc, seed, delayTicks);
    } else {
      var r := RunFor(sc, seed, delayTicks, n - 1);
      RowsFollow(sc, seed, delayTicks, n - 1);
      if r.finalReason.None? {
        RowAdded(sc, seed, delayTicks, r);
        TickLinked(sc, seed, delayTicks, r);
        FollowsGrow(sc, seed, delayTicks, r.rows, Tick(sc, r).rows);
      }
    }
  }

  lemma NoRows(sc: Scenario, seed: u64, delayTicks: nat)
    ensures AllFollow(sc, seed, delayTicks, Start(sc, seed, delayTicks).rows)
  {
    hide Rng.StreamState;
  }
}
