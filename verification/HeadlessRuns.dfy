/** What every reference run keeps, and when its episode agrees with the offline acceptance clause. */
module HeadlessRuns {
  import opened Basics
  import opened Episode
  import EpisodeRuns
  import Rng
  import opened Headless

  function InputsOf(rows: seq<Row>): (inputs: seq<Inputs<word>>)
    ensures |inputs| == |rows| && forall i | 0 <= i < |rows| :: inputs[i] == rows[i].inputs
  {
    if rows == [] then [] else InputsOf(rows[..|rows| - 1]) + [rows[|rows| - 1].inputs]
  }

  lemma InputsOfPrefix(rows: seq<Row>, n: nat)
    requires n <= |rows|
    ensures InputsOf(rows[..n]) == InputsOf(rows)[..n]
  {}

  /** One row, given what was held before it. */
  predicate GoodRow(sc: Scenario, row: Row, i: nat, before: Option<Obs<word>>) {
    && (before.Some? ==> before.value.tick < i)
    && row.tick == i && row.observation == Observe(i, row.truth, row.upDrop)
    && row.inputs.held == HeldNow(row.observation, before)
    && row.inputs.isFresh == IsFresh(row.observation)
    && row.inputs.tick == i && row.inputs.horizonReached == false && row.inputs.stopReason.None?
    && row.inputs.Admitted() && row.inputs.staleness == Age(i, row.inputs.held)
    // without a loss-of-control reason, every truth after the first is finite and in range
    && (row.inputs.simReason.None? || row.inputs.simReason == Some(SIM_HORIZON) ==>
          i == 0 || (IsFinite(row.truth.theta) && IsFinite(row.truth.omega)
                     && !AbsExceeds(row.truth.theta, LOSS_OF_CONTROL)))
    && (row.inputs.simReason == Some(SIM_HORIZON) ==> i + 1 == sc.ticks)
  }

  function HeldBefore(rows: seq<Row>, i: nat): Option<Obs<word>>
    requires i <= |rows|
  {
    if i == 0 then None else rows[i - 1].inputs.held
  }

  ghost predicate GoodRows(sc: Scenario, rows: seq<Row>) {
    && (forall i: nat | i < |rows| :: GoodRow(sc, rows[i], i, HeldBefore(rows, i)))
    && (forall i | 0 <= i < |rows| - 1 :: rows[i].inputs.simReason.None?)
  }

  lemma GoodRowsProper(sc: Scenario, rows: seq<Row>)
    requires GoodRows(sc, rows)
    ensures ProperRun(InputsOf(rows))
  {}

  ghost predicate Consistent(sc: Scenario, r: Run) {
    && r.tick == |r.rows| <= sc.ticks && GoodRows(sc, r.rows) && HeldInPast(r)
    && r.held == HeldBefore(r.rows, |r.rows|)
    && ProperRun(InputsOf(r.rows))
    && r.episode == After(PolicyOf(sc), Initial(PolicyOf(sc), sc.autoArm), InputsOf(r.rows))
    && (r.finalReason.None? ==>
          && r.tick < sc.ticks && r.episode.mode != TERMINATED
          && (r.rows != [] ==> r.rows[|r.rows| - 1].inputs.simReason.None?)
          && r.pending != Some(SIM_HORIZON)
          && (r.pending.None? && r.tick > 0 ==>
                IsFinite(r.truth.theta) && IsFinite(r.truth.omega) && !AbsExceeds(r.truth.theta, LOSS_OF_CONTROL)))
    && (r.finalReason.Some? ==>
          && r.rows != [] && r.episode.mode == TERMINATED
          && EpisodeRuns.LiveBefore(PolicyOf(sc), Initial(PolicyOf(sc), sc.autoArm), InputsOf(r.rows))
          && (r.finalReason == Some(SIM_HORIZON) ==> r.rows[|r.rows| - 1].inputs.simReason == Some(SIM_HORIZON)))
  }

  lemma StartConsistent(sc: Scenario, seed: u64, delayTicks: nat)
    requires Runnable(sc)
    ensures Consistent(sc, Start(sc, seed, delayTicks))
  {
    hide Rng.StreamState;
  }

  lemma RowNowGood(sc: Scenario, r: Run)
    requires Runnable(sc) && Consistent(sc, r) && r.finalReason.None?
    ensures var t := Tick(sc, r); |t.rows| == |r.rows| + 1 && GoodRow(sc, t.rows[|r.rows|], |r.rows|, r.held)
  {
    hide Rng.DrawDrop, Step, ActuatorStep, After, IsFinite, AbsExceeds;
    TickFields(sc, r);
  }

  lemma RowsNow(sc: Scenario, r: Run)
    requires HeldInPast(r)
    ensures |Tick(sc, r).rows| == |r.rows| + 1 && Tick(sc, r).rows[..|r.rows|] == r.rows
  {
    hide Tick, InputsNow, OutputNow, Observed, UpDrop, DownDrop;
    TickFields(sc, r);
  }

  lemma GoodRowsGrow(sc: Scenario, rows: seq<Row>, more: seq<Row>)
    requires GoodRows(sc, rows) && |more| == |rows| + 1 && more[..|rows|] == rows
    requires GoodRow(sc, more[|rows|], |rows|, HeldBefore(rows, |rows|))
    requires rows != [] ==> rows[|rows| - 1].inputs.simReason.None?
    ensures GoodRows(sc, more)
  {
    hide GoodRow, HeldBefore;
    forall i: nat | i < |more|
      ensures GoodRow(sc, more[i], i, HeldBefore(more, i))
    {
      HeldBeforeSame(rows, more, i);
      if i < |rows| {
        assert GoodRow(sc, rows[i], i, HeldBefore(rows, i)) && more[i] == rows[i];
      }
    }
  }

  lemma HeldBeforeSame(rows: seq<Row>, more: seq<Row>, i: nat)
    requires i <= |rows| <= |more| && more[..|rows|] == rows
    ensures HeldBefore(more, i) == HeldBefore(rows, i)
  {}

  lemma TickGoodRows(sc: Scenario, r: Run)
    requires Runnable(sc) && Consistent(sc, r) && r.finalReason.None?
    ensures GoodRows(sc, Tick(sc, r).rows)
  {
    hide Tick, GoodRow, GoodRows, After, PolicyOf, Initial, InputsOf;
    RowNowGood(sc, r);
    RowsNow(sc, r);
    GoodRowsGrow(sc, r.rows, Tick(sc, r).rows);
  }

  /** A terminal simulator reason terminates the episode in the same cycle. */
  lemma ReasonTerminates<F>(p: Policy<F>, s: State<F>, i: Inputs<F>)
    requires WellFormed(s) && Proper(i)
    ensures var t := Step(p, s, i).state;
            (i.simReason.Some? ==> t.mode == TERMINATED) && (t.terminal.Some? <==> t.mode == TERMINATED)
  {
    hide CommandPhase, SettleCount;
    if s.mode != TERMINATED {
      CommandPhaseKeeps(s, i);
    }
  }

  /** The episode state after a tick is the state after one more input. */
  lemma TickEpisode(sc: Scenario, r: Run)
    requires Runnable(sc) && Consistent(sc, r) && r.finalReason.None?
    ensures var t := Tick(sc, r);
            && ProperRun(InputsOf(t.rows)) && |t.rows| == |r.rows| + 1
            && InputsOf(t.rows)[..|r.rows|] == InputsOf(r.rows)
            && t.episode == After(PolicyOf(sc), Initial(PolicyOf(sc), sc.autoArm), InputsOf(t.rows))
            && t.held == HeldBefore(t.rows, |t.rows|)
            && (t.rows[|r.rows|].inputs.simReason.Some? ==> t.episode.mode == TERMINATED)
            && (t.episode.terminal.Some? <==> t.episode.mode == TERMINATED)
  {
    hide Tick, Step, After, GoodRow, IsFinite, AbsExceeds, InputsNow, PolicyOf, Initial, GoodRows, Released,
         LastOutput, ActuatorStep, InputsOf, UpDrop, DownDrop, Observed, WellFormed, PendingReason, NextSeq;
    var t, p := Tick(sc, r), PolicyOf(sc);
    TickFields(sc, r);
    TickGoodRows(sc, r);
    GoodRowsProper(sc, t.rows);
    assert t.rows[..|r.rows|] == r.rows;
    InputsOfPrefix(t.rows, |r.rows|);
    AfterNext(p, Initial(p, sc.autoArm), InputsOf(t.rows));
    EpisodeRuns.RunWellFormed(p, sc.autoArm, InputsOf(r.rows));
    assert Proper(InputsOf(t.rows)[|r.rows|]);
    ReasonTerminates(p, r.episode, InputsNow(sc, r));
  }

  lemma TickConsistent(sc: Scenario, r: Run)
    requires Runnable(sc) && Consistent(sc, r) && r.finalReason.None?
    ensures Consistent(sc, Tick(sc, r))
  {
    hide Tick, Step, After, InputsOf, GoodRow, IsFinite, AbsExceeds, Observe, IsFresh, HeldNow, Age, GoodRows,
         Rng.DrawDrop, ActuatorStep, CommandNow, UpDrop, DownDrop, Observed, Released, LastOutput, PolicyOf, Initial;
    TickFields(sc, r);
    TickGoodRows(sc, r);
    TickEpisode(sc, r);
    HeldNowInPast(sc, r);
  }

  lemma HeldNowInPast(sc: Scenario, r: Run)
    requires HeldInPast(r)
    ensures var h := InputsNow(sc, r).held; h.Some? ==> h.value.tick < r.tick + 1
  {}

  lemma AfterNext<F>(p: Policy<F>, s: State<F>, inputs: seq<Inputs<F>>)
    requires ProperRun(inputs) && inputs != []
    ensures After(p, s, inputs) == Step(p, After(p, s, inputs[..|inputs| - 1]), inputs[|inputs| - 1]).state
  {}

  lemma {:induction false} RunConsistent(sc: Scenario, seed: u64, delayTicks: nat, n: nat)
    requires Runnable(sc)
    ensures Consistent(sc, RunFor(sc, seed, delayTicks, n))
    decreases n
  {
    hide Tick, Consistent, Start;
    if n == 0 {
      StartConsistent(sc, seed, delayTicks);
    } else {
      RunConsistent(sc, seed, delayTicks, n - 1);
      var r := RunFor(sc, seed, delayTicks, n - 1);
      if r.finalReason.None? {
        TickConsistent(sc, r);
      }
    }
  }

  // The acceptance clause over recorded rows

  /** `settled`: the declared horizon is long enough and the last thousand rows, at the last thousand ticks,
      are in the box. */
  predicate Settled(rows: seq<Row>, declared: nat) {
    && declared >= 1000 && |rows| >= 1000
    && forall k | |rows| - 1000 <= k < |rows| ::
         rows[k].tick == declared - |rows| + k && InBox(rows[k].truth.theta, rows[k].truth.omega)
  }

  lemma RowInBox(sc: Scenario, row: Row, i: nat, before: Option<Obs<word>>)
    requires GoodRow(sc, row, i, before) && !row.upDrop && (i == 0 ==> before.None?)
    requires row.inputs.simReason.None? || row.inputs.simReason == Some(SIM_HORIZON)
    ensures EpisodeRuns.HeldInBox(PolicyOf(sc), row.inputs) <==> InBox(row.truth.theta, row.truth.omega)
    ensures i > 0 ==> row.inputs.held == Some(row.observation) && !PolicyOf(sc).diverged(row.observation.theta)
  {}

  /** The last row of a lossless run that reaches its horizon, and its rows one by one. */
  lemma HorizonRows(sc: Scenario, r: Run)
    requires Consistent(sc, r) && r.finalReason == Some(SIM_HORIZON)
    requires forall row <- r.rows :: !row.upDrop
    ensures |r.rows| == sc.ticks && sc.ticks > 0
    ensures forall i | 0 <= i < |r.rows| :: r.rows[i].tick == i
    ensures forall i | 0 <= i < |r.rows| ::
              EpisodeRuns.HeldInBox(PolicyOf(sc), InputsOf(r.rows)[i]) <==>
              InBox(r.rows[i].truth.theta, r.rows[i].truth.omega)
    ensures sc.ticks > 1 ==>
              TerminalReason(PolicyOf(sc), InputsOf(r.rows)[sc.ticks - 1], 1000) == STABILIZED
  {
    hide GoodRow, InputsOf, InBox, Initial, PolicyOf, After, EpisodeRuns.HeldInBox;
    var n := |r.rows|;
    forall i: nat | i < n
      ensures EpisodeRuns.HeldInBox(PolicyOf(sc), InputsOf(r.rows)[i])
              <==> InBox(r.rows[i].truth.theta, r.rows[i].truth.omega)
      ensures r.rows[i].tick == i
    {
      assert GoodRow(sc, r.rows[i], i, HeldBefore(r.rows, i)) && r.rows[i] in r.rows;
      RowTick(sc, r.rows[i], i, HeldBefore(r.rows, i));
      RowInBox(sc, r.rows[i], i, HeldBefore(r.rows, i));
    }
    assert GoodRow(sc, r.rows[n - 1], n - 1, HeldBefore(r.rows, n - 1)) && r.rows[n - 1] in r.rows;
    RowTick(sc, r.rows[n - 1], n - 1, HeldBefore(r.rows, n - 1));
    if n > 1 {
      HorizonReason(sc, r.rows[n - 1], n - 1, HeldBefore(r.rows, n - 1));
    }
  }

  /** On a run that loses no uplink sample and reaches its horizon, the episode ends STABILIZED exactly when the
      acceptance clause finds the rows settled. */
  lemma StabilizedExactlyWhenAccepted(sc: Scenario, seed: u64, delayTicks: nat)
    requires Runnable(sc)
    requires var r := RunFor(sc, seed, delayTicks, sc.ticks);
             r.finalReason == Some(SIM_HORIZON) && forall row <- r.rows :: !row.upDrop
    ensures var r := RunFor(sc, seed, delayTicks, sc.ticks);
            r.episode.terminal.Some? && (r.episode.terminal.value.reason == STABILIZED <==> Settled(r.rows, sc.ticks))
  {
    hide RunFor, GoodRows, InputsOf, InBox, Initial, PolicyOf, After, EpisodeRuns.HeldInBox, TerminalReason, Settled,
         HeldBefore, LastOutput, HeldInPast, EpisodeRuns.WindowInBox, ProperRun, EpisodeRuns.LiveBefore;
    var r, p := RunFor(sc, seed, delayTicks, sc.ticks), PolicyOf(sc);
    var inputs := InputsOf(r.rows);
    RunConsistent(sc, seed, delayTicks, sc.ticks);
    HorizonRows(sc, r);
    EpisodeRuns.RunWellFormed(p, sc.autoArm, inputs);
    if sc.ticks > 1 {
      EpisodeRuns.StabilizedExactlyWhenSettled(p, sc.autoArm, inputs);
      WindowIsSettled(p, r.rows, sc.ticks);
    } else {
      ShortRunNotStabilized(sc, inputs);
      ShortRunNotSettled(r.rows, sc.ticks);
    }
  }

  lemma ShortRunNotSettled(rows: seq<Row>, declared: nat)
    requires declared < 1000
    ensures !Settled(rows, declared)
  {}

  lemma RowTick(sc: Scenario, row: Row, i: nat, before: Option<Obs<word>>)
    requires GoodRow(sc, row, i, before)
    ensures row.tick == i && (row.inputs.simReason == Some(SIM_HORIZON) ==> i + 1 == sc.ticks)
  {}

  lemma ShortRunNotStabilized(sc: Scenario, inputs: seq<Inputs<word>>)
    requires ProperRun(inputs) && |inputs| < 1000
    ensures var t := After(PolicyOf(sc), Initial(PolicyOf(sc), sc.autoArm), inputs).terminal;
            t.Some? ==> t.value.reason != STABILIZED
  {
    hide After, PolicyOf, Initial;
    var t := After(PolicyOf(sc), Initial(PolicyOf(sc), sc.autoArm), inputs).terminal;
    assert forall n: nat :: !EpisodeRuns.SettledAt(PolicyOf(sc), inputs, n);
    if t.Some? && t.value.reason == STABILIZED {
      EpisodeRuns.StabilizedImpliesSettled(PolicyOf(sc), sc.autoArm, inputs);
    }
  }

  lemma HorizonReason(sc: Scenario, row: Row, i: nat, before: Option<Obs<word>>)
    requires GoodRow(sc, row, i, before) && !row.upDrop && 0 < i && row.inputs.simReason == Some(SIM_HORIZON)
    ensures TerminalReason(PolicyOf(sc), row.inputs, 1000) == STABILIZED
  {}

  lemma WindowIsSettled(p: Policy<word>, rows: seq<Row>, declared: nat)
    requires |rows| == declared && forall i | 0 <= i < |rows| :: rows[i].tick == i
    requires forall i | 0 <= i < |rows| ::
               EpisodeRuns.HeldInBox(p, InputsOf(rows)[i]) <==> InBox(rows[i].truth.theta, rows[i].truth.omega)
    ensures EpisodeRuns.WindowInBox(p, InputsOf(rows), |rows| - 1000, |rows|) <==> Settled(rows, declared)
  {
    hide InBox, EpisodeRuns.HeldInBox;
  }
}
