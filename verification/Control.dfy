/** The fixed PID step in rounded arithmetic, and the bounds every episode keeps.
    Every operation is the exact one followed by one rounding. What is used of the rounding holds of rounding to the
    nearest binary64 number, as long as nothing overflows, and of exact arithmetic. */
module Control {
  import opened Basics
  import opened Episode
  import EpisodeMeaning

  // Rounding

  type Rounding = real -> real

  /** A number the arithmetic can hold. */
  predicate Held(fl: Rounding, x: real) { fl(x) == x }

  ghost predicate Rounds(fl: Rounding) {
    && (forall x, y :: x <= y ==> fl(x) <= fl(y))
    && (forall x :: fl(-x) == -fl(x))
    && (forall x :: fl(fl(x)) == fl(x))
    && (forall x :: 0.0 <= x ==> fl(x) <= 2.0 * x)
    && (forall x :: 0.001 <= x ==> 7.0 / 8.0 * x <= fl(x) <= 9.0 / 8.0 * x)
    && (forall x, y :: Held(fl, x) && Held(fl, y) && y <= x ==> fl(x - y) <= 9.0 / 8.0 * (x - y))
  }

  function Exactly(x: real): real { x }

  /** Exact arithmetic is one such. */
  lemma ExactRounds()
    ensures Rounds(Exactly)
  {}

  lemma Monotone(fl: Rounding, x: real, y: real)
    requires Rounds(fl) && x <= y
    ensures fl(x) <= fl(y)
  {}

  lemma Odd(fl: Rounding, x: real)
    requires Rounds(fl)
    ensures fl(-x) == -fl(x) && fl(0.0) == 0.0
  {
    assert fl(-0.0) == -fl(0.0);
  }

  lemma Idempotent(fl: Rounding, x: real)
    requires Rounds(fl)
    ensures Held(fl, fl(x))
  {}

  lemma AtMostDouble(fl: Rounding, x: real)
    requires Rounds(fl) && 0.0 <= x
    ensures 0.0 <= fl(x) <= 2.0 * x
  {
    Odd(fl, 0.0);
    Monotone(fl, 0.0, x);
  }

  lemma Near(fl: Rounding, x: real)
    requires Rounds(fl) && 0.001 <= x
    ensures 7.0 / 8.0 * x <= fl(x) <= 9.0 / 8.0 * x
  {}

  lemma Difference(fl: Rounding, x: real, y: real)
    requires Rounds(fl) && Held(fl, x) && Held(fl, y) && y <= x
    ensures 0.0 <= fl(x - y) <= 9.0 / 8.0 * (x - y)
  {
    Odd(fl, 0.0);
    Monotone(fl, 0.0, x - y);
  }

  /** The exact product. */
  function Times(a: real, b: real): real { a * b }

  lemma TimesOdd(a: real, b: real)
    ensures Times(a, -b) == -Times(a, b)
  {}

  lemma TimesSigned(a: real, b: real)
    requires 0.0 <= a
    ensures b <= 0.0 ==> Times(a, b) <= 0.0
    ensures b >= 0.0 ==> Times(a, b) >= 0.0
  {}

  lemma TimesMonotone(a: real, x: real, y: real)
    requires 0.0 <= a && x <= y
    ensures Times(a, x) <= Times(a, y)
  {}

  // The constants, by the route the source takes to them

  function KP(fl: Rounding): real { fl(3.277) }

  function KI(fl: Rounding): real { fl(7.68) }

  function KD(fl: Rounding): real { fl(0.309) }

  function DT(fl: Rounding): real { fl(1.0 / 500.0) }

  function KI_DT(fl: Rounding): real { fl(Times(KI(fl), DT(fl))) }

  function BETA_D(fl: Rounding): real { fl(1.0 / 3.0) }

  function DELTA_MAX(fl: Rounding): real { fl(0.12) }

  function I_MAX(fl: Rounding): real { DELTA_MAX(fl) }

  lemma Constants(fl: Rounding)
    requires Rounds(fl)
    ensures 0.0 <= KP(fl) && 0.0 <= KD(fl) && 0.0 <= KI_DT(fl)
    ensures 0.0 <= BETA_D(fl) <= 3.0 / 8.0
    ensures 0.0 < DELTA_MAX(fl) && Held(fl, DELTA_MAX(fl)) && I_MAX(fl) == DELTA_MAX(fl)
  {
    Near(fl, 3.277);
    Near(fl, 7.68);
    Near(fl, 0.309);
    Near(fl, 1.0 / 500.0);
    Near(fl, 1.0 / 3.0);
    Near(fl, 0.12);
    TimesSigned(KI(fl), DT(fl));
    AtMostDouble(fl, Times(KI(fl), DT(fl)));
    Idempotent(fl, 0.12);
  }

  // The step

  function Abs(x: real): real { if x < 0.0 then -x else x }

  function Clamp(x: real, bound: real): real {
    if x > bound then bound else if x < -bound then -bound else x
  }

  /** The filtered rate. */
  function Filtered(fl: Rounding, d: real, omega: real): real { fl(d + fl(Times(BETA_D(fl), fl(omega - d)))) }

  function Integrated(fl: Rounding, i: real, e: real): real { Clamp(fl(i + fl(Times(KI_DT(fl), e))), I_MAX(fl)) }

  function Unclamped(fl: Rounding, e: real, i: real, d: real): real {
    fl(fl(fl(Times(KP(fl), e)) + i) + fl(Times(KD(fl), d)))
  }

  /** One step for an admitted observation: the requested angle and the next state. */
  function PidStep(fl: Rounding, s: Pid<real>, theta: real, omega: real): (real, Pid<real>) {
    var e := fl(theta - 0.0);
    var d, i := Filtered(fl, s.dPrev, omega), Integrated(fl, s.iState, e);
    var u := Unclamped(fl, e, i, d);
    var satHi, satLo := u > DELTA_MAX(fl), u < -DELTA_MAX(fl);
    var delta := Clamp(u, DELTA_MAX(fl));
    var hold := (satHi && e > 0.0) || (satLo && e < 0.0);
    (delta, Pid(if hold then s.iState else i, d, delta))
  }

  /** The vehicle's controller, whose three fields are rewritten by each step. */
  class Controller {
    const fl: Rounding
    var iState: real
    var dPrev: real
    var lastDelta: real

    ghost function View(): Pid<real> reads this { Pid(iState, dPrev, lastDelta) }

    constructor (fl: Rounding)
      ensures this.fl == fl && View() == Pid(0.0, 0.0, 0.0)
    {
      this.fl := fl;
      iState, dPrev, lastDelta := 0.0, 0.0, 0.0;
    }

    method Filter(omega: real) returns (d: real)
      ensures d == Filtered(fl, dPrev, omega)
    {
      hide BETA_D, Times;
      d := fl(dPrev + fl(Times(BETA_D(fl), fl(omega - dPrev))));
    }

    method Request(e: real, iCand: real, d: real) returns (u: real)
      ensures u == Unclamped(fl, e, iCand, d)
    {
      hide KP, KD, Times;
      u := fl(fl(fl(Times(KP(fl), e)) + iCand) + fl(Times(KD(fl), d)));
    }

    method Integrate(e: real) returns (iCand: real)
      requires Rounds(fl)
      ensures iCand == Integrated(fl, iState, e)
    {
      hide Rounds, KI_DT, DELTA_MAX, Times;
      Constants(fl);
      iCand := fl(iState + fl(Times(KI_DT(fl), e)));
      if iCand > I_MAX(fl) { iCand := I_MAX(fl); }
      if iCand < -I_MAX(fl) { iCand := -I_MAX(fl); }
    }

    method Saturate(u: real) returns (delta: real, satHi: bool, satLo: bool)
      ensures satHi == (u > DELTA_MAX(fl)) && satLo == (u < -DELTA_MAX(fl)) && delta == Clamp(u, DELTA_MAX(fl))
    {
      hide DELTA_MAX;
      satHi, satLo := u > DELTA_MAX(fl), u < -DELTA_MAX(fl);
      if satHi {
        delta := DELTA_MAX(fl);
      } else if satLo {
        delta := -DELTA_MAX(fl);
      } else {
        delta := u;
      }
    }

    method Step(theta: real, omega: real) returns (delta: real)
      requires Rounds(fl)
      modifies this
      ensures (delta, View()) == PidStep(fl, old(View()), theta, omega)
    {
      hide Rounds, Integrated, DELTA_MAX, Filtered, Unclamped, Clamp;
      var e := fl(theta - 0.0);
      var d := Filter(omega);
      var iCand := Integrate(e);
      var u := Request(e, iCand, d);
      var satHi, satLo;
      delta, satHi, satLo := Saturate(u);
      var hold := (satHi && e > 0.0) || (satLo && e < 0.0);
      iState := if hold then iState else iCand;
      dPrev := d;
      lastDelta := delta;
    }
  }

  /** The state is within its limits and holds numbers the arithmetic can hold. */
  predicate Bounded(fl: Rounding, s: Pid<real>) {
    && Abs(s.iState) <= I_MAX(fl) && Abs(s.lastDelta) <= DELTA_MAX(fl)
    && Held(fl, s.iState) && Held(fl, s.dPrev)
  }

  lemma ClampHeld(fl: Rounding, x: real, bound: real)
    requires Rounds(fl) && Held(fl, x) && Held(fl, bound) && 0.0 <= bound
    ensures Held(fl, Clamp(x, bound)) && Abs(Clamp(x, bound)) <= bound
  {
    Odd(fl, bound);
  }

  /** The request and the integrator stay within their limits. */
  lemma StepBounded(fl: Rounding, s: Pid<real>, theta: real, omega: real)
    requires Rounds(fl) && Bounded(fl, s)
    ensures var (delta, t) := PidStep(fl, s, theta, omega); Abs(delta) <= DELTA_MAX(fl) && Bounded(fl, t)
  {
    hide Rounds, KP, KD, KI_DT, BETA_D, DELTA_MAX, Times;
    var e := fl(theta - 0.0);
    Constants(fl);
    Idempotent(fl, s.iState + fl(Times(KI_DT(fl), e)));
    Idempotent(fl, s.dPrev + fl(Times(BETA_D(fl), fl(omega - s.dPrev))));
    ClampHeld(fl, fl(s.iState + fl(Times(KI_DT(fl), e))), I_MAX(fl));
  }

  /** The integrator moves the way of the error. */
  lemma IntegratesForward(fl: Rounding, i: real, e: real)
    requires Rounds(fl) && Held(fl, i) && Abs(i) <= I_MAX(fl)
    ensures e <= 0.0 ==> Integrated(fl, i, e) <= i
    ensures e >= 0.0 ==> Integrated(fl, i, e) >= i
  {
    hide Rounds, KI_DT, DELTA_MAX, Times;
    Constants(fl);
    var step := Times(KI_DT(fl), e);
    TimesSigned(KI_DT(fl), e);
    Odd(fl, 0.0);
    if e <= 0.0 {
      Monotone(fl, step, 0.0);
      Monotone(fl, i + fl(step), i);
    }
    if e >= 0.0 {
      Monotone(fl, 0.0, step);
      Monotone(fl, i, i + fl(step));
    }
  }

  /** While the request is saturated, the integrator never moves further the same way. */
  lemma NeverWindsUp(fl: Rounding, s: Pid<real>, theta: real, omega: real)
    requires Rounds(fl) && Bounded(fl, s)
    ensures var (delta, t) := PidStep(fl, s, theta, omega);
            var e := fl(theta - 0.0);
            var u := Unclamped(fl, e, Integrated(fl, s.iState, e), t.dPrev);
            && (u > DELTA_MAX(fl) ==> t.iState <= s.iState)
            && (u < -DELTA_MAX(fl) ==> t.iState >= s.iState)
  {
    hide Rounds, Integrated, Unclamped, Filtered, DELTA_MAX;
    IntegratesForward(fl, s.iState, fl(theta - 0.0));
  }

  lemma SmallFactor(a: real, z: real)
    requires 0.0 <= a <= 3.0 / 8.0 && 0.0 <= z
    ensures 0.0 <= Times(a, z) <= 3.0 / 8.0 * z
  {
    TimesSigned(a, z);
    TimesSigned(3.0 / 8.0 - a, z);
    assert Times(3.0 / 8.0 - a, z) == 3.0 / 8.0 * z - Times(a, z);
  }

  /** A third of a difference, rounded at every step, is no more than the difference. */
  lemma ThirdIsLess(fl: Rounding, x: real, y: real)
    requires Rounds(fl) && Held(fl, x) && Held(fl, y) && y <= x
    ensures 0.0 <= fl(Times(BETA_D(fl), fl(x - y))) <= x - y
  {
    hide Rounds, BETA_D, Times;
    Constants(fl);
    Difference(fl, x, y);
    SmallFactor(BETA_D(fl), fl(x - y));
    AtMostDouble(fl, Times(BETA_D(fl), fl(x - y)));
  }

  lemma Opposite(fl: Rounding, d: real, omega: real)
    requires Rounds(fl)
    ensures Filtered(fl, -d, -omega) == -Filtered(fl, d, omega)
  {
    hide Rounds, BETA_D, Times;
    var gap, part := fl(omega - d), fl(Times(BETA_D(fl), fl(omega - d)));
    assert -omega - -d == -(omega - d);
    Odd(fl, omega - d);
    TimesOdd(BETA_D(fl), gap);
    Odd(fl, Times(BETA_D(fl), gap));
    assert -d + -part == -(d + part);
    Odd(fl, d + part);
  }

  /** The filtered rate lies between the rate before and the rate seen. */
  lemma FilteredBetween(fl: Rounding, d: real, omega: real)
    requires Rounds(fl) && Held(fl, d) && Held(fl, omega) && d <= omega
    ensures d <= Filtered(fl, d, omega) <= omega
  {
    hide Rounds, BETA_D, Times;
    ThirdIsLess(fl, omega, d);
    Monotone(fl, d, d + fl(Times(BETA_D(fl), fl(omega - d))));
    Monotone(fl, d + fl(Times(BETA_D(fl), fl(omega - d))), omega);
  }

  /** So it never exceeds a bound on the rates. */
  lemma RateBounded(fl: Rounding, d: real, omega: real, bound: real)
    requires Rounds(fl) && Held(fl, d) && Held(fl, omega) && Abs(d) <= bound && Abs(omega) <= bound
    ensures Abs(Filtered(fl, d, omega)) <= bound
  {
    hide Rounds, Filtered;
    if d <= omega {
      FilteredBetween(fl, d, omega);
    } else {
      Odd(fl, d);
      Odd(fl, omega);
      FilteredBetween(fl, -d, -omega);
      Opposite(fl, d, omega);
    }
  }

  function Negate(s: Pid<real>): Pid<real> { Pid(-s.iState, -s.dPrev, -s.lastDelta) }

  lemma ClampIsOdd(x: real, bound: real)
    requires bound >= 0.0
    ensures Clamp(-x, bound) == -Clamp(x, bound)
  {}

  lemma IntegratedIsOdd(fl: Rounding, i: real, e: real)
    requires Rounds(fl)
    ensures Integrated(fl, -i, -e) == -Integrated(fl, i, e)
  {
    hide Rounds, KI_DT, DELTA_MAX, Times;
    Constants(fl);
    Odd(fl, Times(KI_DT(fl), e));
    TimesOdd(KI_DT(fl), e);
    Odd(fl, i + fl(Times(KI_DT(fl), e)));
    assert -i + -fl(Times(KI_DT(fl), e)) == -(i + fl(Times(KI_DT(fl), e)));
    ClampIsOdd(fl(i + fl(Times(KI_DT(fl), e))), I_MAX(fl));
  }

  lemma UnclampedIsOdd(fl: Rounding, e: real, i: real, d: real)
    requires Rounds(fl)
    ensures Unclamped(fl, -e, -i, -d) == -Unclamped(fl, e, i, d)
  {
    hide Rounds, KP, KD, Times;
    Odd(fl, Times(KP(fl), e));
    TimesOdd(KP(fl), e);
    Odd(fl, Times(KD(fl), d));
    TimesOdd(KD(fl), d);
    var a := fl(Times(KP(fl), e)) + i;
    Odd(fl, a);
    assert -fl(Times(KP(fl), e)) + -i == -a;
    Odd(fl, fl(a) + fl(Times(KD(fl), d)));
    assert -fl(a) + -fl(Times(KD(fl), d)) == -(fl(a) + fl(Times(KD(fl), d)));
  }

  /** Mirrored input from a mirrored state gives the mirrored response. */
  lemma ResponseIsOdd(fl: Rounding, s: Pid<real>, theta: real, omega: real)
    requires Rounds(fl)
    ensures var (delta, t) := PidStep(fl, s, theta, omega);
            PidStep(fl, Negate(s), -theta, -omega) == (-delta, Negate(t))
  {
    hide Rounds, Integrated, Unclamped, Filtered, DELTA_MAX;
    Constants(fl);
    Odd(fl, theta - 0.0);
    var e := fl(theta - 0.0);
    var i, d := Integrated(fl, s.iState, e), Filtered(fl, s.dPrev, omega);
    Opposite(fl, s.dPrev, omega);
    IntegratedIsOdd(fl, s.iState, e);
    UnclampedIsOdd(fl, e, i, d);
    ClampIsOdd(Unclamped(fl, e, i, d), DELTA_MAX(fl));
  }

  /** A larger error never lowers the request. */
  lemma RequestIsMonotone(fl: Rounding, s: Pid<real>, theta1: real, theta2: real, omega: real)
    requires Rounds(fl) && theta1 <= theta2
    ensures PidStep(fl, s, theta1, omega).0 <= PidStep(fl, s, theta2, omega).0
  {
    hide Rounds, KP, KD, KI_DT, DELTA_MAX, Filtered, Times;
    Constants(fl);
    var e1, e2, d := fl(theta1 - 0.0), fl(theta2 - 0.0), Filtered(fl, s.dPrev, omega);
    Monotone(fl, theta1 - 0.0, theta2 - 0.0);
    TimesMonotone(KI_DT(fl), e1, e2);
    Monotone(fl, Times(KI_DT(fl), e1), Times(KI_DT(fl), e2));
    Monotone(fl, s.iState + fl(Times(KI_DT(fl), e1)), s.iState + fl(Times(KI_DT(fl), e2)));
    var i1, i2 := Integrated(fl, s.iState, e1), Integrated(fl, s.iState, e2);
    TimesMonotone(KP(fl), e1, e2);
    Monotone(fl, Times(KP(fl), e1), Times(KP(fl), e2));
    Monotone(fl, fl(Times(KP(fl), e1)) + i1, fl(Times(KP(fl), e2)) + i2);
    var w := fl(Times(KD(fl), d));
    Monotone(fl, fl(fl(Times(KP(fl), e1)) + i1) + w, fl(fl(Times(KP(fl), e2)) + i2) + w);
  }

  lemma FilteredMonotone(fl: Rounding, d: real, omega1: real, omega2: real)
    requires Rounds(fl) && omega1 <= omega2
    ensures Filtered(fl, d, omega1) <= Filtered(fl, d, omega2)
  {
    hide Rounds, BETA_D, Times;
    Constants(fl);
    var g1, g2 := fl(omega1 - d), fl(omega2 - d);
    Monotone(fl, omega1 - d, omega2 - d);
    TimesMonotone(BETA_D(fl), g1, g2);
    Monotone(fl, Times(BETA_D(fl), g1), Times(BETA_D(fl), g2));
    Monotone(fl, d + fl(Times(BETA_D(fl), g1)), d + fl(Times(BETA_D(fl), g2)));
  }

  /** A larger rate never lowers the request either: the derivative term damps. */
  lemma RateRaisesRequest(fl: Rounding, s: Pid<real>, theta: real, omega1: real, omega2: real)
    requires Rounds(fl) && omega1 <= omega2
    ensures PidStep(fl, s, theta, omega1).0 <= PidStep(fl, s, theta, omega2).0
  {
    hide Rounds, KP, KD, DELTA_MAX, Filtered, Integrated, Times;
    Constants(fl);
    FilteredMonotone(fl, s.dPrev, omega1, omega2);
    var e, d1, d2 := fl(theta - 0.0), Filtered(fl, s.dPrev, omega1), Filtered(fl, s.dPrev, omega2);
    var base := fl(fl(Times(KP(fl), e)) + Integrated(fl, s.iState, e));
    TimesMonotone(KD(fl), d1, d2);
    Monotone(fl, Times(KD(fl), d1), Times(KD(fl), d2));
    Monotone(fl, base + fl(Times(KD(fl), d1)), base + fl(Times(KD(fl), d2)));
  }

  /** In exact arithmetic, with neither clamp at work, the step is the controller of the design: gains 3.277, 7.68 per
      second and 0.309, a period of a five-hundredth of a second, a rate filtered by a third. */
  lemma UnsaturatedStep(s: Pid<real>, theta: real, omega: real)
    requires var i := s.iState + 7.68 / 500.0 * theta;
             var d := 2.0 / 3.0 * s.dPrev + omega / 3.0;
             -0.12 <= i <= 0.12 && -0.12 <= 3.277 * theta + i + 0.309 * d <= 0.12
    ensures var i := s.iState + 7.68 / 500.0 * theta;
            var d := 2.0 / 3.0 * s.dPrev + omega / 3.0;
            var delta := 3.277 * theta + i + 0.309 * d;
            PidStep(Exactly, s, theta, omega) == (delta, Pid(i, d, delta))
  {
    assert KI_DT(Exactly) == 7.68 / 500.0 && BETA_D(Exactly) == 1.0 / 3.0 && I_MAX(Exactly) == 0.12;
    var i := s.iState + 7.68 / 500.0 * theta;
    var d := 2.0 / 3.0 * s.dPrev + omega / 3.0;
    assert Times(KI_DT(Exactly), theta) == 7.68 / 500.0 * theta;
    assert Integrated(Exactly, s.iState, theta) == i;
    assert Times(BETA_D(Exactly), omega - s.dPrev) == (omega - s.dPrev) / 3.0;
    assert Filtered(Exactly, s.dPrev, omega) == d;
    assert Times(KP(Exactly), theta) == 3.277 * theta && Times(KD(Exactly), d) == 0.309 * d;
  }

  // Along episode runs

  function PolicyOf(fl: Rounding): Policy<real> {
    Policy(0.0, (theta, omega) => Abs(theta) <= fl(0.02) && Abs(omega) <= fl(0.02), theta => Abs(theta) > fl(0.30),
           (s, theta, omega) => PidStep(fl, s, theta, omega))
  }

  /** The controller stores what it requests, so that a coasting cycle repeats it. */
  lemma RequestsStored(fl: Rounding)
    ensures EpisodeMeaning.Stores(PolicyOf(fl))
  {
    hide Unclamped, Integrated, Filtered, DELTA_MAX;
  }

  /** The plant's actuator: hold on a missing command, clamp otherwise. */
  function ActuatorStep(fl: Rounding, applied: real, arriving: Option<real>): real {
    if arriving.None? then applied else Clamp(arriving.value, DELTA_MAX(fl))
  }

  /** What is observed are numbers the arithmetic can hold, and the rates stay within a bound. */
  predicate RatesWithin(fl: Rounding, inputs: seq<Inputs<real>>, bound: real) {
    forall i | 0 <= i < |inputs| :: RateWithin(fl, inputs[i], bound)
  }

  predicate RateWithin(fl: Rounding, i: Inputs<real>, bound: real) {
    i.isFresh && i.held.Some? ==> Held(fl, i.held.value.omega) && Abs(i.held.value.omega) <= bound
  }

  lemma FreshStep(fl: Rounding, s: Pid<real>, theta: real, omega: real, bound: real)
    requires Rounds(fl) && Bounded(fl, s) && Abs(s.dPrev) <= bound && Held(fl, omega) && Abs(omega) <= bound
    ensures var (delta, t) := PidStep(fl, s, theta, omega);
            Bounded(fl, t) && Abs(delta) <= DELTA_MAX(fl) && Abs(t.dPrev) <= bound
  {
    hide Rounds, Integrated, Unclamped, Filtered, DELTA_MAX;
    StepBounded(fl, s, theta, omega);
    RateBounded(fl, s.dPrev, omega, bound);
  }

  lemma StepKeepsBounds(fl: Rounding, s: State<real>, i: Inputs<real>, bound: real)
    requires Rounds(fl) && i.Admitted() && Bounded(fl, s.pid) && Abs(s.pid.dPrev) <= bound && RateWithin(fl, i, bound)
    ensures var out := Step(PolicyOf(fl), s, i);
            Bounded(fl, out.state.pid) && Abs(out.delta) <= DELTA_MAX(fl) && Abs(out.state.pid.dPrev) <= bound
  {
    hide Rounds, PidStep, CommandPhase, TerminalReason, DELTA_MAX;
    Constants(fl);
    if i.isFresh {
      FreshStep(fl, s.pid, i.held.value.theta, i.held.value.omega, bound);
    }
  }

  lemma StartBounded(fl: Rounding, autoArm: bool)
    requires Rounds(fl)
    ensures Bounded(fl, Initial(PolicyOf(fl), autoArm).pid) && Initial(PolicyOf(fl), autoArm).pid.dPrev == 0.0
  {
    hide Rounds, DELTA_MAX;
    Constants(fl);
    Odd(fl, 0.0);
  }

  lemma {:induction false} RunKeepsBounds(fl: Rounding, autoArm: bool, inputs: seq<Inputs<real>>, bound: real)
    requires Rounds(fl) && ProperRun(inputs) && RatesWithin(fl, inputs, bound) && bound >= 0.0
    ensures var t := After(PolicyOf(fl), Initial(PolicyOf(fl), autoArm), inputs);
            Bounded(fl, t.pid) && Abs(t.pid.dPrev) <= bound
    decreases |inputs|
  {
    hide Rounds, Step, Bounded, Initial, RateWithin;
    StartBounded(fl, autoArm);
    if inputs != [] {
      var n := |inputs| - 1;
      RunKeepsBounds(fl, autoArm, inputs[..n], bound);
      StepKeepsBounds(fl, After(PolicyOf(fl), Initial(PolicyOf(fl), autoArm), inputs[..n]), inputs[n], bound);
    }
  }

  /** In every cycle of every episode run, whether fresh, coasting, neutral or terminal, the request is within the
      actuator's limit, so the actuator's own clamp changes nothing; and the filtered rate stays within any bound on
      the rates observed. */
  lemma EveryRequestInLimits(fl: Rounding, autoArm: bool, inputs: seq<Inputs<real>>, bound: real, applied: real)
    requires Rounds(fl) && ProperRun(inputs) && inputs != [] && RatesWithin(fl, inputs, bound) && bound >= 0.0
    ensures var out := LastOutput(PolicyOf(fl), Initial(PolicyOf(fl), autoArm), inputs);
            && Abs(out.delta) <= DELTA_MAX(fl) && ActuatorStep(fl, applied, Some(out.delta)) == out.delta
            && Abs(out.state.pid.iState) <= I_MAX(fl) && Abs(out.state.pid.dPrev) <= bound
  {
    hide Rounds, Step, RateWithin, DELTA_MAX;
    var n := |inputs| - 1;
    RunKeepsBounds(fl, autoArm, inputs[..n], bound);
    StepKeepsBounds(fl, After(PolicyOf(fl), Initial(PolicyOf(fl), autoArm), inputs[..n]), inputs[n], bound);
  }
}
