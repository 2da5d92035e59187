/**
 The Glicko-2 calculator over the reals: the volatility solver (a bracket search followed by the
 Illinois variant of the secant rule) and the rating update around it.

 The platform's `exp`, `log` and `sqrt` enter as functions of which only the listed laws are used.
 */
module Glicko2 {
  import opened Wrappers
  import opened RealLemmas

  type Positive = x: real | x > 0.0 witness 1.0

  datatype MathLib = MathLib(exp: real -> Positive, ln: Positive -> real, sqrt: real -> real, pi: Positive)

  /** The product law of `exp`, for the one product that is needed. */
  ghost predicate HalvesMultiply(m: MathLib, x: real) { m.exp(x / 2.0) * m.exp(x / 2.0) == m.exp(x) }

  /** The graph of `exp` lies above each of its tangents. */
  ghost predicate AboveTangent(m: MathLib, x: real, y: real) { m.exp(y) >= m.exp(x) * (1.0 + (y - x)) }

  ghost predicate Lawful(m: MathLib) {
    && (forall x, y :: x < y ==> m.exp(x) < m.exp(y))
    && (forall x, y :: AboveTangent(m, x, y))
    && (forall x :: HalvesMultiply(m, x))
    && (forall y :: m.exp(m.ln(y)) == y)
    && (forall y :: y >= 0.0 ==> m.sqrt(y) >= 0.0 && m.sqrt(y) * m.sqrt(y) == y)
  }

  datatype Config = Config(tau: Positive, epsilon: real, maxIterations: int)

  datatype ConvergenceError = BracketNotFound(k: int) | TooManyIterations(iterations: int)

  const MAX_BRACKET_STEPS := 100

  // ---------------------------------------------------------------------------------------
  //  The bracket search, for any function
  // ---------------------------------------------------------------------------------------

  /** The `k`-th point the search looks at. */
  function Probe(a: real, tau: real, k: int): real { a - k as real * tau }

  predicate ProbeNegative(f: real -> real, a: real, tau: real, k: int) { f(Probe(a, tau, k)) < 0.0 }

  /** Probes 1, 2, ... up to the first that is not negative; gives up after `MAX_BRACKET_STEPS`. */
  method SearchBracket(f: real -> real, a: real, tau: real)
    returns (r: Result<real, ConvergenceError>, ghost steps: int)
    ensures r.Ok? ==>
            1 <= steps <= MAX_BRACKET_STEPS && r.value == Probe(a, tau, steps) && !ProbeNegative(f, a, tau, steps)
                      && forall j :: 1 <= j < steps ==> ProbeNegative(f, a, tau, j)
    ensures r.Err? ==> r.error == BracketNotFound(MAX_BRACKET_STEPS + 1)
    ensures r.Err? <==> forall j :: 1 <= j <= MAX_BRACKET_STEPS ==> ProbeNegative(f, a, tau, j)
  {
    var k := 1;
    while f(Probe(a, tau, k)) < 0.0
      invariant 1 <= k <= MAX_BRACKET_STEPS
      invariant forall j :: 1 <= j < k ==> ProbeNegative(f, a, tau, j)
      decreases MAX_BRACKET_STEPS - k
    {
      assert ProbeNegative(f, a, tau, k);
      k := k + 1;
      if k > MAX_BRACKET_STEPS {
        return Err(BracketNotFound(k)), k;
      }
    }
    assert !ProbeNegative(f, a, tau, k);
    return Ok(Probe(a, tau, k)), k;
  }

  // ---------------------------------------------------------------------------------------
  //  The Illinois iteration, for any function
  // ---------------------------------------------------------------------------------------

  /** The variables of the loop. `fA` is the value at `A`, possibly halved several times. */
  datatype Interval = Interval(A: real, B: real, fA: real, fB: real)

  function Abs(x: real): real { if x < 0.0 then -x else x }

  predicate Within(x: real, p: real, q: real) { p <= x <= q || q <= x <= p }

  predicate SameSign(x: real, y: real) { (x > 0.0 <==> y > 0.0) && (x < 0.0 <==> y < 0.0) }

  predicate OppositeOrZero(x: real, y: real) { (x <= 0.0 && y >= 0.0) || (x >= 0.0 && y <= 0.0) }

  /** The loop invariant: the ends have values of opposite or zero sign, and the next secant exists. */
  predicate Bracketing(f: real -> real, s: Interval) {
    && s.fB == f(s.B) && SameSign(s.fA, f(s.A))
    && OppositeOrZero(s.fA, s.fB)
    && (s.A != s.B ==> s.fA != 0.0)
  }

  predicate Inside(s: Interval, t: Interval) { Within(s.A, t.A, t.B) && Within(s.B, t.A, t.B) }

  function Secant(s: Interval): real
    requires s.fB != s.fA
  {
    s.A + (s.A - s.B) * s.fA / (s.fB - s.fA)
  }

  function IllinoisStep(f: real -> real, s: Interval): Interval
    requires s.fB != s.fA
  {
    var C := Secant(s);
    var fC := f(C);
    if fC * s.fB <= 0.0 then Interval(s.B, C, s.fB, fC) else Interval(s.A, C, s.fA / 2.0, fC)
  }

  /** `n` steps of the iteration; an interval without a secant stays as it is. */
  function IllinoisSteps(f: real -> real, s: Interval, n: nat): Interval {
    if n == 0 then s
    else
      var before := IllinoisSteps(f, s, n - 1);
      if before.fB != before.fA then IllinoisStep(f, before) else before
  }

  predicate TooLong(s: Interval, epsilon: real) { Abs(s.B - s.A) > epsilon }

  function FirstOf(f: real -> real, A: real, B: real): Interval { Interval(A, B, f(A), f(B)) }

  /** The number of steps that may be taken. */
  function Allowed(maxIterations: int): nat { if maxIterations < 0 then 0 else maxIterations }

  /** The interval is still too long after each of the steps that may be taken. */
  ghost predicate IterationFails(f: real -> real, A: real, B: real, epsilon: real, maxIterations: int) {
    LongUpTo(f, FirstOf(f, A, B), epsilon, Allowed(maxIterations) + 1)
  }

  ghost predicate LongUpTo(f: real -> real, s: Interval, epsilon: real, count: nat) {
    forall n: nat {:trigger TooLong(IllinoisSteps(f, s, n), epsilon)} :: n < count ==>
        TooLong(IllinoisSteps(f, s, n), epsilon)
  }

  /** With `t` between 0 and 1, `A + (B - A) t` lies between `A` and `B`. */
  lemma Interpolation(A: real, B: real, t: real)
    requires 0.0 <= t <= 1.0
    ensures Within(A + (B - A) * t, A, B)
  {
    if A <= B {
      ProductMonotone(0.0, B - A, 0.0, t);
      ProductMonotone(B - A, B - A, t, 1.0);
    } else {
      ProductMonotone(0.0, A - B, 0.0, t);
      ProductMonotone(A - B, A - B, t, 1.0);
      assert (B - A) * t == -((A - B) * t);
    }
  }

  lemma Share(fA: real, fB: real)
    requires OppositeOrZero(fA, fB) && fA != 0.0
    ensures fA != fB
    ensures 0.0 <= fA / (fA - fB) <= 1.0
    ensures fB == 0.0 ==> fA / (fA - fB) == 1.0
  {
    var t := fA / (fA - fB);
    assert t * (fA - fB) == fA;
    if fA > 0.0 {
      QuotientSign(fA, fA - fB);
      ProductSign(fA - fB, 1.0 - t);
      assert (fA - fB) * (1.0 - t) == -fB;
    } else {
      assert t * (fB - fA) == -fA;
      ProductSign(fB - fA, t);
      ProductSign(fB - fA, 1.0 - t);
      assert (fB - fA) * (1.0 - t) == fB;
    }
  }

  lemma SameFactor(x: real, y: real, z: real)
    requires y == z
    ensures x * y == x * z
  {
  }

  lemma AssociateProduct(x: real, y: real, z: real)
    ensures x * y * z == x * (y * z)
  {
  }

  lemma NegateProduct(x: real, y: real)
    ensures x * -y == -(x * y)
    ensures -x * y == -(x * y)
  {
  }

  /** The step of the secant is the share `t` of the way from `A` to `B`. */
  lemma SecantStep(A: real, B: real, fA: real, fB: real, t: real)
    requires fA != fB && t * (fA - fB) == fA
    ensures (A - B) * fA / (fB - fA) == (B - A) * t
  {
    var gap, divisor := B - A, fB - fA;
    SameFactor(t, fA - fB, -divisor);
    NegateProduct(t, divisor);
    assert t * divisor == -fA;
    AssociateProduct(gap, t, divisor);
    SameFactor(gap, t * divisor, -fA);
    NegateProduct(gap, fA);
    assert A - B == -gap;
    QuotientIs((A - B) * fA, divisor, gap * t);
  }

  lemma SecantWithin(s: Interval)
    requires OppositeOrZero(s.fA, s.fB) && s.fA != 0.0
    ensures s.fA != s.fB && Within(Secant(s), s.A, s.B)
    ensures s.fB == 0.0 ==> Secant(s) == s.B
  {
    Share(s.fA, s.fB);
    var t := s.fA / (s.fA - s.fB);
    ShareOf(s.fA, s.fA - s.fB);
    SecantStep(s.A, s.B, s.fA, s.fB, t);
    assert Secant(s) == s.A + (s.B - s.A) * t;
    Interpolation(s.A, s.B, t);
    if s.fB == 0.0 { SameFactor(s.B - s.A, t, 1.0); }
  }

  lemma ShareOf(x: real, y: real)
    requires y != 0.0
    ensures x / y * y == x
  {
  }

  /** Each step keeps the invariant and its new interval lies inside the old one. */
  lemma StepKeepsBracket(f: real -> real, s: Interval)
    requires Bracketing(f, s) && s.A != s.B
    ensures s.fB != s.fA
    ensures Bracketing(f, IllinoisStep(f, s))
    ensures Inside(IllinoisStep(f, s), s)
  {
    SecantWithin(s);
    var C := Secant(s);
    var fC := f(C);
    if s.fB > 0.0 {
      ProductSign(s.fB, fC);
      assert s.fB * fC == fC * s.fB;
    } else if s.fB < 0.0 {
      ProductSign(-s.fB, fC);
      assert -s.fB * fC == -(fC * s.fB);
    }
  }

  lemma InsideTransitive(s: Interval, t: Interval, u: Interval)
    requires Inside(s, t) && Inside(t, u)
    ensures Inside(s, u)
  {
  }

  /** The variables of the loop after `n` steps. */
  ghost predicate OnTheWay(f: real -> real, first: Interval, s: Interval, epsilon: real, n: nat) {
    && Bracketing(f, s) && Inside(s, first)
    && s == IllinoisSteps(f, first, n) && LongUpTo(f, first, epsilon, n)
  }

  lemma OneStepFurther(f: real -> real, first: Interval, s: Interval, epsilon: real, n: nat)
    requires OnTheWay(f, first, s, epsilon, n) && TooLong(s, epsilon) && epsilon >= 0.0
    ensures s.fB != s.fA
    ensures OnTheWay(f, first, IllinoisStep(f, s), epsilon, n + 1)
  {
    StepKeepsBracket(f, s);
    InsideTransitive(IllinoisStep(f, s), s, first);
    assert IllinoisSteps(f, first, n + 1) == IllinoisStep(f, s);
    forall k: nat | k < n + 1 ensures TooLong(IllinoisSteps(f, first, k), epsilon) { }
  }

  /** The body of the loop: the secant point replaces an end, and a stuck end loses half its weight. */
  method Shorten(f: real -> real, A: real, B: real, fA: real, fB: real)
    returns (A': real, B': real, fA': real, fB': real)
    requires fB != fA
    ensures Interval(A', B', fA', fB') == IllinoisStep(f, Interval(A, B, fA, fB))
  {
    A', B', fA', fB' := A, B, fA, fB;
    var C := Secant(Interval(A, B, fA, fB));
    var fC := f(C);
    if fC * fB <= 0.0 {
      A' := B;
      fA' := fB;
    } else {
      fA' := fA / 2.0;
    }
    B' := C;
    fB' := fC;
  }

  /**
   Runs the iteration until the interval is no longer than `epsilon`. No division by zero can
   occur, and the interval returned still brackets a sign change inside the first interval. It
   fails exactly if the interval is too long after each of the allowed steps, and otherwise stops
   at the first step after which it is not.
   */
  method Illinois(f: real -> real, A0: real, B0: real, epsilon: real, maxIterations: int)
    returns (r: Result<real, ConvergenceError>, ghost last: Interval, ghost steps: nat)
    requires Bracketing(f, FirstOf(f, A0, B0)) && epsilon >= 0.0
    ensures Bracketing(f, last) && Inside(last, FirstOf(f, A0, B0))
    ensures last == IllinoisSteps(f, FirstOf(f, A0, B0), steps) && steps <= Allowed(maxIterations)
    ensures LongUpTo(f, FirstOf(f, A0, B0), epsilon, steps)
    ensures r.Ok? ==> r.value == last.A && Within(r.value, A0, B0) && !TooLong(last, epsilon)
    ensures r.Err? <==> IterationFails(f, A0, B0, epsilon, maxIterations)
    ensures r.Err? ==> r.error == TooManyIterations(Allowed(maxIterations) + 1)
  {
    var A, B := A0, B0;
    var fA, fB := f(A), f(B);
    var iterations := 0;
    ghost var first := FirstOf(f, A0, B0);
    while Abs(B - A) > epsilon
      invariant 0 <= iterations <= Allowed(maxIterations)
      invariant OnTheWay(f, first, Interval(A, B, fA, fB), epsilon, iterations)
      decreases maxIterations - iterations
    {
      iterations := iterations + 1;
      var s := Interval(A, B, fA, fB);
      OneStepFurther(f, first, s, epsilon, iterations - 1);
      if iterations > maxIterations {
        return Err(TooManyIterations(iterations)), s, iterations - 1;
      }
      A, B, fA, fB := Shorten(f, A, B, fA, fB);
    }
    assert !TooLong(IllinoisSteps(f, first, iterations), epsilon);
    return Ok(A), Interval(A, B, fA, fB), iterations;
  }

  // ---------------------------------------------------------------------------------------
  //  The volatility equation
  // ---------------------------------------------------------------------------------------

  /** The data of one equation: squared improvement, squared deviation, variance, volatility. */
  datatype EquationData = Equation(deltaSq: real, phiSq: real, v: Positive, sigma: Positive, tau: Positive)

  type Equation = e: EquationData | e.deltaSq >= 0.0 && e.phiSq >= 0.0 witness Equation(0.0, 0.0, 1.0, 1.0, 1.0)

  function PositiveProduct(x: Positive, y: Positive): Positive {
    ProductSign(x, y);
    x * y
  }

  function Square(x: Positive): Positive { PositiveProduct(x, x) }

  function Start(m: MathLib, e: Equation): real { m.ln(Square(e.sigma)) }

  /** The part of `f` that the results decide. */
  function Pull(e: Equation, ex: Positive): real {
    PullProduct(e, ex) / PullScale(e, ex)
  }

  function PullProduct(e: Equation, ex: Positive): real { ex * (e.deltaSq - e.phiSq - e.v - ex) }

  function PullScale(e: Equation, ex: Positive): Positive {
    var denom := e.phiSq + e.v + ex;
    ProductSign(2.0 * denom, denom);
    2.0 * denom * denom
  }

  /** The part of `f` that pulls back to the old volatility. */
  function Drift(e: Equation, dx: real): real { dx / Square(e.tau) }

  function F(m: MathLib, e: Equation): real -> real {
    x => Pull(e, m.exp(x)) - Drift(e, x - Start(m, e))
  }

  lemma PullSign(e: Equation, ex: Positive)
    ensures Pull(e, ex) > 0.0 <==> ex < e.deltaSq - e.phiSq - e.v
    ensures Pull(e, ex) < 0.0 <==> ex > e.deltaSq - e.phiSq - e.v
  {
    var rest := e.deltaSq - e.phiSq - e.v - ex;
    var scale := PullScale(e, ex);
    ProductSign(ex, rest);
    QuotientSign(PullProduct(e, ex), scale);
  }

  lemma DriftSign(e: Equation, dx: real)
    ensures Drift(e, dx) > 0.0 <==> dx > 0.0
    ensures Drift(e, dx) < 0.0 <==> dx < 0.0
  {
    QuotientSign(dx, Square(e.tau));
  }

  lemma DistributeTwo(x: real, y: real, z: real)
    ensures (x + y) * z == x * z + y * z
    ensures x * (y - z) == x * y - x * z
  {
  }

  /** With `denom` for `d + ex`, the pull and a half over a common denominator. */
  lemma PullNumerator(ex: real, deltaSq: real, d: real, denom: real)
    requires denom == d + ex
    ensures ex * (deltaSq - denom) + denom * denom == ex * deltaSq + d * denom
  {
    DistributeTwo(ex, deltaSq, denom);
    DistributeTwo(d, ex, denom);
  }

  lemma NonNegativeProduct(x: real, y: real)
    requires x >= 0.0 && y >= 0.0
    ensures x * y >= 0.0
  {
  }

  /** A quotient whose numerator is above minus half the scale is above minus one half. */
  lemma QuotientAboveHalf(num: real, square: real, scale: real)
    requires square > 0.0 && scale == 2.0 * square && num + square > 0.0
    ensures num / scale > -0.5
  {
    QuotientMonotone(-0.5 * scale, num, scale);
    QuotientIs(-0.5 * scale, scale, -0.5);
  }

  lemma ScaleIsTwice(denom: real)
    ensures 2.0 * denom * denom == 2.0 * (denom * denom)
  {
  }

  /** However strongly the results pull down, they pull by less than one half. */
  lemma PullAboveHalf(e: Equation, ex: Positive)
    ensures Pull(e, ex) > -0.5
  {
    var d := e.phiSq + e.v;
    var denom := d + ex;
    PullNumerator(ex, e.deltaSq, d, denom);
    NonNegativeProduct(ex, e.deltaSq);
    ProductSign(d, denom);
    ProductSign(denom, denom);
    ScaleIsTwice(denom);
    assert PullScale(e, ex) == 2.0 * (denom * denom);
    SameFactor(ex, e.deltaSq - e.phiSq - e.v - ex, e.deltaSq - denom);
    QuotientAboveHalf(PullProduct(e, ex), denom * denom, PullScale(e, ex));
  }

  lemma ProbeDrift(e: Equation, k: int)
    ensures Drift(e, -(k as real * e.tau)) == -(k as real / e.tau)
  {
    var kr, tau := k as real, e.tau;
    var q := kr / tau;
    assert q * tau == kr;
    assert -q * (tau * tau) == -((q * tau) * tau) == -(kr * tau);
    QuotientIs(-(kr * tau), Square(tau), -q);
  }

  /** At probe `k` the function exceeds k/tau - 1/2. */
  lemma ProbeValue(m: MathLib, e: Equation, k: int)
    ensures var x := Probe(Start(m, e), e.tau, k);
            F(m, e)(x) == Pull(e, m.exp(x)) + k as real / e.tau > k as real / e.tau - 0.5
  {
    var x := Probe(Start(m, e), e.tau, k);
    PullAboveHalf(e, m.exp(x));
    ProbeDrift(e, k);
    assert x - Start(m, e) == -(k as real * e.tau);
  }

  /** So from `k >= tau / 2` on the search must accept. */
  lemma ProbeAccepted(m: MathLib, e: Equation, k: int)
    requires e.tau <= 2.0 * k as real
    ensures !ProbeNegative(F(m, e), Start(m, e), e.tau, k)
  {
    ProbeValue(m, e, k);
    var q := k as real / e.tau;
    assert q * e.tau == k as real;
    ProductSign(e.tau, q - 0.5);
    assert e.tau * (q - 0.5) == k as real - 0.5 * e.tau;
  }

  /** The case split of the solver: whether the results surprise more than chance explains. */
  predicate Surprising(e: Equation) { e.deltaSq > e.phiSq + e.v }

  /** The search runs and gives up on this equation. */
  ghost predicate SearchFails(m: MathLib, e: Equation) {
    !Surprising(e) && forall j :: 1 <= j <= MAX_BRACKET_STEPS ==> ProbeNegative(F(m, e), Start(m, e), e.tau, j)
  }

  lemma FarGap(tau: real)
    requires tau > 200.0
    ensures 0.5 - 100.0 / tau > 0.0
  {
    QuotientMonotone(100.0, tau * 0.5, tau);
    QuotientIs(tau * 0.5, tau, 0.5);
  }

  // ---------------------------------------------------------------------------------------
  //  When the first probe is accepted, whatever the system constant
  // ---------------------------------------------------------------------------------------

  /** The results pull by no more than `ex` over twice the known uncertainty. */
  lemma PullAtLeast(e: Equation, ex: Positive)
    ensures Pull(e, ex) >= -(ex / (2.0 * (e.phiSq + e.v)))
  {
    var d := e.phiSq + e.v;
    var denom := d + ex;
    var z := ex / (2.0 * d);
    ShareOf(ex, 2.0 * d);
    QuotientSign(ex, 2.0 * d);
    PullBelowScale(ex, e.deltaSq, d, denom, z);
    SameFactor(ex, e.deltaSq - e.phiSq - e.v - ex, e.deltaSq - denom);
    ScaleIsTwice(denom);
    assert PullScale(e, ex) == 2.0 * (denom * denom);
    QuotientAtLeast(PullProduct(e, ex), PullScale(e, ex), -z);
  }

  lemma PullBelowScale(ex: real, deltaSq: real, d: real, denom: real, z: real)
    requires ex > 0.0 && deltaSq >= 0.0 && d > 0.0 && denom == d + ex && z > 0.0 && z * (2.0 * d) == ex
    ensures ex * (deltaSq - denom) >= -z * (2.0 * (denom * denom))
  {
    DistributeTwo(ex, deltaSq, denom);
    NonNegativeProduct(ex, deltaSq);
    var w := z * (2.0 * denom);
    ProductSign(z, 2.0 * ex);
    assert w == z * (2.0 * d) + z * (2.0 * ex);
    assert w >= ex;
    NonNegativeProduct(w - ex, denom);
    DistributeTwo(w, -ex, denom);
    NegateProduct(ex, denom);
    AssociateProduct(z, 2.0 * denom, denom);
    AssociateProduct(2.0, denom, denom);
    NegateProduct(z, 2.0 * (denom * denom));
    assert w * denom == z * (2.0 * (denom * denom));
  }

  lemma QuotientAtLeast(num: real, scale: real, z: real)
    requires scale > 0.0 && num >= z * scale
    ensures num / scale >= z
  {
    if num > z * scale { QuotientMonotone(z * scale, num, scale); }
    QuotientIs(z * scale, scale, z);
  }

  /** Going down by `tau` divides `exp` by at least `1 + tau`. */
  lemma FirstProbeSmall(m: MathLib, e: Equation)
    requires Lawful(m) && Square(e.sigma) <= 2.0 * (e.phiSq + e.v)
    ensures m.exp(Probe(Start(m, e), e.tau, 1)) * (1.0 + e.tau) <= 2.0 * (e.phiSq + e.v)
  {
    var a, x := Start(m, e), Probe(Start(m, e), e.tau, 1);
    assert AboveTangent(m, x, a);
    assert x == a - e.tau;
    SameFactor(m.exp(x), 1.0 + (a - x), 1.0 + e.tau);
  }

  /**
   If the old volatility, squared, is at most twice the known uncertainty, the very first probe is
   accepted, for every system constant.
   */
  lemma FirstProbeAccepted(m: MathLib, e: Equation)
    requires Lawful(m) && Square(e.sigma) <= 2.0 * (e.phiSq + e.v)
    ensures !ProbeNegative(F(m, e), Start(m, e), e.tau, 1) && !SearchFails(m, e)
  {
    FirstProbeValue(m, e);
    OneAccepts(m, e);
  }

  /** A single accepted probe is enough. */
  lemma OneAccepts(m: MathLib, e: Equation)
    requires !ProbeNegative(F(m, e), Start(m, e), e.tau, 1)
    ensures !SearchFails(m, e)
  {
  }

  lemma FirstProbeValue(m: MathLib, e: Equation)
    requires Lawful(m) && Square(e.sigma) <= 2.0 * (e.phiSq + e.v)
    ensures !ProbeNegative(F(m, e), Start(m, e), e.tau, 1)
  {
    PullAtFirstProbe(m, e);
    ProbeValue(m, e, 1);
  }

  lemma PullAtFirstProbe(m: MathLib, e: Equation)
    requires Lawful(m) && Square(e.sigma) <= 2.0 * (e.phiSq + e.v)
    ensures Pull(e, m.exp(Probe(Start(m, e), e.tau, 1))) + 1.0 / e.tau >= 0.0
  {
    FirstProbeSmall(m, e);
    SmallProbePasses(e, m.exp(Probe(Start(m, e), e.tau, 1)));
  }

  /** What the deviation adds at the first probe outweighs the results' pull if `exp` is small there. */
  lemma SmallProbePasses(e: Equation, ex: Positive)
    requires ex * (1.0 + e.tau) <= 2.0 * (e.phiSq + e.v)
    ensures Pull(e, ex) + 1.0 / e.tau >= 0.0
  {
    PullAtLeast(e, ex);
    OneOverTau(ex, 2.0 * (e.phiSq + e.v), e.tau);
  }

  lemma OnePlus(ex: real, tau: real)
    ensures ex * (1.0 + tau) == ex + tau * ex
  {
  }

  lemma OneOverTau(ex: real, c: real, tau: real)
    requires ex > 0.0 && c > 0.0 && tau > 0.0 && ex * (1.0 + tau) <= c
    ensures ex / c <= 1.0 / tau
  {
    var z := ex / c;
    ShareOf(ex, c);
    OnePlus(ex, tau);
    if z * tau > 1.0 {
      ProductSign(c, z * tau - 1.0);
      DistributeTwo(c, z * tau, 1.0);
      AssociateProduct(c, z, tau);
      assert c * (z * tau) == tau * ex;
    }
    QuotientAtLeast(1.0, tau, z);
  }

  // ---------------------------------------------------------------------------------------
  //  Data that exhaust the search
  // ---------------------------------------------------------------------------------------

  /** An equation whose hundred probes are all negative, for a system constant above 200. */
  function HugeTauEquation(m: MathLib, tau: real): Equation
    requires tau > 200.0
  {
    var far := m.exp(Probe(m.ln(Square(1.0)), tau, 100));
    FarGap(tau);
    ProductSign(far, 0.5 - 100.0 / tau);
    Equation(0.0, 0.0, far * (0.5 - 100.0 / tau), 1.0, tau)
  }

  lemma PullAlone(e: Equation, ex: Positive)
    requires e.deltaSq == 0.0 && e.phiSq == 0.0
    ensures Pull(e, ex) == -(ex / (2.0 * (e.v + ex)))
  {
    var denom := e.v + ex;
    var z := ex / (2.0 * denom);
    assert z * (2.0 * denom) == ex;
    assert -z * PullScale(e, ex) == -(z * (2.0 * denom)) * denom == -(ex * denom);
    assert PullProduct(e, ex) == -(ex * denom);
    QuotientIs(-(ex * denom), PullScale(e, ex), -z);
  }

  lemma BelowMinus(ex: real, d: real, q: real)
    requires ex > 0.0 && d > 0.0
    requires ex * (0.5 - q) > d * q
    ensures -(ex / (2.0 * (d + ex))) + q < 0.0
  {
    var c := 2.0 * (d + ex);
    var z := ex / c;
    assert z * c == ex;
    assert ex * (0.5 - q) == 0.5 * ex - ex * q;
    assert q * c == 2.0 * (d * q) + 2.0 * (ex * q);
    ProductSign(c, z - q);
    assert c * (z - q) == ex - q * c;
  }

  lemma ScaleOrder(x: real, y: real, tau: real)
    requires x < y && tau > 0.0
    ensures x * tau < y * tau
  {
    var gap := y - x;
    ProductSign(gap, tau);
    DistributeTwo(x, gap, tau);
    assert x + gap == y;
  }

  lemma ProbeBelow(a: real, tau: Positive, j: int, k: int)
    requires j < k
    ensures Probe(a, tau, k) < Probe(a, tau, j)
  {
    ScaleOrder(j as real, k as real, tau);
    var near, far := j as real * tau, k as real * tau;
    assert near < far;
    assert Probe(a, tau, j) == a - near;
    assert Probe(a, tau, k) == a - far;
  }

  lemma ProbesDescend(m: MathLib, a: real, tau: Positive, j: int, k: int)
    requires Lawful(m) && j <= k
    ensures m.exp(Probe(a, tau, k)) <= m.exp(Probe(a, tau, j))
  {
    if j < k { ProbeBelow(a, tau, j, k); }
  }

  /** The inequality behind the example: the probes fall below -q plus what k/tau adds. */
  lemma HugeTauInequality(far: real, ex: real, tau: real, kr: real)
    requires 0.0 < far <= ex && tau > 200.0 && 1.0 <= kr <= 100.0
    ensures var d := far * (0.5 - 100.0 / tau);
            d > 0.0 && -(ex / (2.0 * (d + ex))) + kr / tau < 0.0
  {
    FarGap(tau);
    var gap, q := 0.5 - 100.0 / tau, kr / tau;
    var d := far * gap;
    ProductSign(far, gap);
    QuotientSign(kr, tau);
    if kr < 100.0 { QuotientMonotone(kr, 100.0, tau); }
    ProductMonotone(far, ex, gap, 0.5 - q);
    ProductSign(d, 1.0 - q);
    assert d * (1.0 - q) == d - d * q;
    BelowMinus(ex, d, q);
  }

  lemma HugeTauNegative(m: MathLib, e: Equation, far: real, k: int)
    requires 1 <= k <= MAX_BRACKET_STEPS && e.tau > 200.0 && e.deltaSq == 0.0 && e.phiSq == 0.0
    requires 0.0 < far <= m.exp(Probe(Start(m, e), e.tau, k))
    requires e.v == far * (0.5 - 100.0 / e.tau)
    ensures ProbeNegative(F(m, e), Start(m, e), e.tau, k)
  {
    var ex := m.exp(Probe(Start(m, e), e.tau, k));
    HugeTauInequality(far, ex, e.tau, k as real);
    PullAlone(e, ex);
    ProbeValue(m, e, k);
  }

  lemma HugeTauProbe(m: MathLib, tau: real, j: int)
    requires Lawful(m) && tau > 200.0 && 1 <= j <= MAX_BRACKET_STEPS
    ensures var e := HugeTauEquation(m, tau);
            ProbeNegative(F(m, e), Start(m, e), tau, j)
  {
    var a := m.ln(Square(1.0));
    ProbesDescend(m, a, tau, j, 100);
    HugeTauNegative(m, HugeTauEquation(m, tau), m.exp(Probe(a, tau, 100)), j);
  }

  /**
   The step-limit error of the search is unreachable exactly for the system constants up to 200:
   up to there no equation triggers it, above it some equation does.
   */
  lemma SearchFailsIffTauHuge(m: MathLib, tau: Positive)
    requires Lawful(m)
    ensures (exists e: Equation :: e.tau == tau && SearchFails(m, e)) <==> tau > 200.0
  {
    if tau > 200.0 {
      var e := HugeTauEquation(m, tau);
      forall j | 1 <= j <= MAX_BRACKET_STEPS ensures ProbeNegative(F(m, e), Start(m, e), e.tau, j) {
        HugeTauProbe(m, tau, j);
      }
      assert e.tau == tau && SearchFails(m, e);
    } else {
      forall e: Equation | e.tau == tau ensures !SearchFails(m, e) {
        ProbeAccepted(m, e, 100);
      }
    }
  }

  // ---------------------------------------------------------------------------------------
  //  The solver
  // ---------------------------------------------------------------------------------------

  /** The first interval of the iteration already brackets a sign change. */
  lemma SurprisingBracket(m: MathLib, e: Equation)
    requires Lawful(m) && Surprising(e)
    ensures var f, A, B := F(m, e), Start(m, e), m.ln(e.deltaSq - e.phiSq - e.v);
            Bracketing(f, Interval(A, B, f(A), f(B)))
  {
    var A, B := Start(m, e), m.ln(e.deltaSq - e.phiSq - e.v);
    PullSign(e, m.exp(A));
    PullSign(e, m.exp(B));
    DriftSign(e, A - A);
    DriftSign(e, B - A);
    if A < B { assert m.exp(A) < m.exp(B); } else if B < A { assert m.exp(B) < m.exp(A); }
  }

  lemma SearchedBracket(m: MathLib, e: Equation, k: int)
    requires Lawful(m) && !Surprising(e)
    requires !ProbeNegative(F(m, e), Start(m, e), e.tau, k)
    ensures var f, A, B := F(m, e), Start(m, e), Probe(Start(m, e), e.tau, k);
            Bracketing(f, Interval(A, B, f(A), f(B)))
  {
    var A := Start(m, e);
    PullSign(e, m.exp(A));
    DriftSign(e, A - A);
  }

  /** What a volatility returned by the solver is: one end of a short interval with a sign change. */
  ghost predicate IsVolatility(m: MathLib, e: Equation, epsilon: real, s: Interval, sigmaPrime: real) {
    && Bracketing(F(m, e), s) && Abs(s.B - s.A) <= epsilon
    && sigmaPrime == m.exp(s.A / 2.0)
    && (if Surprising(e)
        then Within(s.A, Start(m, e), m.ln(e.deltaSq - e.phiSq - e.v))
        else exists k :: 1 <= k <= MAX_BRACKET_STEPS && Within(s.A, Start(m, e), Probe(Start(m, e), e.tau, k))
                         && forall j :: 1 <= j < k ==> ProbeNegative(F(m, e), Start(m, e), e.tau, j))
  }

  /** The solver up to its loop: the other end of the first interval, or the search error. */
  method FirstInterval(m: MathLib, e: Equation) returns (r: Result<real, ConvergenceError>, ghost steps: int)
    requires Lawful(m)
    ensures r.Ok? ==> var f, A := F(m, e), Start(m, e); Bracketing(f, Interval(A, r.value, f(A), f(r.value)))
    ensures r.Ok? ==> FirstEnd(m, e, r.value, steps)
    ensures r.Err? ==> r.error.BracketNotFound?
    ensures r.Err? <==> SearchFails(m, e)
  {
    if e.deltaSq > e.phiSq + e.v {
      SurprisingBracket(m, e);
      return Ok(m.ln(e.deltaSq - e.phiSq - e.v)), 0;
    }
    r, steps := SearchBracket(F(m, e), Start(m, e), e.tau);
    if r.Ok? { SearchedBracket(m, e, steps); }
  }

  /** What the first stage guarantees of the other end of the first interval. */
  ghost predicate FirstEnd(m: MathLib, e: Equation, B0: real, steps: int) {
    if Surprising(e) then B0 == m.ln(e.deltaSq - e.phiSq - e.v)
    else 1 <= steps <= MAX_BRACKET_STEPS && B0 == Probe(Start(m, e), e.tau, steps)
         && !ProbeNegative(F(m, e), Start(m, e), e.tau, steps)
         && forall j :: 1 <= j < steps ==> ProbeNegative(F(m, e), Start(m, e), e.tau, j)
  }

  lemma FoundIsVolatility(
    m: MathLib, e: Equation, f: real -> real, epsilon: real, s: Interval, B0: real, steps: int, sigmaPrime: real)
    requires sigmaPrime == m.exp(s.A / 2.0)
    requires Lawful(m) && f == F(m, e) && Bracketing(f, s) && Abs(s.B - s.A) <= epsilon
    requires Within(s.A, Start(m, e), B0) && FirstEnd(m, e, B0, steps)
    ensures IsVolatility(m, e, epsilon, s, sigmaPrime)
  {
  }

  lemma FirstEndUnique(m: MathLib, e: Equation, B0: real, steps: int, other: real, otherSteps: int)
    requires FirstEnd(m, e, B0, steps) && FirstEnd(m, e, other, otherSteps)
    ensures B0 == other
  {
    assert !Surprising(e) ==> steps <= otherSteps && otherSteps <= steps;
  }

  /** From the first interval of the equation, the allowed steps do not shorten it enough. */
  ghost predicate LimitReached(m: MathLib, c: Config, e: Equation) {
    exists B0, steps :: FirstEnd(m, e, B0, steps)
        && IterationFails(F(m, e), Start(m, e), B0, c.epsilon, c.maxIterations)
  }

  /** The solver; each of its two errors is raised exactly when its stage fails. */
  method SolveVolatility(m: MathLib, c: Config, e: Equation)
    returns (r: Result<real, ConvergenceError>, ghost last: Interval)
    requires Lawful(m) && c.epsilon >= 0.0
    ensures r.Ok? ==> IsVolatility(m, e, c.epsilon, last, r.value)
    ensures r.Err? && r.error.BracketNotFound? <==> SearchFails(m, e)
    ensures r.Err? && r.error.TooManyIterations? <==> !SearchFails(m, e) && LimitReached(m, c, e)
  {
    last := Interval(0.0, 0.0, 0.0, 0.0);
    ghost var steps;
    var first;
    first, steps := FirstInterval(m, e);
    if first.Err? { return Err(first.error), last; }
    LimitIff(m, c, e, F(m, e), first.value, steps);
    r, last := Iterate(m, c, e, F(m, e), first.value, steps);
  }

  method Iterate(m: MathLib, c: Config, e: Equation, f: real -> real, B0: real, ghost steps: int)
    returns (r: Result<real, ConvergenceError>, ghost last: Interval)
    requires Lawful(m) && c.epsilon >= 0.0 && f == F(m, e)
    requires Bracketing(f, FirstOf(f, Start(m, e), B0))
    requires FirstEnd(m, e, B0, steps)
    ensures r.Ok? ==> IsVolatility(m, e, c.epsilon, last, r.value)
    ensures r.Err? ==> r.error == TooManyIterations(Allowed(c.maxIterations) + 1)
    ensures r.Err? <==> IterationFails(f, Start(m, e), B0, c.epsilon, c.maxIterations)
  {
    r, last := IterateFrom(m, f, Start(m, e), B0, c.epsilon, c.maxIterations);
    if r.Ok? { FoundIsVolatility(m, e, f, c.epsilon, last, B0, steps, r.value); }
  }

  /** The loop and the last line: from the logarithm of the square to the volatility. */
  method IterateFrom(m: MathLib, f: real -> real, A0: real, B0: real, epsilon: real, maxIterations: int)
    returns (r: Result<real, ConvergenceError>, ghost last: Interval)
    requires Bracketing(f, FirstOf(f, A0, B0)) && epsilon >= 0.0
    ensures r.Ok? ==> r.value == m.exp(last.A / 2.0) && Within(last.A, A0, B0)
    ensures r.Ok? ==> Bracketing(f, last) && Abs(last.B - last.A) <= epsilon
    ensures r.Err? ==> r.error == TooManyIterations(Allowed(maxIterations) + 1)
    ensures r.Err? <==> IterationFails(f, A0, B0, epsilon, maxIterations)
  {
    var found;
    ghost var taken;
    found, last, taken := Illinois(f, A0, B0, epsilon, maxIterations);
    if found.Err? { return Err(found.error), last; }
    return Ok(m.exp(found.value / 2.0)), last;
  }

  lemma LimitIff(m: MathLib, c: Config, e: Equation, f: real -> real, B0: real, steps: int)
    requires FirstEnd(m, e, B0, steps) && f == F(m, e)
    ensures LimitReached(m, c, e) <==> IterationFails(f, Start(m, e), B0, c.epsilon, c.maxIterations)
  {
    if LimitReached(m, c, e) {
      var other, otherSteps :|
        FirstEnd(m, e, other, otherSteps) && IterationFails(F(m, e), Start(m, e), other, c.epsilon, c.maxIterations);
      FirstEndUnique(m, e, B0, steps, other, otherSteps);
    }
  }

  lemma VolatilitySquared(m: MathLib, x: real, sigmaPrime: real)
    requires Lawful(m) && sigmaPrime == m.exp(x / 2.0)
    ensures sigmaPrime * sigmaPrime == m.exp(x)
  {
    assert HalvesMultiply(m, x);
  }

  lemma ExpAtStart(m: MathLib, e: Equation)
    requires Lawful(m)
    ensures m.exp(Start(m, e)) == Square(e.sigma)
  {
  }

  lemma ExpWithin(m: MathLib, x: real, p: real, q: real)
    requires Lawful(m) && Within(x, p, q)
    ensures Within(m.exp(x), m.exp(p), m.exp(q))
  {
    assert x == p || x == q || p < x < q || q < x < p;
  }

  lemma SurprisingVolatility(m: MathLib, e: Equation, epsilon: real, s: Interval, sigmaPrime: real)
    requires Lawful(m) && Surprising(e) && IsVolatility(m, e, epsilon, s, sigmaPrime)
    ensures Within(sigmaPrime * sigmaPrime, Square(e.sigma), e.deltaSq - e.phiSq - e.v)
  {
    VolatilitySquared(m, s.A, sigmaPrime);
    ExpAtStart(m, e);
    ExpWithin(m, s.A, Start(m, e), m.ln(e.deltaSq - e.phiSq - e.v));
  }

  lemma UnsurprisingVolatility(m: MathLib, e: Equation, epsilon: real, s: Interval, sigmaPrime: real)
    requires Lawful(m) && !Surprising(e) && IsVolatility(m, e, epsilon, s, sigmaPrime)
    ensures sigmaPrime * sigmaPrime <= Square(e.sigma)
    ensures e.tau <= 2.0 ==> sigmaPrime * sigmaPrime >= m.exp(Probe(Start(m, e), e.tau, 1))
  {
    VolatilitySquared(m, s.A, sigmaPrime);
    ExpAtStart(m, e);
    var f, a := F(m, e), Start(m, e);
    var k :| 1 <= k <= MAX_BRACKET_STEPS && Within(s.A, a, Probe(a, e.tau, k))
             && forall j :: 1 <= j < k ==> ProbeNegative(f, a, e.tau, j);
    ProbeBelowStart(a, e.tau, k);
    ExpWithin(m, s.A, a, Probe(a, e.tau, k));
    if e.tau <= 2.0 {
      ProbeAccepted(m, e, 1);
      assert k == 1;
    }
  }

  /**
   The new volatility stays between the old one and the improvement left unexplained; when the
   results are unsurprising it does not grow, and for a system constant up to 2 it is bounded
   below by the first probe, one system constant under the old value on the logarithmic scale.
   */
  lemma VolatilityBounds(m: MathLib, e: Equation, epsilon: real, s: Interval, sigmaPrime: real)
    requires Lawful(m) && IsVolatility(m, e, epsilon, s, sigmaPrime)
    ensures Surprising(e) ==> Within(sigmaPrime * sigmaPrime, Square(e.sigma), e.deltaSq - e.phiSq - e.v)
    ensures !Surprising(e) ==> sigmaPrime * sigmaPrime <= Square(e.sigma)
    ensures !Surprising(e) && e.tau <= 2.0 ==> sigmaPrime * sigmaPrime >= m.exp(Probe(Start(m, e), e.tau, 1))
  {
    if Surprising(e) {
      SurprisingVolatility(m, e, epsilon, s, sigmaPrime);
    } else {
      UnsurprisingVolatility(m, e, epsilon, s, sigmaPrime);
    }
  }

  lemma ProbeBelowStart(a: real, tau: Positive, k: int)
    requires k >= 1
    ensures Probe(a, tau, k) < a
  {
    ProductSign(tau, k as real);
  }
}
