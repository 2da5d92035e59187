/**
 One rating period of one player: from the snapshot before it and the games in it to the
 snapshot after it, with the volatility taken from the solver.
 */
module Glicko2Update {
  import opened Wrappers
  import opened RealLemmas
  import opened Glicko2

  datatype Snapshot = Snapshot(rating: real, deviation: real, volatility: real)

  datatype Outcome = Outcome(opponent: Snapshot, score: real)

  /** One game on the internal scale: weight, expected score, score. */
  datatype Game = Game(g: real, expected: real, score: real)

  const SCALE := 173.7178

  function Max(x: real, y: real): real { if x < y then y else x }

  function Min(x: real, y: real): real { if x < y then x else y }

  function Clamp(rating: real, deviation: real, volatility: real): Snapshot {
    Snapshot(Max(100.0, rating), Min(350.0, Max(30.0, deviation)), Min(0.1, Max(0.01, volatility)))
  }

  /** The snapshots that the limits admit. */
  predicate InRange(s: Snapshot) {
    s.rating >= 100.0 && 30.0 <= s.deviation <= 350.0 && 0.01 <= s.volatility <= 0.1
  }

  lemma RootPositive(m: MathLib, y: real)
    requires Lawful(m) && y > 0.0
    ensures m.sqrt(y) > 0.0 && Sq(m.sqrt(y)) == y
  {
    assert m.sqrt(y) * m.sqrt(y) == y;
  }

  function WeightArgument(m: MathLib, phi: real): (a: real)
    ensures a >= 1.0
  {
    QuotientSign(3.0 * Sq(phi), Sq(m.pi));
    1.0 + 3.0 * Sq(phi) / Sq(m.pi)
  }

  function Weight(m: MathLib, phi: real): (g: real)
    requires Lawful(m)
    ensures g > 0.0
  {
    var root := m.sqrt(WeightArgument(m, phi));
    RootPositive(m, WeightArgument(m, phi));
    QuotientSign(1.0, root);
    1.0 / root
  }

  function Exponent(mu: real, muJ: real, g: real): real { -g * (mu - muJ) }

  function Expected(m: MathLib, mu: real, muJ: real, g: real): (e: real)
    ensures 0.0 < e < 1.0
  {
    var ex: real := m.exp(Exponent(mu, muJ, g));
    QuotientSign(1.0, 1.0 + ex);
    QuotientMonotone(1.0, 1.0 + ex, 1.0 + ex);
    QuotientIs(1.0 + ex, 1.0 + ex, 1.0);
    1.0 / (1.0 + ex)
  }

  predicate ProperGame(g: Game) { g.g > 0.0 && 0.0 < g.expected < 1.0 }

  function ToGame(m: MathLib, mu: real, o: Outcome): (game: Game)
    requires Lawful(m)
    ensures ProperGame(game)
  {
    var g := Weight(m, o.opponent.deviation / SCALE);
    Game(g, Expected(m, mu, (o.opponent.rating - 1500.0) / SCALE, g), o.score)
  }

  function ToGames(m: MathLib, mu: real, outcomes: seq<Outcome>): (games: seq<Game>)
    requires Lawful(m)
    ensures |games| == |outcomes| && forall i :: 0 <= i < |games| ==> ProperGame(games[i])
  {
    seq(|outcomes|, i requires 0 <= i < |outcomes| => ToGame(m, mu, outcomes[i]))
  }

  function Information(g: Game): real { Sq(g.g) * g.expected * (1.0 - g.expected) }

  function TotalInformation(games: seq<Game>): real {
    if games == [] then 0.0 else TotalInformation(games[..|games| - 1]) + Information(games[|games| - 1])
  }

  /** By how much a result surprises, weighted. */
  function Surplus(g: Game): real { g.g * (g.score - g.expected) }

  function OutcomeSum(games: seq<Game>): real {
    if games == [] then 0.0 else OutcomeSum(games[..|games| - 1]) + Surplus(games[|games| - 1])
  }

  lemma InformationPositive(g: Game)
    requires ProperGame(g)
    ensures Information(g) > 0.0
  {
    ProductSign(Sq(g.g), g.expected);
    ProductSign(Sq(g.g) * g.expected, 1.0 - g.expected);
  }

  /** The variance is the reciprocal of a positive number: it always exists. */
  lemma {:induction false} TotalInformationPositive(games: seq<Game>)
    requires forall i :: 0 <= i < |games| ==> ProperGame(games[i])
    ensures games != [] ==> TotalInformation(games) > 0.0
    ensures TotalInformation(games) >= 0.0
  {
    if games != [] {
      TotalInformationPositive(games[..|games| - 1]);
      InformationPositive(games[|games| - 1]);
    }
  }

  method Sums(games: seq<Game>) returns (vInv: real, outcomeSum: real)
    ensures vInv == TotalInformation(games) && outcomeSum == OutcomeSum(games)
  {
    vInv := 0.0;
    for i := 0 to |games|
      invariant vInv == TotalInformation(games[..i])
    {
      assert games[..i + 1][..i] == games[..i];
      vInv := vInv + Information(games[i]);
    }
    outcomeSum := 0.0;
    for i := 0 to |games|
      invariant outcomeSum == OutcomeSum(games[..i])
    {
      assert games[..i + 1][..i] == games[..i];
      assert Surplus(games[i]) == games[i].g * (games[i].score - games[i].expected);
      outcomeSum := outcomeSum + games[i].g * (games[i].score - games[i].expected);
    }
    assert games[..|games|] == games;
  }

  /** The deviation after the period's uncertainty and before its games. */
  function Widened(m: MathLib, phi: real, sigma: real): real { m.sqrt(Sq(phi) + Sq(sigma)) }

  lemma WidenedGrows(m: MathLib, phi: real, sigma: real)
    requires Lawful(m) && phi >= 0.0 && sigma > 0.0
    ensures Widened(m, phi, sigma) > phi
    ensures Sq(Widened(m, phi, sigma)) == Sq(phi) + Sq(sigma)
  {
    RootPositive(m, Sq(phi) + Sq(sigma));
    SqOrder(phi, Widened(m, phi, sigma));
  }

  function Precision(phiStar: real, v: real): (r: real)
    requires phiStar > 0.0 && v > 0.0
    ensures r > 0.0
  {
    QuotientSign(1.0, Sq(phiStar));
    QuotientSign(1.0, v);
    1.0 / Sq(phiStar) + 1.0 / v
  }

  /** The deviation after the games. */
  function Narrowed(m: MathLib, phiStar: real, v: real): (phiPrime: real)
    requires Lawful(m) && phiStar > 0.0 && v > 0.0
    ensures phiPrime > 0.0
  {
    var root := m.sqrt(Precision(phiStar, v));
    RootPositive(m, Precision(phiStar, v));
    QuotientSign(1.0, root);
    1.0 / root
  }

  lemma InverseSquare(root: real)
    requires root > 0.0
    ensures Sq(1.0 / root) * Sq(root) == 1.0
  {
    var p := 1.0 / root;
    assert p * root == 1.0;
    assert (p * p) * (root * root) == (p * root) * (p * root);
  }

  lemma NarrowedSquare(m: MathLib, phiStar: real, v: real)
    requires Lawful(m) && phiStar > 0.0 && v > 0.0
    ensures Sq(Narrowed(m, phiStar, v)) * Precision(phiStar, v) == 1.0
  {
    RootPositive(m, Precision(phiStar, v));
    InverseSquare(m.sqrt(Precision(phiStar, v)));
  }

  /** Games can only reduce the uncertainty, and below both of its sources. */
  lemma NarrowedShrinks(m: MathLib, phiStar: real, v: real)
    requires Lawful(m) && phiStar > 0.0 && v > 0.0
    ensures var p := Narrowed(m, phiStar, v);
            Sq(p) * Precision(phiStar, v) == 1.0 && p < phiStar && Sq(p) < v
  {
    NarrowedSquare(m, phiStar, v);
    BelowBothSources(Narrowed(m, phiStar, v), phiStar, v);
  }

  lemma BelowBothSources(p: real, phiStar: real, v: real)
    requires p > 0.0 && phiStar > 0.0 && v > 0.0 && Sq(p) * Precision(phiStar, v) == 1.0
    ensures p < phiStar && Sq(p) < v
  {
    BelowFirst(Sq(p), Sq(phiStar), v);
    BelowFirst(Sq(p), v, Sq(phiStar));
    SqOrder(p, phiStar);
  }

  lemma BelowFirst(s: real, a: real, b: real)
    requires s > 0.0 && a > 0.0 && b > 0.0
    requires s * (1.0 / a + 1.0 / b) == 1.0 || s * (1.0 / b + 1.0 / a) == 1.0
    ensures s < a
  {
    assert 1.0 / a + 1.0 / b == 1.0 / b + 1.0 / a;
    ReciprocalSum(s, a, b);
  }

  function InternalRating(s: Snapshot): real { (s.rating - 1500.0) / SCALE }

  function InternalDeviation(s: Snapshot): real { s.deviation / SCALE }

  /** What the games of a period say: the variance of the estimate and the weighted surprise. */
  datatype Evidence = Evidence(v: Positive, outcomeSum: real)

  function EvidenceOf(games: seq<Game>): (e: Evidence)
    requires games != [] && forall i :: 0 <= i < |games| ==> ProperGame(games[i])
  {
    TotalInformationPositive(games);
    QuotientSign(1.0, TotalInformation(games));
    Evidence(1.0 / TotalInformation(games), OutcomeSum(games))
  }

  /** The equation whose root is the new volatility. */
  function EquationOf(c: Config, current: Snapshot, evidence: Evidence): Equation
    requires current.volatility > 0.0
  {
    Equation(Sq(evidence.v * evidence.outcomeSum), Sq(InternalDeviation(current)), evidence.v, current.volatility,
        c.tau)
  }

  /** Rating and deviation after the games, before the limits are applied. */
  function Updated(m: MathLib, current: Snapshot, evidence: Evidence, sigmaPrime: real): Snapshot
    requires Lawful(m) && sigmaPrime > 0.0 && current.deviation >= 0.0
  {
    WidenedGrows(m, InternalDeviation(current), sigmaPrime);
    var phiPrime := Narrowed(m, Widened(m, InternalDeviation(current), sigmaPrime), evidence.v);
    var muPrime := InternalRating(current) + Sq(phiPrime) * evidence.outcomeSum;
    Snapshot(SCALE * muPrime + 1500.0, SCALE * phiPrime, sigmaPrime)
  }

  function Limited(s: Snapshot): Snapshot { Clamp(s.rating, s.deviation, s.volatility) }

  /** A period without games: only the deviation moves. */
  function Idle(m: MathLib, current: Snapshot): Snapshot {
    Clamp(current.rating, Widened(m, InternalDeviation(current), current.volatility) * SCALE, current.volatility)
  }

  method Gather(games: seq<Game>) returns (evidence: Evidence)
    requires games != [] && forall i :: 0 <= i < |games| ==> ProperGame(games[i])
    ensures evidence == EvidenceOf(games)
  {
    var vInv, outcomeSum := Sums(games);
    TotalInformationPositive(games);
    QuotientSign(1.0, vInv);
    evidence := Evidence(1.0 / vInv, outcomeSum);
  }

  /** From a snapshot within the limits the search accepts its first probe, whatever the system constant. */
  lemma SearchNeverFailsInRange(m: MathLib, c: Config, current: Snapshot, evidence: Evidence)
    requires Lawful(m) && InRange(current)
    ensures var e := EquationOf(c, current, evidence);
            !ProbeNegative(F(m, e), Start(m, e), e.tau, 1) && !SearchFails(m, e)
  {
    var e := EquationOf(c, current, evidence);
    var phi, sigma := InternalDeviation(current), current.volatility;
    QuotientMonotone(29.9, current.deviation, SCALE);
    SqOrderUp(29.9 / SCALE, phi);
    SqOrderUp(sigma, 0.1);
    assert Sq(29.9 / SCALE) > 0.02;
    assert Sq(0.1) <= 0.04;
    FirstProbeAccepted(m, e);
  }

  lemma SearchSucceeds(m: MathLib, c: Config, current: Snapshot, evidence: Evidence)
    requires Lawful(m) && current.volatility > 0.0
    ensures c.tau <= 200.0 || InRange(current) ==> !SearchFails(m, EquationOf(c, current, evidence))
  {
    SearchFailsIffTauHuge(m, c.tau);
    if InRange(current) { SearchNeverFailsInRange(m, c, current, evidence); }
  }

  lemma LimitedInRange()
    ensures forall rating, deviation, volatility :: InRange(Clamp(rating, deviation, volatility))
  {
  }

  lemma SqOrderUp(x: real, y: real)
    requires 0.0 <= x <= y
    ensures Sq(x) <= Sq(y)
  {
    ProductMonotone(x, y, x, y);
  }

  method Compute(m: MathLib, c: Config, current: Snapshot, outcomes: seq<Outcome>)
    returns (r: Result<Snapshot, ConvergenceError>, ghost last: Interval, ghost sigmaPrime: real)
    requires Lawful(m) && c.epsilon >= 0.0 && current.volatility > 0.0 && current.deviation >= 0.0
    ensures outcomes == [] ==> r == Ok(Idle(m, current))
    ensures outcomes != [] && r.Ok? ==>
              var evidence := EvidenceOf(ToGames(m, InternalRating(current), outcomes));
              && sigmaPrime > 0.0 && IsVolatility(m, EquationOf(c, current, evidence), c.epsilon, last, sigmaPrime)
              && r.value == Limited(Updated(m, current, evidence, sigmaPrime))
    ensures outcomes != [] ==>
              var e := EquationOf(c, current, EvidenceOf(ToGames(m, InternalRating(current), outcomes)));
              && (r.Err? <==> SearchFails(m, e) || LimitReached(m, c, e))
              && (c.tau <= 200.0 || InRange(current) ==> !SearchFails(m, e))
    ensures r.Ok? ==> InRange(r.value)
  {
    LimitedInRange();
    last, sigmaPrime := Interval(0.0, 0.0, 0.0, 0.0), 0.0;
    if outcomes == [] {
      return Ok(Idle(m, current)), last, sigmaPrime;
    }
    var evidence := Gather(ToGames(m, InternalRating(current), outcomes));
    SearchSucceeds(m, c, current, evidence);
    var solved;
    solved, last := SolveVolatility(m, c, EquationOf(c, current, evidence));
    if solved.Err? {
      return Err(solved.error), last, sigmaPrime;
    }
    sigmaPrime := solved.value;
    return Ok(Limited(Updated(m, current, evidence, solved.value))), last, sigmaPrime;
  }

  // ---------------------------------------------------------------------------------------
  //  What an update does
  // ---------------------------------------------------------------------------------------

  /** Without games a player in range keeps the rating and becomes no more certain. */
  lemma IdleOnlyWidens(m: MathLib, current: Snapshot)
    requires Lawful(m) && InRange(current)
    ensures var s := Idle(m, current);
            s.rating == current.rating && s.volatility == current.volatility
                && current.deviation <= s.deviation <= 350.0
                && (s.deviation < 350.0 ==>
                    && s.deviation > current.deviation
                    && Sq(InternalDeviation(s)) == Sq(InternalDeviation(current)) + Sq(current.volatility))
  {
    WidenedGrows(m, InternalDeviation(current), current.volatility);
    ThereAndBack(Widened(m, InternalDeviation(current), current.volatility), current.deviation);
  }

  lemma ThereAndBack(w: real, deviation: real)
    ensures w * SCALE / SCALE == w
    ensures deviation / SCALE * SCALE == deviation
    ensures w > deviation / SCALE ==> w * SCALE > deviation
  {
  }

  /** What is within the limits stays; what is outside them moves to the nearer one. */
  lemma LimitedIsNearest(s: Snapshot)
    ensures InRange(Limited(s)) && (InRange(s) ==> Limited(s) == s)
    ensures var r := Limited(s);
            && (r.rating == s.rating || s.rating < 100.0 == r.rating)
            && (r.deviation == s.deviation || s.deviation < 30.0 == r.deviation || s.deviation > 350.0 == r.deviation)
            && (r.volatility == s.volatility || s.volatility < 0.01 == r.volatility
                || s.volatility > 0.1 == r.volatility)
  {
  }

  /**
   With games the rating moves in the direction in which the weighted results differ from the
   expected ones, and the deviation ends below the widened one and below the games' own error.
   */
  lemma UpdateDirection(m: MathLib, current: Snapshot, evidence: Evidence, sigmaPrime: real)
    requires Lawful(m) && sigmaPrime > 0.0 && current.deviation >= 0.0
    ensures var s := Updated(m, current, evidence, sigmaPrime);
            && (s.rating > current.rating <==> evidence.outcomeSum > 0.0)
            && (s.rating < current.rating <==> evidence.outcomeSum < 0.0)
            && 0.0 < s.deviation < SCALE * Widened(m, InternalDeviation(current), sigmaPrime)
            && Sq(s.deviation) < SCALE * SCALE * evidence.v
  {
    WidenedGrows(m, InternalDeviation(current), sigmaPrime);
    var phiStar := Widened(m, InternalDeviation(current), sigmaPrime);
    var p := Narrowed(m, phiStar, evidence.v);
    NarrowedShrinks(m, phiStar, evidence.v);
    ProductSign(Sq(p), evidence.outcomeSum);
    ScaledSquare(p);
  }

  lemma ScaledSquare(p: real)
    ensures Sq(SCALE * p) == SCALE * SCALE * Sq(p)
  {
  }
}
