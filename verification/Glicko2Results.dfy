/**
 What results mean for a rating: winning raises it, losing lowers it, a better score never hurts, the
 stronger player is expected to score more, and an uncertain opponent counts for less.
 */
module Glicko2Results {
  import opened RealLemmas
  import opened Glicko2
  import opened Glicko2Update

  // ---------------------------------------------------------------------------------------
  //  Scores
  // ---------------------------------------------------------------------------------------

  function SumOf(xs: seq<real>): real { if xs == [] then 0.0 else SumOf(xs[..|xs| - 1]) + xs[|xs| - 1] }

  function Surpluses(games: seq<Game>): (xs: seq<real>)
    ensures |xs| == |games|
  {
    seq(|games|, i requires 0 <= i < |games| => Surplus(games[i]))
  }

  lemma {:induction false} OutcomeSumIs(games: seq<Game>)
    ensures OutcomeSum(games) == SumOf(Surpluses(games))
  {
    if games != [] {
      OutcomeSumIs(games[..|games| - 1]);
      assert Surpluses(games)[..|games| - 1] == Surpluses(games[..|games| - 1]);
    }
  }

  lemma {:induction false} SumSign(xs: seq<real>)
    ensures xs != [] && (forall i :: 0 <= i < |xs| ==> xs[i] > 0.0) ==> SumOf(xs) > 0.0
    ensures xs != [] && (forall i :: 0 <= i < |xs| ==> xs[i] < 0.0) ==> SumOf(xs) < 0.0
  {
    if |xs| > 1 { SumSign(xs[..|xs| - 1]); }
  }

  lemma {:induction false} SumGrows(xs: seq<real>, ys: seq<real>)
    requires |xs| == |ys| && forall i :: 0 <= i < |xs| ==> xs[i] <= ys[i]
    ensures SumOf(xs) <= SumOf(ys)
    ensures forall i :: 0 <= i < |xs| && xs[i] < ys[i] ==> SumOf(xs) < SumOf(ys)
  {
    if xs != [] { SumGrows(xs[..|xs| - 1], ys[..|xs| - 1]); }
  }

  lemma OneTerm(g: Game)
    requires ProperGame(g)
    ensures g.score == 1.0 ==> Surplus(g) > 0.0
    ensures g.score == 0.0 ==> Surplus(g) < 0.0
  {
    ProductSign(g.g, g.score - g.expected);
  }

  lemma WinsAddUp(games: seq<Game>)
    requires games != [] && forall i :: 0 <= i < |games| ==> ProperGame(games[i]) && games[i].score == 1.0
    ensures OutcomeSum(games) > 0.0
  {
    OutcomeSumIs(games);
    forall i | 0 <= i < |games| ensures Surpluses(games)[i] > 0.0 { OneTerm(games[i]); }
    SumSign(Surpluses(games));
  }

  lemma LossesAddUp(games: seq<Game>)
    requires games != [] && forall i :: 0 <= i < |games| ==> ProperGame(games[i]) && games[i].score == 0.0
    ensures OutcomeSum(games) < 0.0
  {
    OutcomeSumIs(games);
    forall i | 0 <= i < |games| ensures Surpluses(games)[i] < 0.0 { OneTerm(games[i]); }
    SumSign(Surpluses(games));
  }

  /** The same games, with scores at least as good, one of them perhaps better. */
  predicate Better(g: Game, h: Game) { h.g == g.g && h.expected == g.expected && h.score >= g.score }

  lemma BetterTerm(g: Game, h: Game)
    requires ProperGame(g) && Better(g, h)
    ensures Surplus(h) >= Surplus(g) && (h.score > g.score ==> Surplus(h) > Surplus(g))
    ensures Information(h) == Information(g)
  {
    ProductSign(g.g, h.score - g.score);
    DistributeScores(g.g, g.score - g.expected, h.score - g.score);
  }

  lemma DistributeScores(g: real, x: real, y: real)
    ensures g * (x + y) == g * x + g * y
  {
  }

  lemma BetterScoresAddUp(games: seq<Game>, better: seq<Game>)
    requires |games| == |better|
    requires forall i :: 0 <= i < |games| ==> ProperGame(games[i]) && Better(games[i], better[i])
    ensures OutcomeSum(better) >= OutcomeSum(games)
    ensures forall i :: 0 <= i < |games| && better[i].score > games[i].score ==> OutcomeSum(better) > OutcomeSum(games)
  {
    OutcomeSumIs(games);
    OutcomeSumIs(better);
    var xs, ys := Surpluses(games), Surpluses(better);
    forall i | 0 <= i < |games|
      ensures xs[i] <= ys[i] && (better[i].score > games[i].score ==> xs[i] < ys[i])
    {
      BetterTerm(games[i], better[i]);
    }
    SumGrows(xs, ys);
  }

  lemma {:induction false} SameInformation(games: seq<Game>, better: seq<Game>)
    requires |games| == |better|
    requires forall i :: 0 <= i < |games| ==> Information(games[i]) == Information(better[i])
    ensures TotalInformation(better) == TotalInformation(games)
  {
    if games != [] { SameInformation(games[..|games| - 1], better[..|games| - 1]); }
  }

  // ---------------------------------------------------------------------------------------
  //  Ratings
  // ---------------------------------------------------------------------------------------

  function GamesOf(m: MathLib, current: Snapshot, outcomes: seq<Outcome>): seq<Game>
    requires Lawful(m)
  {
    ToGames(m, InternalRating(current), outcomes)
  }

  /** The new snapshot for this volatility, before the limits are applied. */
  function After(m: MathLib, current: Snapshot, outcomes: seq<Outcome>, sigmaPrime: real): Snapshot
    requires Lawful(m) && outcomes != [] && sigmaPrime > 0.0 && current.deviation >= 0.0
  {
    Updated(m, current, EvidenceOf(GamesOf(m, current, outcomes)), sigmaPrime)
  }

  /** Whoever wins every game of the period rises, whatever the opponents and whatever the volatility. */
  lemma WinnerRises(m: MathLib, current: Snapshot, outcomes: seq<Outcome>, sigmaPrime: real)
    requires Lawful(m) && outcomes != [] && sigmaPrime > 0.0 && current.deviation >= 0.0
    requires forall o :: o in outcomes ==> o.score == 1.0
    ensures After(m, current, outcomes, sigmaPrime).rating > current.rating
    ensures Limited(After(m, current, outcomes, sigmaPrime)).rating > current.rating
  {
    var games := GamesOf(m, current, outcomes);
    forall i | 0 <= i < |games| ensures games[i].score == 1.0 { assert outcomes[i] in outcomes; }
    WinsAddUp(games);
    UpdateDirection(m, current, EvidenceOf(games), sigmaPrime);
  }

  /** Whoever loses every game falls, down to the floor of 100. */
  lemma LoserFalls(m: MathLib, current: Snapshot, outcomes: seq<Outcome>, sigmaPrime: real)
    requires Lawful(m) && outcomes != [] && sigmaPrime > 0.0 && current.deviation >= 0.0
    requires forall o :: o in outcomes ==> o.score == 0.0
    ensures After(m, current, outcomes, sigmaPrime).rating < current.rating
    ensures var after := Limited(After(m, current, outcomes, sigmaPrime));
            if current.rating > 100.0 then after.rating < current.rating else after.rating == 100.0
  {
    var games := GamesOf(m, current, outcomes);
    forall i | 0 <= i < |games| ensures games[i].score == 0.0 { assert outcomes[i] in outcomes; }
    LossesAddUp(games);
    UpdateDirection(m, current, EvidenceOf(games), sigmaPrime);
  }

  /** Raising scores against the same opponents never lowers the rating, and one raised score raises it. */
  lemma BetterScoresRateHigher(
    m: MathLib, current: Snapshot, outcomes: seq<Outcome>, better: seq<Outcome>, sigmaPrime: real)
    requires Lawful(m) && outcomes != [] && sigmaPrime > 0.0 && current.deviation >= 0.0 && |better| == |outcomes|
    requires forall i :: 0 <= i < |outcomes| ==>
            better[i].opponent == outcomes[i].opponent && better[i].score >= outcomes[i].score
    ensures After(m, current, better, sigmaPrime).rating >= After(m, current, outcomes, sigmaPrime).rating
    ensures (exists i :: 0 <= i < |outcomes| && better[i].score > outcomes[i].score) ==>
            After(m, current, better, sigmaPrime).rating > After(m, current, outcomes, sigmaPrime).rating
    ensures After(m, current, better, sigmaPrime).deviation == After(m, current, outcomes, sigmaPrime).deviation
  {
    BetterEvidence(m, current, outcomes, better);
    MoreEvidence(m, current, EvidenceOf(GamesOf(m, current, outcomes)), EvidenceOf(GamesOf(m, current, better)),
                 sigmaPrime);
  }

  lemma BetterEvidence(m: MathLib, current: Snapshot, outcomes: seq<Outcome>, better: seq<Outcome>)
    requires Lawful(m) && outcomes != [] && |better| == |outcomes|
    requires forall i :: 0 <= i < |outcomes| ==>
            better[i].opponent == outcomes[i].opponent && better[i].score >= outcomes[i].score
    ensures var e, e' := EvidenceOf(GamesOf(m, current, outcomes)), EvidenceOf(GamesOf(m, current, better));
            && e'.v == e.v && e'.outcomeSum >= e.outcomeSum
            && ((exists i :: 0 <= i < |outcomes| && better[i].score > outcomes[i].score) ==>
                e'.outcomeSum > e.outcomeSum)
  {
    var games, games' := GamesOf(m, current, outcomes), GamesOf(m, current, better);
    forall i | 0 <= i < |games|
      ensures ProperGame(games[i]) && Better(games[i], games'[i]) && Information(games[i]) == Information(games'[i])
    {
      assert better[i].opponent == outcomes[i].opponent;
    }
    BetterScoresAddUp(games, games');
    SameInformation(games, games');
    SumsRise(games, games', outcomes, better);
  }

  /** A score raised among the outcomes is one raised among the games. */
  lemma SumsRise(games: seq<Game>, games': seq<Game>, outcomes: seq<Outcome>, better: seq<Outcome>)
    requires |games| == |games'| == |outcomes| == |better|
    requires forall i :: 0 <= i < |games| ==>
            games[i].score == outcomes[i].score && games'[i].score == better[i].score
    requires forall i :: 0 <= i < |games| && games'[i].score > games[i].score ==> OutcomeSum(games') > OutcomeSum(games)
    ensures (exists i :: 0 <= i < |outcomes| && better[i].score > outcomes[i].score) ==>
            OutcomeSum(games') > OutcomeSum(games)
  {
  }

  lemma MoreEvidence(m: MathLib, current: Snapshot, e: Evidence, e': Evidence, sigmaPrime: real)
    requires Lawful(m) && sigmaPrime > 0.0 && current.deviation >= 0.0 && e.v == e'.v
    ensures e'.outcomeSum >= e.outcomeSum ==>
            Updated(m, current, e', sigmaPrime).rating >= Updated(m, current, e, sigmaPrime).rating
    ensures e'.outcomeSum > e.outcomeSum ==>
            Updated(m, current, e', sigmaPrime).rating > Updated(m, current, e, sigmaPrime).rating
    ensures Updated(m, current, e', sigmaPrime).deviation == Updated(m, current, e, sigmaPrime).deviation
  {
    WidenedGrows(m, InternalDeviation(current), sigmaPrime);
    var p := Narrowed(m, Widened(m, InternalDeviation(current), sigmaPrime), e.v);
    ProductSign(Sq(p), e'.outcomeSum - e.outcomeSum);
    DistributeScores(Sq(p), e.outcomeSum, e'.outcomeSum - e.outcomeSum);
  }

  /** The rating moves by the surplus per unit of the new precision. */
  lemma ShiftIsSurplusPerPrecision(m: MathLib, current: Snapshot, e: Evidence, sigmaPrime: real)
    requires Lawful(m) && sigmaPrime > 0.0 && current.deviation >= 0.0
    ensures var phiStar := Widened(m, InternalDeviation(current), sigmaPrime);
            phiStar > 0.0 &&
            (InternalRating(Updated(m, current, e, sigmaPrime)) - InternalRating(current)) * Precision(phiStar, e.v) ==
            e.outcomeSum
  {
    WidenedGrows(m, InternalDeviation(current), sigmaPrime);
    var phiStar := Widened(m, InternalDeviation(current), sigmaPrime);
    var p := Narrowed(m, phiStar, e.v);
    NarrowedSquare(m, phiStar, e.v);
    var mu, shift := InternalRating(current), Sq(p) * e.outcomeSum;
    ScaleBack(mu + shift);
    ThreeFactors(Sq(p), e.outcomeSum, Precision(phiStar, e.v));
  }

  lemma ScaleBack(mu: real)
    ensures (SCALE * mu + 1500.0 - 1500.0) / SCALE == mu
  {
  }

  lemma ThreeFactors(s: real, o: real, precision: real)
    requires s * precision == 1.0
    ensures (s * o) * precision == o
  {
    assert (s * o) * precision == (s * precision) * o;
  }

  // ---------------------------------------------------------------------------------------
  //  Expectations
  // ---------------------------------------------------------------------------------------

  lemma ExpOfZero(m: MathLib)
    requires Lawful(m)
    ensures m.exp(0.0) == 1.0
  {
    assert HalvesMultiply(m, 0.0);
    var one: real := m.exp(0.0);
    assert one * one == one;
    ProductSign(one, one - 1.0);
    DistributeScores(one, one, -1.0);
  }

  lemma ExpAgainstOne(m: MathLib, x: real)
    requires Lawful(m)
    ensures m.exp(x) < 1.0 <==> x < 0.0
    ensures m.exp(x) == 1.0 <==> x == 0.0
  {
    ExpOfZero(m);
    assert x < 0.0 ==> m.exp(x) < m.exp(0.0);
    assert x > 0.0 ==> m.exp(0.0) < m.exp(x);
  }

  lemma ExponentSign(mu: real, muJ: real, g: real)
    requires g > 0.0
    ensures Exponent(mu, muJ, g) < 0.0 <==> mu > muJ
    ensures Exponent(mu, muJ, g) == 0.0 <==> mu == muJ
  {
    ProductSign(g, mu - muJ);
    assert -g * (mu - muJ) == -(g * (mu - muJ));
  }

  lemma ExpectedByExponent(m: MathLib, mu: real, muJ: real, g: real, x: real)
    requires Lawful(m) && x == Exponent(mu, muJ, g)
    ensures Expected(m, mu, muJ, g) > 0.5 <==> x < 0.0
    ensures Expected(m, mu, muJ, g) == 0.5 <==> x == 0.0
  {
    ExpAgainstOne(m, x);
    HalfIff(m.exp(x));
  }

  /** The stronger player is expected to score more than half, the weaker less, equals exactly half. */
  lemma StrongerIsExpectedToWin(m: MathLib, mu: real, muJ: real, g: real)
    requires Lawful(m) && g > 0.0
    ensures Expected(m, mu, muJ, g) > 0.5 <==> mu > muJ
    ensures Expected(m, mu, muJ, g) == 0.5 <==> mu == muJ
  {
    ExponentSign(mu, muJ, g);
    ExpectedByExponent(m, mu, muJ, g, Exponent(mu, muJ, g));
  }

  lemma HalfIff(ex: real)
    requires ex > 0.0
    ensures 1.0 / (1.0 + ex) > 0.5 <==> ex < 1.0
    ensures 1.0 / (1.0 + ex) == 0.5 <==> ex == 1.0
  {
    var z := 1.0 / (1.0 + ex);
    ShareOf(1.0, 1.0 + ex);
    assert z * (1.0 + ex) == 1.0;
    ProductSign(1.0 + ex, z - 0.5);
    DistributeScores(1.0 + ex, z, -0.5);
  }

  /** The higher rated of two players is expected to score more against the same opponent. */
  lemma ExpectationGrows(m: MathLib, mu: real, higher: real, muJ: real, g: real)
    requires Lawful(m) && g > 0.0 && mu < higher
    ensures Expected(m, mu, muJ, g) < Expected(m, higher, muJ, g)
  {
    ExponentFalls(mu, higher, muJ, g);
    ReciprocalFalls(1.0 + m.exp(Exponent(higher, muJ, g)), 1.0 + m.exp(Exponent(mu, muJ, g)));
  }

  lemma ExponentFalls(mu: real, higher: real, muJ: real, g: real)
    requires g > 0.0 && mu < higher
    ensures Exponent(higher, muJ, g) < Exponent(mu, muJ, g)
  {
    ProductSign(g, higher - mu);
    assert -g * (higher - muJ) == -g * (mu - muJ) - g * (higher - mu);
  }

  lemma ReciprocalFalls(x: real, y: real)
    requires 0.0 < x < y
    ensures 1.0 / y < 1.0 / x
  {
    var a, b := 1.0 / x, 1.0 / y;
    QuotientSign(1.0, y);
    ShareOf(1.0, x);
    ShareOf(1.0, y);
    ProductSign(b, y - x);
    DistributeScores(b, x, y - x);
    ProductSign(x, a - b);
    DistributeScores(x, a, -b);
  }

  /** An opponent counts at most fully, and the less the more uncertain the opponent's rating is. */
  lemma UncertainOpponentsCountLess(m: MathLib, phi: real, wider: real)
    requires Lawful(m) && 0.0 <= phi < wider
    ensures Weight(m, wider) < Weight(m, phi) <= 1.0
  {
    var a, b := WeightArgument(m, phi), WeightArgument(m, wider);
    SqOrder(phi, wider);
    QuotientMonotone(3.0 * Sq(phi), 3.0 * Sq(wider), Sq(m.pi));
    RootPositive(m, a);
    RootPositive(m, b);
    SqOrder(m.sqrt(a), m.sqrt(b));
    SqOrder(m.sqrt(a), 1.0);
    assert Sq(1.0) == 1.0;
    ReciprocalFalls(m.sqrt(a), m.sqrt(b));
    if m.sqrt(a) > 1.0 { ReciprocalFalls(1.0, m.sqrt(a)); }
  }

  /** The weight of an opponent, squared, is the share of pi squared in pi squared and three deviations squared. */
  lemma WeightSquared(m: MathLib, phi: real)
    requires Lawful(m)
    ensures Sq(Weight(m, phi)) * (Sq(m.pi) + 3.0 * Sq(phi)) == Sq(m.pi)
  {
    var a := WeightArgument(m, phi);
    RootPositive(m, a);
    InverseSquare(m.sqrt(a));
    ArgumentTimesPi(Sq(m.pi), 3.0 * Sq(phi), a);
    Exchange(Sq(Weight(m, phi)), a, Sq(m.pi));
  }

  lemma ArgumentTimesPi(p: real, x: real, a: real)
    requires p > 0.0 && a == 1.0 + x / p
    ensures a * p == p + x
  {
    var q := x / p;
    assert q * p == x;
  }

  lemma Exchange(g: real, a: real, p: real)
    requires g * a == 1.0
    ensures g * (a * p) == p
  {
    assert g * (a * p) == (g * a) * p;
  }

  /** A game says most when the players are even, a quarter of its weight squared, and less the surer the result. */
  lemma InformationPeaksAtHalf(g: Game)
    requires ProperGame(g)
    ensures Information(g) <= Sq(g.g) * 0.25
    ensures Information(g) == Sq(g.g) * 0.25 <==> g.expected == 0.5
  {
    var gap := 0.25 - g.expected * (1.0 - g.expected);
    QuarterGap(g.expected);
    assert Information(g) == Sq(g.g) * (g.expected * (1.0 - g.expected));
    ProductSign(Sq(g.g), gap);
    DistributeScores(Sq(g.g), g.expected * (1.0 - g.expected), gap);
  }

  lemma QuarterGap(e: real)
    ensures 0.25 - e * (1.0 - e) == Sq(e - 0.5)
  {
  }

  /** The favourite of a game is the player with the higher rating. */
  lemma FavouriteIsHigherRated(m: MathLib, current: Snapshot, o: Outcome)
    requires Lawful(m)
    ensures ToGame(m, InternalRating(current), o).expected > 0.5 <==> current.rating > o.opponent.rating
    ensures ToGame(m, InternalRating(current), o).score == o.score
  {
    var muJ := (o.opponent.rating - 1500.0) / SCALE;
    SameScale(current.rating, o.opponent.rating);
    StrongerIsExpectedToWin(m, InternalRating(current), muJ, Weight(m, o.opponent.deviation / SCALE));
  }

  lemma SameScale(x: real, y: real)
    ensures (x - 1500.0) / SCALE > (y - 1500.0) / SCALE <==> x > y
  {
  }

  /**
   The equation of the volatility starts from the improvement that the games alone would give: times their
   information it is their surplus.
   */
  lemma ImprovementIsSurplusPerInformation(c: Config, current: Snapshot, games: seq<Game>)
    requires games != [] && forall i :: 0 <= i < |games| ==> ProperGame(games[i])
    requires current.volatility > 0.0
    ensures EquationOf(c, current, EvidenceOf(games)).deltaSq * Sq(TotalInformation(games)) == Sq(OutcomeSum(games))
  {
    VarianceTimesInformation(games);
    ImprovementOfEvidence(c, current, EvidenceOf(games), TotalInformation(games));
  }

  lemma ImprovementOfEvidence(c: Config, current: Snapshot, e: Evidence, info: real)
    requires e.v * info == 1.0 && current.volatility > 0.0
    ensures EquationOf(c, current, e).deltaSq * Sq(info) == Sq(e.outcomeSum)
  {
    SquareOfProduct(e.v, e.outcomeSum, info);
  }

  lemma VarianceTimesInformation(games: seq<Game>)
    requires games != [] && forall i :: 0 <= i < |games| ==> ProperGame(games[i])
    ensures EvidenceOf(games).v * TotalInformation(games) == 1.0
  {
    TotalInformationPositive(games);
    ShareOf(1.0, TotalInformation(games));
  }

  lemma SquareOfProduct(v: real, o: real, info: real)
    requires v * info == 1.0
    ensures Sq(v * o) * Sq(info) == Sq(o)
  {
    var d := v * o;
    FactorsCancel(v, o, info);
    assert d * info == o;
    SquareTogether(d, info);
  }

  lemma FactorsCancel(v: real, o: real, info: real)
    requires v * info == 1.0
    ensures (v * o) * info == o
  {
    assert (v * o) * info == (v * info) * o;
  }

  lemma SquareTogether(x: real, y: real)
    ensures Sq(x) * Sq(y) == Sq(x * y)
  {
    assert (x * x) * (y * y) == (x * y) * (x * y);
  }

  /** The other data of the equation: the deviation in rating points, the old volatility, the period's constant. */
  lemma EquationOfPeriod(c: Config, current: Snapshot, games: seq<Game>)
    requires games != [] && forall i :: 0 <= i < |games| ==> ProperGame(games[i])
    requires current.volatility > 0.0
    ensures var e := EquationOf(c, current, EvidenceOf(games));
            && Sq(SCALE) * e.phiSq == Sq(current.deviation) && e.v * TotalInformation(games) == 1.0
            && e.sigma == current.volatility && e.tau == c.tau
  {
    VarianceTimesInformation(games);
    SquareTogether(SCALE, InternalDeviation(current));
    ScaledDeviation(current.deviation);
  }

  lemma ScaledDeviation(deviation: real)
    ensures SCALE * (deviation / SCALE) == deviation
  {
  }
}
