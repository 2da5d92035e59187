/**
 The loops of the remaining tie-break keys, and what every key measures, in terms of wins, draws,
 opponents and their points.
 */
module TieBreakKeys {
  import opened Wrappers
  import opened Sorting
  import opened TieBreak

  /** A win against somebody, over the board or by forfeit; a free point is none. */
  predicate Won(g: Game) { g.result2 == 2 && g.opponentId.Some? }

  predicate PlayedBlack(g: Game) { g.playedOverBoard && g.colour == Some(Black) }

  // ---------------------------------------------------------------------------------------
  //  The loops
  // ---------------------------------------------------------------------------------------

  method SonnebornBergerLoop(games: seq<Game>, ctx: Context) returns (total: int)
    ensures total == SonnebornBergerOf(games, ctx)
  {
    total := 0;
    for i := 0 to |games|
      invariant total == SonnebornBergerOf(games[..i], ctx)
    {
      var game := games[i];
      assert games[..i + 1][..i] == games[..i];
      if game.playedOverBoard && game.opponentId.Some? {
        total := total + PointsOf(ctx, game.opponentId.value) * game.result2;
      }
    }
    assert games[..|games|] == games;
  }

  method KoyaLoop(games: seq<Game>, ctx: Context) returns (total: int)
    ensures total == KoyaOf(games, ctx)
  {
    total := 0;
    for i := 0 to |games|
      invariant total == KoyaOf(games[..i], ctx)
    {
      var game := games[i];
      assert games[..i + 1][..i] == games[..i];
      if game.playedOverBoard && game.opponentId.Some? && PointsOf(ctx, game.opponentId.value) >= ctx.totalRounds {
        total := total + game.result2;
      }
    }
    assert games[..|games|] == games;
  }

  method CountLoop(games: seq<Game>, counts: Game -> bool) returns (count: nat)
    ensures count == CountGames(games, counts)
  {
    count := 0;
    for i := 0 to |games|
      invariant count == CountGames(games[..i], counts)
    {
      assert games[..i + 1][..i] == games[..i];
      if counts(games[i]) { count := count + 1; }
    }
    assert games[..|games|] == games;
  }

  method AroLoop(games: seq<Game>, ctx: Context, unrated: Option<int>) returns (average: real)
    ensures average == AroOf(games, ctx, unrated)
  {
    var ratingSum, count := 0, 0;
    for i := 0 to |games|
      invariant (ratingSum, count) == RatingSum(games[..i], ctx, unrated)
    {
      assert games[..i + 1][..i] == games[..i];
      var rating := OpponentRating(games[i], ctx, unrated);
      if rating.Some? { ratingSum, count := ratingSum + rating.value, count + 1; }
    }
    assert games[..|games|] == games;
    average := if count == 0 then 0.0 else ratingSum as real / count as real;
  }

  method SumLoop(xs: seq<int>) returns (total: int)
    ensures total == Sum(xs)
  {
    total := 0;
    for i := 0 to |xs|
      invariant total == Sum(xs[..i])
    {
      assert xs[..i + 1][..i] == xs[..i];
      total := total + xs[i];
    }
    assert xs[..|xs|] == xs;
  }

  // ---------------------------------------------------------------------------------------
  //  Points from wins and draws
  // ---------------------------------------------------------------------------------------

  /** Every result is a win, a draw or a loss. */
  predicate Proper(games: seq<Game>) { forall i :: 0 <= i < |games| ==> games[i].result2 in {0, 1, 2} }

  function And(p: Game -> bool, q: Game -> bool): Game -> bool { (g: Game) => p(g) && q(g) }

  predicate IsWin(g: Game) { g.result2 == 2 }

  predicate IsDraw(g: Game) { g.result2 == 1 }

  function InGroup(id: string, group: set<string>): Game -> bool { (g: Game) => Internal(g, id, group) }

  function AgainstTopHalf(ctx: Context): Game -> bool {
    (g: Game) => OnBoard(g) && PointsOf(ctx, g.opponentId.value) >= ctx.totalRounds
  }

  /** A player's record: two half points a win, one a draw. */
  lemma {:induction false} ScoredIsWinsAndDraws(games: seq<Game>)
    requires Proper(games)
    ensures Scored(games) == 2 * CountGames(games, IsWin) + CountGames(games, IsDraw)
  {
    if games != [] { ScoredIsWinsAndDraws(games[..|games| - 1]); }
  }

  /** What Direct Encounter measures: wins and draws over the board against others of the group. */
  lemma {:induction false} InternalIsWinsAndDraws(games: seq<Game>, id: string, group: set<string>)
    requires Proper(games)
    ensures InternalScore(games, id, group) ==
            2 * CountGames(games, And(InGroup(id, group), IsWin)) + CountGames(games, And(InGroup(id, group), IsDraw))
  {
    if games != [] { InternalIsWinsAndDraws(games[..|games| - 1], id, group); }
  }

  /** What Koya measures: wins and draws over the board against those who made half of the possible points. */
  lemma {:induction false} KoyaIsWinsAndDraws(games: seq<Game>, ctx: Context)
    requires Proper(games)
    ensures KoyaOf(games, ctx) ==
            2 * CountGames(games, And(AgainstTopHalf(ctx), IsWin)) + CountGames(games, And(AgainstTopHalf(ctx), IsDraw))
  {
    if games != [] { KoyaIsWinsAndDraws(games[..|games| - 1], ctx); }
  }

  /**
   Each win against an opponent counts, played or by forfeit, and no free point, draw or loss; each game
   with Black over the board counts, whatever its result, and none that was not played.
   */
  lemma OneMoreGameCounts(games: seq<Game>, g: Game)
    ensures CountGames(games + [g], Won) ==
            CountGames(games, Won) + if g.result2 == 2 && g.opponentId.Some? then 1 else 0
    ensures CountGames(games + [g], PlayedBlack) ==
            CountGames(games, PlayedBlack) + if g.playedOverBoard && g.colour == Some(Black) then 1 else 0
  {
    assert (games + [g])[..|games|] == games;
  }

  /** The points of the opponents met over the board in the games of one kind. */
  function PointsAgainst(games: seq<Game>, ctx: Context, counts: Game -> bool): int {
    if games == [] then 0
    else
      var last := games[|games| - 1];
      PointsAgainst(games[..|games| - 1], ctx, counts)
      + if OnBoard(last) && counts(last) then PointsOf(ctx, last.opponentId.value) else 0
  }

  /** Sonneborn-Berger counts the points of beaten opponents twice and of those held to a draw once. */
  lemma {:induction false} SonnebornBergerIs(games: seq<Game>, ctx: Context)
    requires Proper(games)
    ensures SonnebornBergerOf(games, ctx) == 2 * PointsAgainst(games, ctx, IsWin) + PointsAgainst(games, ctx, IsDraw)
  {
    if games != [] {
      SonnebornBergerIs(games[..|games| - 1], ctx);
      var last := games[|games| - 1];
      assert last.result2 in {0, 1, 2};
    }
  }

  // ---------------------------------------------------------------------------------------
  //  Buchholz
  // ---------------------------------------------------------------------------------------

  lemma {:induction false} ScoredConcat(a: seq<Game>, b: seq<Game>)
    ensures Scored(a + b) == Scored(a) + Scored(b)
  {
    if b == [] {
      assert a + b == a;
    } else {
      ScoredConcat(a, b[..|b| - 1]);
      assert (a + b)[..|a + b| - 1] == a + b[..|b| - 1];
    }
  }

  function Drawn(): Game { Game(None, None, 1, false) }

  lemma {:induction false} ScoredDraws(n: nat)
    ensures Scored(seq(n, _ => Drawn())) == n
  {
    var draws := seq(n, _ => Drawn());
    if n > 0 {
      ScoredDraws(n - 1);
      assert draws[..n - 1] == seq(n - 1, _ => Drawn());
    }
  }

  /**
   The record of the virtual opponent of an unplayed round: up to that round the player's own, in the
   round what the player did not get, and a draw in every round that follows.
   */
  function VirtualRecord(games: seq<Game>, i: nat, rounds: nat): seq<Game>
    requires i < |games| <= rounds
  {
    games[..i] + [games[i].(result2 := 2 - games[i].result2)] + seq(rounds - (i + 1), _ => Drawn())
  }

  /** A round counts with the final points of the opponent met over the board, else with the virtual record's. */
  lemma ContributionIs(players: seq<Player>, p: Player, i: nat)
    requires DistinctIds(players) && p in players && i < |p.games| <= Rounds(players)
    ensures var ctx, g := ContextOf(players), p.games[i];
            && (OnBoard(g) ==>
                forall q :: q in players && q.playerId == g.opponentId.value ==>
                  Contribution(p.games, i, ctx) == q.points2)
            && (!OnBoard(g) ==>
                && |VirtualRecord(p.games, i, ctx.totalRounds)| == ctx.totalRounds
                && Contribution(p.games, i, ctx) == Scored(VirtualRecord(p.games, i, ctx.totalRounds)))
  {
    var ctx, g := ContextOf(players), p.games[i];
    if OnBoard(g) {
      forall q | q in players && q.playerId == g.opponentId.value ensures PointsOf(ctx, q.playerId) == q.points2 {
        PointsAreFinal(players, q);
      }
    } else {
      var late := seq(ctx.totalRounds - (i + 1), _ => Drawn());
      var turn := [g.(result2 := 2 - g.result2)];
      ScoredConcat(p.games[..i] + turn, late);
      ScoredConcat(p.games[..i], turn);
      ScoredDraws(ctx.totalRounds - (i + 1));
      assert turn[..0] == [] && Scored(turn) == 2 - g.result2;
    }
  }

  lemma PointsAreFinal(players: seq<Player>, q: Player)
    requires DistinctIds(players) && q in players
    ensures PointsOf(ContextOf(players), q.playerId) == q.points2
  {
    ByIdHolds(players);
    var j :| 0 <= j < |players| && players[j] == q;
  }

  // ---------------------------------------------------------------------------------------
  //  The average rating of the opponents
  // ---------------------------------------------------------------------------------------

  /** The average lies between any bounds on the ratings that count, and is 0 if none counts. */
  lemma AroIsAverage(games: seq<Game>, ctx: Context, unrated: Option<int>, low: int, high: int)
    requires forall i :: 0 <= i < |games| && OpponentRating(games[i], ctx, unrated).Some? ==>
            low <= OpponentRating(games[i], ctx, unrated).value <= high
    ensures if forall i :: 0 <= i < |games| ==> OpponentRating(games[i], ctx, unrated).None?
            then AroOf(games, ctx, unrated) == 0.0
            else low as real <= AroOf(games, ctx, unrated) <= high as real
  {
    RatingSumBounds(games, ctx, unrated, low, high);
    var (sum, count) := RatingSum(games, ctx, unrated);
    if count > 0 { AverageBounds(sum, count, low, high); }
  }

  lemma AverageBounds(sum: int, count: nat, low: int, high: int)
    requires count > 0 && low * count <= sum <= high * count
    ensures low as real <= sum as real / count as real <= high as real
  {
    var c, s := count as real, sum as real;
    assert (low * count) as real == low as real * c;
    assert (high * count) as real == high as real * c;
    var q := s / c;
    assert q * c == s;
  }

  lemma {:induction false} RatingSumBounds(games: seq<Game>, ctx: Context, unrated: Option<int>, low: int, high: int)
    requires forall i :: 0 <= i < |games| && OpponentRating(games[i], ctx, unrated).Some? ==>
            low <= OpponentRating(games[i], ctx, unrated).value <= high
    ensures var (sum, count) := RatingSum(games, ctx, unrated);
            && low * count <= sum <= high * count
            && (count == 0 <==> forall i :: 0 <= i < |games| ==> OpponentRating(games[i], ctx, unrated).None?)
  {
    if games != [] {
      var front := games[..|games| - 1];
      assert forall i :: 0 <= i < |front| ==> front[i] == games[i];
      RatingSumBounds(front, ctx, unrated, low, high);
      var (sum, count) := RatingSum(front, ctx, unrated);
      assert low * (count + 1) == low * count + low && high * (count + 1) == high * count + high;
    }
  }

  /** An opponent met over the board counts with its own rating, else with the configured one, else not at all. */
  lemma OpponentRatingIs(players: seq<Player>, g: Game, unrated: Option<int>)
    requires DistinctIds(players)
    ensures !OnBoard(g) ==> OpponentRating(g, ContextOf(players), unrated) == None
    ensures forall q :: q in players && OnBoard(g) && g.opponentId == Some(q.playerId) ==>
              OpponentRating(g, ContextOf(players), unrated) == if q.rating.Some? then q.rating else unrated
  {
    forall q | q in players && OnBoard(g) && g.opponentId == Some(q.playerId)
      ensures OpponentRating(g, ContextOf(players), unrated) == if q.rating.Some? then q.rating else unrated
    {
      ByIdHolds(players);
      var j :| 0 <= j < |players| && players[j] == q;
    }
  }

  /** The data is accepted exactly if every game over the board names an opponent and every opponent is a player. */
  lemma AcceptedIff(players: seq<Player>)
    ensures GamesKnown(players) <==>
            forall i, j :: 0 <= i < |players| && 0 <= j < |players[i].games| ==>
              OpponentKnown(players, players[i].games[j])
  {
    ByIdHolds(players);
    if GamesKnown(players) {
      forall i, j | 0 <= i < |players| && 0 <= j < |players[i].games|
        ensures OpponentKnown(players, players[i].games[j])
      {
        assert ErrorAt(players, i, j) == None;
      }
    }
    if forall i, j :: 0 <= i < |players| && 0 <= j < |players[i].games| ==>
        OpponentKnown(players, players[i].games[j]) {
      forall i, j | 0 <= i < |players| && 0 <= j < |players[i].games| ensures ErrorAt(players, i, j) == None {
        assert OpponentKnown(players, players[i].games[j]);
      }
    }
  }

  ghost predicate OpponentKnown(players: seq<Player>, g: Game) {
    && (g.playedOverBoard ==> g.opponentId.Some?)
    && (g.opponentId.Some? ==> exists k :: 0 <= k < |players| && players[k].playerId == g.opponentId.value)
  }

  // ---------------------------------------------------------------------------------------
  //  Who has met whom
  // ---------------------------------------------------------------------------------------

  lemma {:induction false} MetIs(games: seq<Game>, id: string, group: set<string>, other: string)
    ensures other in Met(games, id, group) <==>
            exists i :: 0 <= i < |games| && Internal(games[i], id, group) && games[i].opponentId == Some(other)
    ensures Met(games, id, group) <= group - {id}
  {
    if games != [] {
      var front, last := games[..|games| - 1], games[|games| - 1];
      MetIs(front, id, group, other);
      if other in Met(front, id, group) {
        var i :| 0 <= i < |front| && Internal(front[i], id, group) && front[i].opponentId == Some(other);
        assert games[i] == front[i];
      }
    }
  }

  lemma SubsetOfSameSize(a: set<string>, b: set<string>)
    requires a <= b && |a| >= |b|
    ensures a == b
  {
    assert |b - a| == |b| - |a|;
  }

  /** Counting heads is enough: a member has met as many as there are others exactly if it has met each of them. */
  lemma MetAllMeansEach(p: Player, group: set<string>)
    requires p.playerId in group
    ensures MetAll(p, group) <==>
            forall other :: other in group && other != p.playerId ==> other in Met(p.games, p.playerId, group)
  {
    var met, others := Met(p.games, p.playerId, group), group - {p.playerId};
    MetIs(p.games, p.playerId, group, p.playerId);
    assert |others| == |group| - 1;
    if MetAll(p, group) { SubsetOfSameSize(met, others); }
    if forall other :: other in others ==> other in met { assert met == others; }
  }
}
