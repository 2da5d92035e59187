/**
 Tie-breaks and the final ranking of a section.

 All points are integers in half-point units. Players on equal points are compared key by key; a
 key that does not apply to one of the two is skipped. Such a rule need not be transitive. Here
 it is, because the only key that can fail to apply fails for all players on those points or for
 none of them.
 */
module TieBreak {
  import opened Wrappers
  import opened Sorting

  datatype Colour = White | Black

  /** One round of one player; `result2` is 2 for a win, 1 for a draw, 0 for a loss. */
  datatype Game = Game(opponentId: Option<string>, colour: Option<Colour>, result2: int, playedOverBoard: bool)

  datatype Player = Player(playerId: string, points2: int, rating: Option<int>, games: seq<Game>)

  datatype Key =
    | Buchholz
    | BuchholzCut1
    | MedianBuchholz
    | SonnebornBerger
    | DirectEncounter
    | Cumulative
    | Aro
    | Koya
    | Wins
    | BlackGames

  datatype DataError =
      DuplicatePlayer(id: string) | GameWithoutOpponent(id: string) | UnknownOpponent(id: string, opponentId: string)

  /** What the keys are computed from: the players by id and the number of rounds. */
  datatype Context = Context(byId: map<string, Player>, totalRounds: int)

  // ---------------------------------------------------------------------------------------
  //  Context
  // ---------------------------------------------------------------------------------------

  function ById(players: seq<Player>): map<string, Player> {
    if players == [] then map[]
    else ById(players[..|players| - 1])[players[|players| - 1].playerId := players[|players| - 1]]
  }

  function Rounds(players: seq<Player>): int {
    if players == [] then 0
    else
      var before := Rounds(players[..|players| - 1]);
      if |players[|players| - 1].games| > before then |players[|players| - 1].games| else before
  }

  function ContextOf(players: seq<Player>): Context { Context(ById(players), Rounds(players)) }

  function GameError(byId: map<string, Player>, id: string, g: Game): Option<DataError> {
    if g.playedOverBoard && g.opponentId.None? then Some(GameWithoutOpponent(id))
    else if g.opponentId.Some? && g.opponentId.value !in byId then Some(UnknownOpponent(id, g.opponentId.value))
    else None
  }

  ghost predicate DistinctIds(players: seq<Player>) {
    forall i, j :: 0 <= i < j < |players| ==> players[i].playerId != players[j].playerId
  }

  ghost predicate GamesKnown(players: seq<Player>) {
    forall i, j :: 0 <= i < |players| && 0 <= j < |players[i].games| ==> ErrorAt(players, i, j) == None
  }

  lemma {:induction false} ByIdHolds(players: seq<Player>)
    ensures forall id :: id in ById(players) <==> exists i :: 0 <= i < |players| && players[i].playerId == id
    ensures DistinctIds(players) ==> forall i :: 0 <= i < |players| ==>
            players[i].playerId in ById(players) && ById(players)[players[i].playerId] == players[i]
  {
    if players != [] {
      var front, last := players[..|players| - 1], players[|players| - 1];
      ByIdHolds(front);
      forall id ensures id in ById(players) <==> exists i :: 0 <= i < |players| && players[i].playerId == id {
        if id in ById(front) {
          var i :| 0 <= i < |front| && front[i].playerId == id;
          assert players[i].playerId == id;
        }
        if exists i :: 0 <= i < |players| && players[i].playerId == id {
          var i :| 0 <= i < |players| && players[i].playerId == id;
          assert i == |front| || front[i].playerId == id;
        }
      }
      if DistinctIds(players) {
        forall i | 0 <= i < |players|
          ensures players[i].playerId in ById(players) && ById(players)[players[i].playerId] == players[i]
        {
          if i < |front| { assert front[i] == players[i]; }
        }
      }
    }
  }

  lemma ContextSnoc(players: seq<Player>, p: Player)
    ensures ById(players + [p]) == ById(players)[p.playerId := p]
    ensures Rounds(players + [p]) == if |p.games| > Rounds(players) then |p.games| else Rounds(players)
  {
    assert (players + [p])[..|players|] == players;
  }

  lemma DistinctSnoc(players: seq<Player>, p: Player)
    requires DistinctIds(players)
    ensures DistinctIds(players + [p]) <==> p.playerId !in ById(players)
  {
    ByIdHolds(players);
    var more := players + [p];
    if p.playerId in ById(players) {
      var j :| 0 <= j < |players| && players[j].playerId == p.playerId;
      assert more[j].playerId == more[|players|].playerId;
    } else {
      assert forall j :: 0 <= j < |players| ==> more[j].playerId != p.playerId;
    }
  }

  lemma DistinctPrefix(players: seq<Player>, k: nat)
    requires k <= |players| && DistinctIds(players)
    ensures DistinctIds(players[..k])
  {
  }

  /** The first player whose id occurred before. */
  ghost predicate FirstDuplicate(players: seq<Player>, j: int) {
    0 <= j < |players| && DistinctIds(players[..j]) && !DistinctIds(players[..j + 1])
  }

  function ErrorAt(players: seq<Player>, i: int, j: int): Option<DataError>
    requires 0 <= i < |players| && 0 <= j < |players[i].games|
  {
    GameError(ById(players), players[i].playerId, players[i].games[j])
  }

  /** The first game, by player and then by round, that is inconsistent. */
  ghost predicate FirstBadGame(players: seq<Player>, i: int, j: int) {
    && 0 <= i < |players| && 0 <= j < |players[i].games| && ErrorAt(players, i, j).Some?
    && (forall a, b :: 0 <= a < i && 0 <= b < |players[a].games| ==> ErrorAt(players, a, b) == None)
    && (forall b :: 0 <= b < j ==> ErrorAt(players, i, b) == None)
  }

  /** The error is the one of the first duplicate, or else of the first inconsistent game. */
  ghost predicate ReportsFirst(players: seq<Player>, e: DataError) {
    if DistinctIds(players) then exists i, j :: FirstBadGame(players, i, j) && ErrorAt(players, i, j) == Some(e)
    else exists j :: FirstDuplicate(players, j) && e == DuplicatePlayer(players[j].playerId)
  }

  method CollectPlayers(players: seq<Player>) returns (r: Result<Context, DataError>)
    ensures r.Ok? <==> DistinctIds(players)
    ensures r.Ok? ==> r.value == ContextOf(players)
    ensures r.Err? ==> exists j :: FirstDuplicate(players, j) && r.error == DuplicatePlayer(players[j].playerId)
  {
    var byId: map<string, Player> := map[];
    var totalRounds := 0;
    for i := 0 to |players|
      invariant byId == ById(players[..i]) && totalRounds == Rounds(players[..i])
      invariant DistinctIds(players[..i])
    {
      var p := players[i];
      assert players[..i + 1] == players[..i] + [p];
      ContextSnoc(players[..i], p);
      DistinctSnoc(players[..i], p);
      if p.playerId in byId {
        if DistinctIds(players) { DistinctPrefix(players, i + 1); }
        assert FirstDuplicate(players, i);
        return Err(DuplicatePlayer(p.playerId));
      }
      byId := byId[p.playerId := p];
      if |p.games| > totalRounds { totalRounds := |p.games|; }
    }
    assert players[..|players|] == players;
    return Ok(Context(byId, totalRounds));
  }

  method CheckGames(players: seq<Player>, byId: map<string, Player>) returns (found: Option<DataError>)
    requires byId == ById(players)
    ensures found.None? <==> GamesKnown(players)
    ensures found.Some? ==> exists i, j :: FirstBadGame(players, i, j) && ErrorAt(players, i, j) == found
  {
    for i := 0 to |players|
      invariant forall a, b :: 0 <= a < i && 0 <= b < |players[a].games| ==> ErrorAt(players, a, b) == None
    {
      var p := players[i];
      for j := 0 to |p.games|
        invariant forall b :: 0 <= b < j ==> ErrorAt(players, i, b) == None
      {
        var error := GameError(byId, p.playerId, p.games[j]);
        if error.Some? {
          assert FirstBadGame(players, i, j) && ErrorAt(players, i, j) == error;
          return error;
        }
      }
    }
    return None;
  }

  /** Collects the players and checks the data; succeeds exactly on consistent input. */
  method BuildContext(players: seq<Player>) returns (r: Result<Context, DataError>)
    ensures r.Ok? <==> DistinctIds(players) && GamesKnown(players)
    ensures r.Ok? ==> r.value == ContextOf(players)
    ensures r.Err? ==> ReportsFirst(players, r.error)
  {
    r := CollectPlayers(players);
    if r.Ok? {
      var error := CheckGames(players, r.value.byId);
      if error.Some? { return Err(error.value); }
    }
  }

  // ---------------------------------------------------------------------------------------
  //  The keys
  // ---------------------------------------------------------------------------------------

  function PointsOf(ctx: Context, id: string): int { if id in ctx.byId then ctx.byId[id].points2 else 0 }

  predicate OnBoard(g: Game) { g.playedOverBoard && g.opponentId.Some? }

  function Sum(xs: seq<int>): int { if xs == [] then 0 else Sum(xs[..|xs| - 1]) + xs[|xs| - 1] }

  function Scored(games: seq<Game>): int {
    if games == [] then 0 else Scored(games[..|games| - 1]) + games[|games| - 1].result2
  }

  /** An unplayed round counts as a game against a virtual opponent who draws the remaining rounds. */
  function Contribution(games: seq<Game>, i: nat, ctx: Context): int
    requires i < |games|
  {
    if OnBoard(games[i]) then PointsOf(ctx, games[i].opponentId.value)
    else Scored(games[..i]) + (2 - games[i].result2) + (ctx.totalRounds - (i + 1))
  }

  function Contributions(games: seq<Game>, ctx: Context): (c: seq<int>)
    ensures |c| == |games|
  {
    seq(|games|, i requires 0 <= i < |games| => Contribution(games, i, ctx))
  }

  method BuchholzContributions(games: seq<Game>, ctx: Context) returns (c: seq<int>)
    ensures c == Contributions(games, ctx)
  {
    c := [];
    var before := 0;
    for i := 0 to |games|
      invariant |c| == i && before == Scored(games[..i])
      invariant forall k :: 0 <= k < i ==> c[k] == Contribution(games, k, ctx)
    {
      var game := games[i];
      assert games[..i + 1][..i] == games[..i];
      if game.playedOverBoard && game.opponentId.Some? {
        c := c + [PointsOf(ctx, game.opponentId.value)];
      } else {
        c := c + [before + (2 - game.result2) + (ctx.totalRounds - (i + 1))];
      }
      before := before + game.result2;
    }
  }

  function IntOrder(): (int, int) -> bool { (a: int, b: int) => a <= b }

  function Cut(c: seq<int>, low: nat, high: nat): int {
    if |c| <= low + high then 0 else Sum(Sort(IntOrder(), c)[low..|c| - high])
  }

  method BuchholzCut(c: seq<int>, low: nat, high: nat) returns (total: int)
    ensures total == Cut(c, low, high)
  {
    if |c| <= low + high { return 0; }
    var sorted := Sort(IntOrder(), c);
    total := 0;
    for i := low to |sorted| - high
      invariant total == Sum(sorted[low..i])
    {
      assert sorted[low..i + 1][..i - low] == sorted[low..i];
      total := total + sorted[i];
    }
  }

  function SonnebornBergerOf(games: seq<Game>, ctx: Context): int {
    if games == [] then 0
    else
      var last := games[|games| - 1];
      SonnebornBergerOf(games[..|games| - 1], ctx)
          + if OnBoard(last) then PointsOf(ctx, last.opponentId.value) * last.result2 else 0
  }

  function CumulativeOf(games: seq<Game>): int {
    if games == [] then 0 else CumulativeOf(games[..|games| - 1]) + Scored(games)
  }

  method CumulativeLoop(games: seq<Game>) returns (total: int)
    ensures total == CumulativeOf(games)
  {
    var running := 0;
    total := 0;
    for i := 0 to |games|
      invariant running == Scored(games[..i]) && total == CumulativeOf(games[..i])
    {
      assert games[..i + 1][..i] == games[..i];
      running := running + games[i].result2;
      total := total + running;
    }
    assert games[..|games|] == games;
  }

  function KoyaOf(games: seq<Game>, ctx: Context): int {
    if games == [] then 0
    else
      var last := games[|games| - 1];
      KoyaOf(games[..|games| - 1], ctx)
      + if OnBoard(last) && PointsOf(ctx, last.opponentId.value) >= ctx.totalRounds then last.result2 else 0
  }

  function CountGames(games: seq<Game>, counts: Game -> bool): nat {
    if games == [] then 0 else CountGames(games[..|games| - 1], counts) + if counts(games[|games| - 1]) then 1 else 0
  }

  /** The rating an opponent contributes to the average: its own, else the configured one, else none. */
  function OpponentRating(g: Game, ctx: Context, unrated: Option<int>): Option<int> {
    if !OnBoard(g) then None
    else if g.opponentId.value in ctx.byId && ctx.byId[g.opponentId.value].rating.Some?
      then ctx.byId[g.opponentId.value].rating
    else unrated
  }

  function RatingSum(games: seq<Game>, ctx: Context, unrated: Option<int>): (int, nat) {
    if games == [] then (0, 0)
    else
      var (sum, count) := RatingSum(games[..|games| - 1], ctx, unrated);
      match OpponentRating(games[|games| - 1], ctx, unrated)
      case None => (sum, count)
      case Some(rating) => (sum + rating, count + 1)
  }

  function AroOf(games: seq<Game>, ctx: Context, unrated: Option<int>): real {
    var (sum, count) := RatingSum(games, ctx, unrated);
    if count == 0 then 0.0 else sum as real / count as real
  }

  // ---------------------------------------------------------------------------------------
  //  Direct encounter
  // ---------------------------------------------------------------------------------------

  /** The ids of all players on the same points. */
  function GroupIds(ctx: Context, points2: int): set<string> {
    set id | id in ctx.byId && ctx.byId[id].points2 == points2
  }

  /** A game that counts in the mini-tournament of a group. */
  predicate Internal(g: Game, id: string, group: set<string>) {
    g.playedOverBoard && g.opponentId.Some? && g.opponentId.value != id && g.opponentId.value in group
  }

  function Met(games: seq<Game>, id: string, group: set<string>): set<string> {
    if games == [] then {}
    else
      var last := games[|games| - 1];
      Met(games[..|games| - 1], id, group) + if Internal(last, id, group) then {last.opponentId.value} else {}
  }

  function InternalScore(games: seq<Game>, id: string, group: set<string>): int {
    if games == [] then 0
    else
      var last := games[|games| - 1];
      InternalScore(games[..|games| - 1], id, group) + if Internal(last, id, group) then last.result2 else 0
  }

  predicate MetAll(p: Player, group: set<string>) { |Met(p.games, p.playerId, group)| >= |group| - 1 }

  /** Every two players of the group have met over the board. */
  predicate Complete(ctx: Context, points2: int) {
    forall id :: id in GroupIds(ctx, points2) ==> MetAll(ctx.byId[id], GroupIds(ctx, points2))
  }

  function DirectEncounterOf(ctx: Context, p: Player): Option<int> {
    if Complete(ctx, p.points2) then Some(InternalScore(p.games, p.playerId, GroupIds(ctx, p.points2))) else None
  }

  method MeetGroup(p: Player, group: set<string>) returns (met: set<string>, score: int)
    ensures met == Met(p.games, p.playerId, group) && score == InternalScore(p.games, p.playerId, group)
  {
    met, score := {}, 0;
    for i := 0 to |p.games|
      invariant met == Met(p.games[..i], p.playerId, group) && score == InternalScore(p.games[..i], p.playerId, group)
    {
      var game := p.games[i];
      assert p.games[..i + 1][..i] == p.games[..i];
      if Internal(game, p.playerId, group) {
        met := met + {game.opponentId.value};
        score := score + game.result2;
      }
    }
    assert p.games[..|p.games|] == p.games;
  }

  ghost predicate AllMet(group: seq<Player>, memberIds: set<string>) {
    forall i :: 0 <= i < |group| ==> MetAll(group[i], memberIds)
  }

  function MiniScore(p: Player, memberIds: set<string>): int { InternalScore(p.games, p.playerId, memberIds) }

  ghost predicate ScoredUpTo(group: seq<Player>, memberIds: set<string>, scores: map<string, int>, k: nat)
    requires k <= |group|
  {
    forall i :: 0 <= i < k ==>
        group[i].playerId in scores && scores[group[i].playerId] == MiniScore(group[i], memberIds)
  }

  lemma OneMoreScored(group: seq<Player>, memberIds: set<string>, scores: map<string, int>, k: nat)
    requires DistinctIds(group) && k < |group| && ScoredUpTo(group, memberIds, scores, k)
    ensures ScoredUpTo(group, memberIds, scores[group[k].playerId := MiniScore(group[k], memberIds)], k + 1)
  {
  }

  /** Scores the group, stopping at the first player who has not met everybody. */
  method ScoreGroup(group: seq<Player>, memberIds: set<string>) returns (complete: bool, scores: map<string, int>)
    requires DistinctIds(group)
    ensures complete <==> AllMet(group, memberIds)
    ensures complete ==> ScoredUpTo(group, memberIds, scores, |group|)
  {
    scores := map[];
    for k := 0 to |group|
      invariant forall i :: 0 <= i < k ==> MetAll(group[i], memberIds)
      invariant ScoredUpTo(group, memberIds, scores, k)
    {
      var met, score := MeetGroup(group[k], memberIds);
      assert MetAll(group[k], memberIds) <==> |met| >= |memberIds| - 1;
      if |met| < |memberIds| - 1 {
        return false, scores;
      }
      OneMoreScored(group, memberIds, scores, k);
      scores := scores[group[k].playerId := score];
    }
    return true, scores;
  }

  /** What the group gets: a score for each member, or nothing for any. */
  ghost predicate Published(group: seq<Player>, memberIds: set<string>, out: map<string, Option<int>>) {
    forall i :: 0 <= i < |group| ==>
      group[i].playerId in out
      && out[group[i].playerId] == if AllMet(group, memberIds) then Some(MiniScore(group[i], memberIds)) else None
  }

  method EncounterOfGroup(group: seq<Player>, memberIds: set<string>, before: map<string, Option<int>>)
    returns (out: map<string, Option<int>>)
    requires DistinctIds(group)
    ensures Published(group, memberIds, out)
    ensures forall id :: id in before && (forall i :: 0 <= i < |group| ==> group[i].playerId != id) ==>
            id in out && out[id] == before[id]
  {
    var complete, scores := ScoreGroup(group, memberIds);
    out := before;
    for j := 0 to |group|
      invariant forall i :: 0 <= i < j ==>
        group[i].playerId in out && out[group[i].playerId] == if complete then Some(MiniScore(group[i], memberIds))
            else None
      invariant forall id :: id in before && (forall i :: 0 <= i < |group| ==> group[i].playerId != id) ==>
              id in out && out[id] == before[id]
    {
      out := out[group[j].playerId := if complete then Some(scores[group[j].playerId]) else None];
    }
  }

  function OnPoints(players: seq<Player>, points2: int): (group: seq<Player>)
    ensures forall p :: p in group <==> p in players && p.points2 == points2
  {
    if players == [] then []
    else
      var front := OnPoints(players[..|players| - 1], points2);
      var last := players[|players| - 1];
      assert forall p :: p in players <==> p in players[..|players| - 1] || p == last;
      if last.points2 == points2 then front + [last] else front
  }

  lemma {:induction false} OnPointsDistinct(players: seq<Player>, points2: int)
    requires DistinctIds(players)
    ensures DistinctIds(OnPoints(players, points2))
  {
    if players != [] {
      var front, last := players[..|players| - 1], players[|players| - 1];
      OnPointsDistinct(front, points2);
      forall p | p in front ensures p.playerId != last.playerId {
        var i :| 0 <= i < |front| && front[i] == p;
        assert players[i].playerId != players[|front|].playerId;
      }
    }
  }

  lemma GroupOfContext(players: seq<Player>, points2: int)
    requires DistinctIds(players)
    ensures GroupIds(ContextOf(players), points2) == set p | p in OnPoints(players, points2) :: p.playerId
    ensures Complete(ContextOf(players), points2) <==>
            AllMet(OnPoints(players, points2), GroupIds(ContextOf(players), points2))
  {
    var ctx, group := ContextOf(players), OnPoints(players, points2);
    ByIdHolds(players);
    forall id ensures id in GroupIds(ctx, points2) <==> exists p :: p in group && p.playerId == id {
      if id in GroupIds(ctx, points2) {
        var i :| 0 <= i < |players| && players[i].playerId == id;
        assert players[i] in group;
      }
      if exists p :: p in group && p.playerId == id {
        var p :| p in group && p.playerId == id;
        var i :| 0 <= i < |players| && players[i] == p;
      }
    }
    if AllMet(group, GroupIds(ctx, points2)) {
      forall id | id in GroupIds(ctx, points2) ensures MetAll(ctx.byId[id], GroupIds(ctx, points2)) {
        var i :| 0 <= i < |players| && players[i].playerId == id;
        assert players[i] in group;
        var j :| 0 <= j < |group| && group[j] == players[i];
      }
    }
    if Complete(ctx, points2) {
      forall j | 0 <= j < |group| ensures MetAll(group[j], GroupIds(ctx, points2)) {
        assert group[j] in group;
        var i :| 0 <= i < |players| && players[i] == group[j];
        assert players[i].playerId in GroupIds(ctx, points2);
      }
    }
  }

  ghost predicate GroupedBy(players: seq<Player>, groups: map<int, seq<Player>>, order: seq<int>) {
    && (forall points2 :: points2 in groups ==> groups[points2] == OnPoints(players, points2))
    && (forall points2 :: points2 !in groups ==> OnPoints(players, points2) == [])
    && (forall points2 :: points2 in groups ==> points2 in order)
    && (forall i :: 0 <= i < |order| ==> order[i] in groups)
  }

  lemma OnPointsSnoc(players: seq<Player>, p: Player, points2: int)
    ensures OnPoints(players + [p], points2) == if p.points2 == points2 then OnPoints(players, points2) + [p]
            else OnPoints(players, points2)
  {
    assert (players + [p])[..|players|] == players;
  }

  function Grown(groups: map<int, seq<Player>>, p: Player): map<int, seq<Player>> {
    groups[p.points2 := if p.points2 in groups then groups[p.points2] + [p] else [p]]
  }

  lemma GroupedSnoc(players: seq<Player>, p: Player, groups: map<int, seq<Player>>, order: seq<int>)
    requires GroupedBy(players, groups, order)
    ensures GroupedBy(players + [p], Grown(groups, p), if p.points2 in groups then order else order + [p.points2])
  {
    var grown := Grown(groups, p);
    forall points2
      ensures points2 in grown ==> grown[points2] == OnPoints(players + [p], points2)
      ensures points2 !in grown ==> OnPoints(players + [p], points2) == []
    {
      OnPointsSnoc(players, p, points2);
    }
  }

  lemma GroupedUpTo(players: seq<Player>, i: nat, groups: map<int, seq<Player>>, order: seq<int>)
    requires i < |players| && GroupedBy(players[..i], groups, order)
    ensures var p := players[i];
            GroupedBy(players[..i + 1], Grown(groups, p), if p.points2 in groups then order else order + [p.points2])
  {
    assert players[..i + 1] == players[..i] + [players[i]];
    GroupedSnoc(players[..i], players[i], groups, order);
  }

  method GroupByPoints(players: seq<Player>) returns (groups: map<int, seq<Player>>, order: seq<int>)
    ensures GroupedBy(players, groups, order)
  {
    groups, order := map[], [];
    assert GroupedBy(players[..0], groups, order) by { assert players[..0] == []; }
    for i := 0 to |players|
      invariant GroupedBy(players[..i], groups, order)
    {
      var p := players[i];
      GroupedUpTo(players, i, groups, order);
      groups, order := Grown(groups, p), if p.points2 in groups then order else order + [p.points2];
    }
    assert players[..|players|] == players;
  }

  /** The key is settled for everybody on one of the given points. */
  ghost predicate SettledFor(players: seq<Player>, points: seq<int>, out: map<string, Option<int>>) {
    forall p :: p in players && p.points2 in points ==>
        p.playerId in out && out[p.playerId] == DirectEncounterOf(ContextOf(players), p)
  }

  lemma OneMoreSettled(
    players: seq<Player>, points: seq<int>, points2: int, before: map<string, Option<int>>,
    out: map<string, Option<int>>)
    requires DistinctIds(players) && SettledFor(players, points, before)
    requires Published(OnPoints(players, points2), GroupIds(ContextOf(players), points2), out)
    requires var group := OnPoints(players, points2);
             forall id :: id in before && (forall i :: 0 <= i < |group| ==> group[i].playerId != id) ==>
                 id in out && out[id] == before[id]
    ensures SettledFor(players, points + [points2], out)
  {
    var group := OnPoints(players, points2);
    GroupOfContext(players, points2);
    forall p | p in players && p.points2 in points + [points2]
      ensures p.playerId in out && out[p.playerId] == DirectEncounterOf(ContextOf(players), p)
    {
      if p.points2 == points2 {
        assert p in group;
        var j :| 0 <= j < |group| && group[j] == p;
      } else {
        assert p.points2 in points;
        forall i | 0 <= i < |group| ensures group[i].playerId != p.playerId {
          assert group[i] in group;
          SameIdSamePlayer(players, group[i], p);
        }
      }
    }
  }

  /** The key as the source computes it: group by points, then one mini-tournament per group. */
  method DirectEncounters(players: seq<Player>) returns (out: map<string, Option<int>>)
    requires DistinctIds(players)
    ensures forall p :: p in players ==>
            p.playerId in out && out[p.playerId] == DirectEncounterOf(ContextOf(players), p)
  {
    var groups, order := GroupByPoints(players);
    out := map[];
    for k := 0 to |order|
      invariant SettledFor(players, order[..k], out)
    {
      assert order[..k + 1] == order[..k] + [order[k]];
      var group := groups[order[k]];
      OnPointsDistinct(players, order[k]);
      GroupOfContext(players, order[k]);
      ghost var before := out;
      out := EncounterOfGroup(group, set p: Player | p in group :: p.playerId, out);
      OneMoreSettled(players, order[..k], order[k], before, out);
    }
    assert order[..|order|] == order;
    forall p | p in players ensures p.points2 in order {
      assert p in OnPoints(players, p.points2);
    }
  }

  lemma SameIdSamePlayer(players: seq<Player>, p: Player, q: Player)
    requires DistinctIds(players) && p in players && q in players
    ensures p.playerId == q.playerId ==> p == q
  {
    var i :| 0 <= i < |players| && players[i] == p;
    var j :| 0 <= j < |players| && players[j] == q;
    if i < j { assert players[i].playerId != players[j].playerId; }
    if j < i { assert players[j].playerId != players[i].playerId; }
  }
}
