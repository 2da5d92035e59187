/**
 One rating period: every player is computed at once from the snapshot at its start, and the
 period can be recomputed later from the history it left behind.

 The calculator is a parameter; only what surrounds it is modelled here.
 */
module RatingPeriod {
  import opened Wrappers
  import opened Sorting
  import opened StringOrder
  import Glicko2
  import opened Glicko2Update

  datatype GameResult = WhiteWin | BlackWin | Draw

  datatype RatedGame = RatedGame(pairingId: string, whitePlayerId: string, blackPlayerId: string, result: GameResult)

  datatype Side = White | Black

  datatype PlayerGame = PlayerGame(pairingId: string, opponentId: string, score: real)

  datatype State = State(snapshot: Snapshot, gamesPlayed: int, isProvisional: bool, peakRating: Option<int>)

  const DEFAULT_STATE := State(Snapshot(1500.0, 350.0, 0.06), 0, true, None)

  datatype InputGame =
      InputGame(pairingId: string, opponentId: string, opponentRating: real, opponentRd: real, score: real)

  datatype PlayerResult = PlayerResult(
    playerId: string, before: Snapshot, after: Snapshot, gamesInPeriod: nat, gamesPlayedTotal: int,
    isProvisional: bool, peakRating: Option<int>, peakChanged: bool, inputGames: seq<InputGame>)

  /** The calculator as it is called, and where it converges. */
  type PartialCalculator = (Snapshot, seq<Outcome>) -> Result<Snapshot, Glicko2.ConvergenceError>

  type Calculator = (Snapshot, seq<Outcome>) -> Snapshot

  function Total(glicko: PartialCalculator): Calculator {
    (s: Snapshot, o: seq<Outcome>) => match glicko(s, o) case Ok(after) => after case Err(_) => s
  }

  function ScoreFor(result: GameResult, side: Side): real {
    match result
    case Draw => 0.5
    case WhiteWin => if side == White then 1.0 else 0.0
    case BlackWin => if side == White then 0.0 else 1.0
  }

  predicate IsEstablished(gamesPlayed: int, deviation: real) { gamesPlayed >= 8 && deviation <= 110.0 }

  // ---------------------------------------------------------------------------------------
  //  Games by player
  // ---------------------------------------------------------------------------------------

  /** The entries of one game for one player: as White, as Black, or, against himself, both. */
  function EntriesOf(g: RatedGame, id: string): seq<PlayerGame> {
    (if id == g.whitePlayerId then [AsWhite(g)] else []) + (if id == g.blackPlayerId then [AsBlack(g)] else [])
  }

  function Entries(games: seq<RatedGame>, id: string): seq<PlayerGame> {
    if games == [] then [] else EntriesOf(games[0], id) + Entries(games[1..], id)
  }

  function ByPairing(): (PlayerGame, PlayerGame) -> bool {
    (a: PlayerGame, b: PlayerGame) => AtMost(a.pairingId, b.pairingId)
  }

  function ByPairingId(): (RatedGame, RatedGame) -> bool {
    (a: RatedGame, b: RatedGame) => AtMost(a.pairingId, b.pairingId)
  }

  function GamesOf(games: seq<RatedGame>, id: string): seq<PlayerGame> { Sort(ByPairing(), Entries(games, id)) }

  function Players(games: seq<RatedGame>): set<string> {
    (set g | g in games :: g.whitePlayerId) + (set g | g in games :: g.blackPlayerId)
  }

  function Own(byPlayer: map<string, seq<PlayerGame>>, id: string): seq<PlayerGame> {
    if id in byPlayer then byPlayer[id] else []
  }

  function Pushed(byPlayer: map<string, seq<PlayerGame>>, id: string, game: PlayerGame): map<string, seq<PlayerGame>> {
    byPlayer[id := Own(byPlayer, id) + [game]]
  }

  ghost predicate Collected(byPlayer: map<string, seq<PlayerGame>>, games: seq<RatedGame>) {
    byPlayer.Keys == Players(games) && forall id :: Own(byPlayer, id) == Entries(games, id)
  }

  lemma OwnPushed(byPlayer: map<string, seq<PlayerGame>>, pushed: string, game: PlayerGame, id: string)
    ensures Own(Pushed(byPlayer, pushed, game), id) == Own(byPlayer, id) + if id == pushed then [game] else []
    ensures Pushed(byPlayer, pushed, game).Keys == byPlayer.Keys + {pushed}
  {
    assert Own(byPlayer, id) + [] == Own(byPlayer, id);
  }

  lemma EntriesCons(g: RatedGame, games: seq<RatedGame>, id: string)
    ensures Entries([g] + games, id) == EntriesOf(g, id) + Entries(games, id)
  {
    assert ([g] + games)[1..] == games;
  }

  lemma {:induction false} EntriesConcat(a: seq<RatedGame>, b: seq<RatedGame>, id: string)
    ensures Entries(a + b, id) == Entries(a, id) + Entries(b, id)
  {
    if a == [] {
      assert a + b == b;
    } else {
      EntriesConcat(a[1..], b, id);
      HeadFirst(a, b);
      EntriesCons(a[0], a[1..] + b, id);
      Associate(EntriesOf(a[0], id), Entries(a[1..], id), Entries(b, id));
    }
  }

  lemma Associate<T>(a: seq<T>, b: seq<T>, c: seq<T>)
    ensures (a + b) + c == a + (b + c)
  {
  }

  lemma HeadFirst<T>(a: seq<T>, b: seq<T>)
    requires a != []
    ensures a + b == [a[0]] + (a[1..] + b)
  {
    assert a == [a[0]] + a[1..];
  }

  lemma OneGame(g: RatedGame, id: string)
    ensures Entries([g], id) == EntriesOf(g, id)
  {
    assert [g][1..] == [];
  }

  function AsWhite(g: RatedGame): PlayerGame { PlayerGame(g.pairingId, g.blackPlayerId, ScoreFor(g.result, White)) }

  function AsBlack(g: RatedGame): PlayerGame { PlayerGame(g.pairingId, g.whitePlayerId, ScoreFor(g.result, Black)) }

  function BothPushed(byPlayer: map<string, seq<PlayerGame>>, g: RatedGame): map<string, seq<PlayerGame>> {
    Pushed(Pushed(byPlayer, g.whitePlayerId, AsWhite(g)), g.blackPlayerId, AsBlack(g))
  }

  lemma OwnBothPushed(byPlayer: map<string, seq<PlayerGame>>, g: RatedGame, id: string)
    ensures Own(BothPushed(byPlayer, g), id) == Own(byPlayer, id) + EntriesOf(g, id)
    ensures BothPushed(byPlayer, g).Keys == byPlayer.Keys + {g.whitePlayerId, g.blackPlayerId}
  {
    OwnPushed(byPlayer, g.whitePlayerId, AsWhite(g), id);
    OwnPushed(Pushed(byPlayer, g.whitePlayerId, AsWhite(g)), g.blackPlayerId, AsBlack(g), id);
  }

  lemma PlayersSnoc(games: seq<RatedGame>, g: RatedGame)
    ensures Players(games + [g]) == Players(games) + {g.whitePlayerId, g.blackPlayerId}
  {
    var more := games + [g];
    forall h ensures h in more <==> h in games || h == g { }
    forall id ensures id in Players(more) <==> id in Players(games) + {g.whitePlayerId, g.blackPlayerId} {
      assert g in more;
    }
  }

  lemma CollectedStep(byPlayer: map<string, seq<PlayerGame>>, games: seq<RatedGame>, g: RatedGame)
    requires Collected(byPlayer, games)
    ensures Collected(BothPushed(byPlayer, g), games + [g])
  {
    PlayersSnoc(games, g);
    forall id ensures Own(BothPushed(byPlayer, g), id) == Entries(games + [g], id) {
      EntriesConcat(games, [g], id);
      OneGame(g, id);
      OwnBothPushed(byPlayer, g, id);
    }
    OwnBothPushed(byPlayer, g, g.whitePlayerId);
  }

  method GroupGamesByPlayer(games: seq<RatedGame>) returns (byPlayer: map<string, seq<PlayerGame>>)
    ensures byPlayer.Keys == Players(games)
    ensures forall id :: id in byPlayer ==> byPlayer[id] == GamesOf(games, id)
  {
    byPlayer := map[];
    for i := 0 to |games|
      invariant Collected(byPlayer, games[..i])
    {
      var g := games[i];
      assert games[..i + 1] == games[..i] + [g];
      CollectedStep(byPlayer, games[..i], g);
      byPlayer := Pushed(byPlayer, g.whitePlayerId, AsWhite(g));
      byPlayer := Pushed(byPlayer, g.blackPlayerId, AsBlack(g));
    }
    assert games[..|games|] == games;
    ghost var collected := byPlayer;
    var todo := byPlayer.Keys;
    while todo != {}
      invariant byPlayer.Keys == collected.Keys && todo <= byPlayer.Keys
      invariant forall id :: id in byPlayer ==>
              byPlayer[id] == if id in todo then collected[id] else Sort(ByPairing(), collected[id])
      decreases todo
    {
      var id :| id in todo;
      byPlayer := byPlayer[id := Sort(ByPairing(), byPlayer[id])];
      todo := todo - {id};
    }
    forall id | id in byPlayer ensures byPlayer[id] == GamesOf(games, id) {
      assert Own(collected, id) == Entries(games, id);
    }
  }

  // ---------------------------------------------------------------------------------------
  //  One player
  // ---------------------------------------------------------------------------------------

  function StateOf(states: map<string, State>, id: string): State { if id in states then states[id] else DEFAULT_STATE }

  function InputOf(states: map<string, State>, g: PlayerGame): InputGame {
    var opponent := StateOf(states, g.opponentId).snapshot;
    InputGame(g.pairingId, g.opponentId, opponent.rating, opponent.deviation, g.score)
  }

  function OutcomeOf(g: InputGame): Outcome { Outcome(Snapshot(g.opponentRating, g.opponentRd, 0.06), g.score) }

  function Inputs(states: map<string, State>, games: seq<PlayerGame>): (inputs: seq<InputGame>)
    ensures |inputs| == |games|
  {
    seq(|games|, i requires 0 <= i < |games| => InputOf(states, games[i]))
  }

  function Outcomes(inputs: seq<InputGame>): (outcomes: seq<Outcome>)
    ensures |outcomes| == |inputs|
  {
    seq(|inputs|, i requires 0 <= i < |inputs| => OutcomeOf(inputs[i]))
  }

  function Round(x: real): int { (x + 0.5).Floor }

  /** The part of a result that follows from the state, the new snapshot and the number of games. */
  function Settled(id: string, state: State, after: Snapshot, inputs: seq<InputGame>): PlayerResult {
    var total := state.gamesPlayed + |inputs|;
    var provisional := state.isProvisional && !IsEstablished(total, after.deviation);
    var candidate := Round(after.rating);
    var peakChanged := !provisional && (state.peakRating.None? || candidate > state.peakRating.value);
    PlayerResult(id, state.snapshot, after, |inputs|, total, provisional,
                 if peakChanged then Some(candidate) else state.peakRating, peakChanged, inputs)
  }

  function ResultOf(rate: Calculator, games: seq<RatedGame>, states: map<string, State>, id: string): PlayerResult {
    var state := StateOf(states, id);
    var inputs := Inputs(states, GamesOf(games, id));
    Settled(id, state, rate(state.snapshot, Outcomes(inputs)), inputs)
  }

  /** Whoever has no rating yet starts at 1500, as uncertain as a rating can be, provisional, without a game. */
  lemma NewPlayersStart(id: string)
    ensures var s := StateOf(map[], id);
            && s.snapshot == Snapshot(1500.0, 350.0, 0.06) && InRange(s.snapshot)
            && s.gamesPlayed == 0 && s.isProvisional && s.peakRating == None
  {
  }

  /** The nearest whole number, halves up. */
  lemma RoundIsNearest(x: real)
    ensures Round(x) as real - 0.5 <= x < Round(x) as real + 0.5
  {
  }

  /**
   What a period does to the counters: the games are added; an established player stays one, a provisional
   one becomes so exactly with enough games and a small enough deviation; and the peak is the highest
   rating of an established player, never lowered.
   */
  lemma SettlingKeepsTheBest(id: string, state: State, after: Snapshot, inputs: seq<InputGame>)
    ensures var r := Settled(id, state, after, inputs);
            && r.gamesPlayedTotal == state.gamesPlayed + |inputs|
            && (!r.isProvisional <==>
                !state.isProvisional || (r.gamesPlayedTotal >= 8 && after.deviation <= 110.0))
            && (r.isProvisional ==> r.peakRating == state.peakRating)
            && (!r.isProvisional ==>
                && r.peakRating.Some? && r.peakRating.value >= Round(after.rating)
                && (r.peakRating == Some(Round(after.rating)) || r.peakRating == state.peakRating))
            && (state.peakRating.Some? ==> r.peakRating.Some? && r.peakRating.value >= state.peakRating.value)
            && (r.peakChanged <==> r.peakRating != state.peakRating)
  {
  }

  // ---------------------------------------------------------------------------------------
  //  All players
  // ---------------------------------------------------------------------------------------

  ghost predicate Ascending(ids: seq<string>) { forall i, j :: 0 <= i < j < |ids| ==> Before(ids[i], ids[j]) }

  function ById(): (string, string) -> bool { (a: string, b: string) => AtMost(a, b) }

  lemma AtMostIsOrder(xs: seq<string>)
    ensures TotalPreorderOn(ById(), xs) && AntisymmetricOn(ById(), xs)
  {
    forall x, y ensures AtMost(x, y) || AtMost(y, x) { BeforeTotal(x, y); }
    forall x, y, z | AtMost(x, y) && AtMost(y, z) ensures AtMost(x, z) {
      if Before(x, y) && Before(y, z) { BeforeTransitive(x, y, z); }
    }
    forall x, y | AtMost(x, y) && AtMost(y, x) ensures x == y {
      if Before(x, y) && Before(y, x) {
        BeforeTransitive(x, y, x);
        BeforeIrreflexive(x);
      }
    }
  }

  /** The members of a set in string order. */
  method SortedIds(ids: set<string>) returns (sorted: seq<string>)
    ensures Ascending(sorted)
    ensures forall id :: id in sorted <==> id in ids
  {
    var listed: seq<string> := [];
    var todo := ids;
    while todo != {}
      invariant todo <= ids
      invariant forall id :: id in listed <==> id in ids && id !in todo
      invariant forall i, j :: 0 <= i < j < |listed| ==> listed[i] != listed[j]
      decreases todo
    {
      var id :| id in todo;
      listed := listed + [id];
      todo := todo - {id};
    }
    sorted := Sort(ById(), listed);
    AtMostIsOrder(listed);
    SortSorted(ById(), listed);
    SameElements(sorted, listed);
    SortedDistinct(listed, sorted);
  }

  lemma SortedDistinct(listed: seq<string>, sorted: seq<string>)
    requires multiset(listed) == multiset(sorted) && Sorted(ById(), sorted)
    requires forall i, j :: 0 <= i < j < |listed| ==> listed[i] != listed[j]
    ensures Ascending(sorted)
  {
    OnceEach(listed);
    forall i, j | 0 <= i < j < |sorted| ensures Before(sorted[i], sorted[j]) {
      assert ById()(sorted[i], sorted[j]);
      if sorted[i] == sorted[j] { TwiceIn(sorted, i, j); }
    }
  }

  /** The results of a period: one per player with a state or a game, by ascending id. */
  ghost predicate IsResultList(
    rate: Calculator, games: seq<RatedGame>, states: map<string, State>, results: seq<PlayerResult>) {
    && (forall i, j :: 0 <= i < j < |results| ==> Before(results[i].playerId, results[j].playerId))
    && (forall i :: 0 <= i < |results| ==> results[i] == ResultOf(rate, games, states, results[i].playerId))
    && (forall id :: id in states.Keys + Players(games) <==>
        exists i :: 0 <= i < |results| && results[i].playerId == id)
  }

  ghost predicate ResultsFor(
    rate: Calculator, games: seq<RatedGame>, states: map<string, State>, ids: seq<string>, results: seq<PlayerResult>) {
    |results| == |ids| && forall k :: 0 <= k < |ids| ==> results[k] == ResultOf(rate, games, states, ids[k])
  }

  lemma ResultsForIds(
    rate: Calculator, games: seq<RatedGame>, states: map<string, State>, ids: seq<string>, results: seq<PlayerResult>)
    requires Ascending(ids) && forall id :: id in ids <==> id in states.Keys + Players(games)
    requires ResultsFor(rate, games, states, ids, results)
    ensures IsResultList(rate, games, states, results)
  {
    assert forall k :: 0 <= k < |ids| ==> results[k].playerId == ids[k];
    forall id
      ensures id in states.Keys + Players(games) <==> exists i :: 0 <= i < |results| && results[i].playerId == id
    {
      if id in ids {
        var k :| 0 <= k < |ids| && ids[k] == id;
        assert results[k].playerId == id;
      }
    }
  }

  /** The calculator on a player's games; it can fail to converge. */
  function Rated(
    glicko: PartialCalculator, games: seq<RatedGame>, states: map<string, State>, id: string): Result<Snapshot,
        Glicko2.ConvergenceError>
  {
    glicko(StateOf(states, id).snapshot, Outcomes(Inputs(states, GamesOf(games, id))))
  }

  method ResultFor(
    glicko: PartialCalculator, ghost games: seq<RatedGame>, byPlayer: map<string, seq<PlayerGame>>, states: map<string,
        State>, id: string)
    returns (r: Result<PlayerResult, Glicko2.ConvergenceError>)
    requires byPlayer.Keys == Players(games) && forall p :: p in byPlayer ==> byPlayer[p] == GamesOf(games, p)
    ensures r.Ok? <==> Rated(glicko, games, states, id).Ok?
    ensures r.Ok? ==> r.value == ResultOf(Total(glicko), games, states, id)
    ensures r.Err? ==> r.error == Rated(glicko, games, states, id).error
  {
    if id !in byPlayer { NoGames(games, id); }
    var state := StateOf(states, id);
    var inputs := Inputs(states, if id in byPlayer then byPlayer[id] else []);
    var after := glicko(state.snapshot, Outcomes(inputs));
    if after.Err? { return Err(after.error); }
    return Ok(Settled(id, state, after.value, inputs));
  }

  /** The first player, in this order, for whom the calculator fails. */
  ghost predicate FirstFailure(
    glicko: PartialCalculator, games: seq<RatedGame>, states: map<string, State>, ids: seq<string>, i: int) {
    && 0 <= i < |ids| && Rated(glicko, games, states, ids[i]).Err?
    && forall k :: 0 <= k < i ==> Rated(glicko, games, states, ids[k]).Ok?
  }

  ghost predicate AllRated(
    glicko: PartialCalculator, games: seq<RatedGame>, states: map<string, State>, ids: seq<string>) {
    forall k :: 0 <= k < |ids| ==> Rated(glicko, games, states, ids[k]).Ok?
  }

  lemma RatedSnoc(
    glicko: PartialCalculator, games: seq<RatedGame>, states: map<string, State>, ids: seq<string>,
        results: seq<PlayerResult>,
    id: string, result: PlayerResult)
    requires AllRated(glicko, games, states, ids) && ResultsFor(Total(glicko), games, states, ids, results)
    requires Rated(glicko, games, states, id).Ok? && result == ResultOf(Total(glicko), games, states, id)
    ensures AllRated(glicko, games, states, ids + [id])
    ensures ResultsFor(Total(glicko), games, states, ids + [id], results + [result])
  {
  }

  lemma FailsHere(
    glicko: PartialCalculator, games: seq<RatedGame>, states: map<string, State>, ids: seq<string>, i: nat)
    requires i < |ids| && AllRated(glicko, games, states, ids[..i]) && Rated(glicko, games, states, ids[i]).Err?
    ensures FirstFailure(glicko, games, states, ids, i) && !AllRated(glicko, games, states, ids)
  {
    forall k | 0 <= k < i ensures Rated(glicko, games, states, ids[k]).Ok? { assert ids[..i][k] == ids[k]; }
  }

  method ResultsOf(
    glicko: PartialCalculator, ghost games: seq<RatedGame>, byPlayer: map<string, seq<PlayerGame>>, states: map<string,
        State>, ids: seq<string>)
    returns (r: Result<seq<PlayerResult>, Glicko2.ConvergenceError>)
    requires byPlayer.Keys == Players(games) && forall p :: p in byPlayer ==> byPlayer[p] == GamesOf(games, p)
    ensures r.Ok? <==> AllRated(glicko, games, states, ids)
    ensures r.Ok? ==> ResultsFor(Total(glicko), games, states, ids, r.value)
    ensures r.Err? ==>
            exists i :: FirstFailure(glicko, games, states, ids, i)
                && r.error == Rated(glicko, games, states, ids[i]).error
  {
    var results: seq<PlayerResult> := [];
    for i := 0 to |ids|
      invariant AllRated(glicko, games, states, ids[..i])
      invariant ResultsFor(Total(glicko), games, states, ids[..i], results)
    {
      var result := ResultFor(glicko, games, byPlayer, states, ids[i]);
      if result.Err? {
        FailsHere(glicko, games, states, ids, i);
        return Err(result.error);
      }
      assert ids[..i + 1] == ids[..i] + [ids[i]];
      RatedSnoc(glicko, games, states, ids[..i], results, ids[i], result.value);
      results := results + [result.value];
    }
    assert ids[..|ids|] == ids;
    return Ok(results);
  }

  /** The whole batch; it is aborted by the first player, in id order, for whom the calculator fails. */
  method ComputePeriodResults(glicko: PartialCalculator, games: seq<RatedGame>, states: map<string, State>)
    returns (r: Result<seq<PlayerResult>, Glicko2.ConvergenceError>)
    ensures r.Ok? <==> forall id :: id in states.Keys + Players(games) ==> Rated(glicko, games, states, id).Ok?
    ensures r.Ok? ==> IsResultList(Total(glicko), games, states, r.value)
    ensures r.Err? ==>
            exists id :: BatchFailsAt(glicko, games, states, id) && r.error == Rated(glicko, games, states, id).error
  {
    var byPlayer := GroupGamesByPlayer(games);
    var ids := SortedIds(states.Keys + byPlayer.Keys);
    r := ResultsOf(glicko, games, byPlayer, states, ids);
    if r.Ok? {
      ResultsForIds(Total(glicko), games, states, ids, r.value);
    } else {
      ghost var i :| FirstFailure(glicko, games, states, ids, i)
          && r.error == Rated(glicko, games, states, ids[i]).error;
      FailureIsFirst(glicko, games, states, ids, i);
    }
  }

  /** The calculator fails for this player and for none with a smaller id. */
  ghost predicate BatchFailsAt(
    glicko: PartialCalculator, games: seq<RatedGame>, states: map<string, State>, id: string) {
    && id in states.Keys + Players(games) && Rated(glicko, games, states, id).Err?
    && forall p :: p in states.Keys + Players(games) && Before(p, id) ==> Rated(glicko, games, states, p).Ok?
  }

  lemma FailureIsFirst(
    glicko: PartialCalculator, games: seq<RatedGame>, states: map<string, State>, ids: seq<string>, i: int)
    requires Ascending(ids) && forall id :: id in ids <==> id in states.Keys + Players(games)
    requires FirstFailure(glicko, games, states, ids, i)
    ensures BatchFailsAt(glicko, games, states, ids[i])
  {
    assert ids[i] in ids;
    forall p | p in states.Keys + Players(games) && Before(p, ids[i]) ensures Rated(glicko, games, states, p).Ok? {
      assert p in ids;
      var k :| 0 <= k < |ids| && ids[k] == p;
      if k >= i {
        if k > i { BeforeTransitive(p, ids[i], p); }
        BeforeIrreflexive(p);
      }
    }
  }

  lemma {:induction false} NoGames(games: seq<RatedGame>, id: string)
    requires id !in Players(games)
    ensures GamesOf(games, id) == []
  {
    if games != [] {
      assert games[0] in games;
      forall g | g in games[1..] ensures g in games { }
      NoGames(games[1..], id);
      assert Entries(games, id) == [];
    }
  }

  // ---------------------------------------------------------------------------------------
  //  Both sides of a game
  // ---------------------------------------------------------------------------------------

  lemma {:induction false} EntriesHold(games: seq<RatedGame>, g: RatedGame, id: string)
    requires g in games
    ensures forall e :: e in EntriesOf(g, id) ==> e in Entries(games, id)
  {
    if games[0] != g {
      EntriesHold(games[1..], g, id);
    }
  }

  function Against(states: map<string, State>, g: RatedGame, opponent: string, score: real): InputGame {
    var snapshot := StateOf(states, opponent).snapshot;
    InputGame(g.pairingId, opponent, snapshot.rating, snapshot.deviation, score)
  }

  /**
   A game enters both players' calculations, each against the other's snapshot from the start of
   the period, with scores that sum to one.
   */
  lemma BothSidesOfAGame(rate: Calculator, games: seq<RatedGame>, states: map<string, State>, g: RatedGame)
    requires g in games
    ensures var w, b := g.whitePlayerId, g.blackPlayerId;
            && Against(states, g, b, ScoreFor(g.result, White)) in ResultOf(rate, games, states, w).inputGames
            && Against(states, g, w, ScoreFor(g.result, Black)) in ResultOf(rate, games, states, b).inputGames
            && ScoreFor(g.result, White) + ScoreFor(g.result, Black) == 1.0
  {
    EntryReachesInputs(rate, games, states, g, g.whitePlayerId, AsWhite(g));
    EntryReachesInputs(rate, games, states, g, g.blackPlayerId, AsBlack(g));
  }

  /** The calculator is asked with the player's own snapshot and, game by game, the opponent's and the score. */
  lemma RatedAgainstSnapshots(rate: Calculator, games: seq<RatedGame>, states: map<string, State>, id: string)
    ensures var r, own := ResultOf(rate, games, states, id), GamesOf(games, id);
            && r.before == StateOf(states, id).snapshot && |r.inputGames| == |own|
            && exists outcomes: seq<Outcome> ::
                 |outcomes| == |own| && r.after == rate(r.before, outcomes)
                 && forall k :: 0 <= k < |own| ==> FacesOpponent(states, own[k], outcomes[k])
  {
    var own := GamesOf(games, id);
    var outcomes := Outcomes(Inputs(states, own));
    assert forall k :: 0 <= k < |own| ==> FacesOpponent(states, own[k], outcomes[k]);
  }

  predicate FacesOpponent(states: map<string, State>, g: PlayerGame, o: Outcome) {
    var opponent := StateOf(states, g.opponentId).snapshot;
    o.opponent.rating == opponent.rating && o.opponent.deviation == opponent.deviation && o.score == g.score
  }

  /** The winner's calculation gets one point, the loser's none, and a draw half for each. */
  lemma WinnerScoresOne(rate: Calculator, games: seq<RatedGame>, states: map<string, State>, g: RatedGame)
    requires g in games
    ensures var w, b := g.whitePlayerId, g.blackPlayerId;
            var forWhite := ResultOf(rate, games, states, w).inputGames;
            var forBlack := ResultOf(rate, games, states, b).inputGames;
            match g.result
            case WhiteWin => Against(states, g, b, 1.0) in forWhite && Against(states, g, w, 0.0) in forBlack
            case BlackWin => Against(states, g, b, 0.0) in forWhite && Against(states, g, w, 1.0) in forBlack
            case Draw => Against(states, g, b, 0.5) in forWhite && Against(states, g, w, 0.5) in forBlack
  {
    BothSidesOfAGame(rate, games, states, g);
  }

  lemma EntryReachesInputs(
    rate: Calculator, games: seq<RatedGame>, states: map<string, State>, g: RatedGame, id: string, e: PlayerGame)
    requires g in games && e in EntriesOf(g, id)
    ensures InputOf(states, e) in ResultOf(rate, games, states, id).inputGames
  {
    EntriesHold(games, g, id);
    SameElements(GamesOf(games, id), Entries(games, id));
    var k :| 0 <= k < |GamesOf(games, id)| && GamesOf(games, id)[k] == e;
    assert Inputs(states, GamesOf(games, id))[k] == InputOf(states, e);
  }
}
