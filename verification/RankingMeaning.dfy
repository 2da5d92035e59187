/** What decides between two players on equal points, and who stands before whom in the ranking. */
module RankingMeaning {
  import opened Wrappers
  import opened Sorting
  import opened StringOrder
  import opened TieBreak
  import opened TieBreakKeys
  import opened Ranking

  // ---------------------------------------------------------------------------------------
  //  The deciding key
  // ---------------------------------------------------------------------------------------

  /** The key says nothing between the two: it is missing for one of them, or equal. */
  predicate Silent(values: Values, key: Key, a: Player, b: Player) {
    values(key, a).None? || values(key, b).None? || values(key, a) == values(key, b)
  }

  /** The first key that says something decides, and the higher value stands first. */
  lemma {:induction false} FirstSpeakingKeyDecides(values: Values, keys: seq<Key>, a: Player, b: Player, i: nat)
    requires i < |keys| && forall j :: 0 <= j < i ==> Silent(values, keys[j], a, b)
    requires !Silent(values, keys[i], a, b)
    ensures CompareKeys(values, keys, a, b) ==
            if values(keys[i], a).value > values(keys[i], b).value then Less else Greater
  {
    if i > 0 {
      assert Silent(values, keys[0], a, b);
      FirstSpeakingKeyDecides(values, keys[1..], a, b, i - 1);
    }
  }

  /** If none does, the smaller id stands first; it is always smaller in one direction. */
  lemma {:induction false} SilentKeysLeaveTheId(values: Values, keys: seq<Key>, a: Player, b: Player)
    requires forall j :: 0 <= j < |keys| ==> Silent(values, keys[j], a, b)
    ensures CompareKeys(values, keys, a, b) == Less <==> Before(a.playerId, b.playerId)
    ensures CompareKeys(values, keys, a, b) == Greater <==> Before(b.playerId, a.playerId)
  {
    if keys == [] {
      IdsCompare(a.playerId, b.playerId);
      if Before(a.playerId, b.playerId) && Before(b.playerId, a.playerId) {
        BeforeTransitive(a.playerId, b.playerId, a.playerId);
        BeforeIrreflexive(a.playerId);
      }
    } else {
      assert Silent(values, keys[0], a, b);
      SilentKeysLeaveTheId(values, keys[1..], a, b);
    }
  }

  // ---------------------------------------------------------------------------------------
  //  Listing a key twice changes nothing
  // ---------------------------------------------------------------------------------------

  lemma {:induction false} DedupedKeeps(keys: seq<Key>)
    ensures forall k :: k in Deduped(keys) <==> k in keys
  {
    if keys != [] { DedupedKeeps(keys[..|keys| - 1]); }
  }

  lemma {:induction false} DedupedOnce(keys: seq<Key>)
    ensures forall i, j :: 0 <= i < j < |Deduped(keys)| ==> Deduped(keys)[i] != Deduped(keys)[j]
  {
    if keys != [] { DedupedOnce(keys[..|keys| - 1]); }
  }

  /** The comparison goes on with one more key exactly if all before were silent. */
  lemma {:induction false} OneMoreKey(values: Values, keys: seq<Key>, key: Key, a: Player, b: Player)
    ensures CompareKeys(values, keys + [key], a, b) ==
            if (forall j :: 0 <= j < |keys| ==> Silent(values, keys[j], a, b)) && !Silent(values, key, a, b)
            then CompareDescending(values(key, a).value, values(key, b).value)
            else CompareKeys(values, keys, a, b)
  {
    if keys == [] {
      assert keys + [key] == [key] && [key][1..] == [];
    } else {
      assert (keys + [key])[1..] == keys[1..] + [key];
      OneMoreKey(values, keys[1..], key, a, b);
      if Silent(values, keys[0], a, b) {
        assert (forall j :: 0 <= j < |keys| ==> Silent(values, keys[j], a, b)) <==>
            forall j :: 0 <= j < |keys[1..]| ==> Silent(values, keys[1..][j], a, b);
      }
    }
  }

  /** Comparing by the keys without repetitions is comparing by the keys as given. */
  lemma {:induction false} DedupingIsHarmless(values: Values, keys: seq<Key>, a: Player, b: Player)
    ensures CompareKeys(values, Deduped(keys), a, b) == CompareKeys(values, keys, a, b)
  {
    if keys != [] {
      var front, last := keys[..|keys| - 1], keys[|keys| - 1];
      DedupingIsHarmless(values, front, a, b);
      OneMoreKey(values, front, last, a, b);
      OneMoreKey(values, Deduped(front), last, a, b);
      DedupedKeeps(front);
      assert keys == front + [last];
      AllSilent(values, front, Deduped(front), a, b);
      if last in Deduped(front) && !Silent(values, last, a, b) { SpeaksBefore(values, front, last, a, b); }
    }
  }

  lemma AllSilent(values: Values, keys: seq<Key>, others: seq<Key>, a: Player, b: Player)
    requires forall k :: k in others <==> k in keys
    ensures (forall j :: 0 <= j < |keys| ==> Silent(values, keys[j], a, b)) <==>
            forall j :: 0 <= j < |others| ==> Silent(values, others[j], a, b)
  {
    if forall j :: 0 <= j < |keys| ==> Silent(values, keys[j], a, b) {
      forall j | 0 <= j < |others| ensures Silent(values, others[j], a, b) { assert others[j] in keys; }
    }
    if forall j :: 0 <= j < |others| ==> Silent(values, others[j], a, b) {
      forall j | 0 <= j < |keys| ensures Silent(values, keys[j], a, b) { assert keys[j] in others; }
    }
  }

  lemma SpeaksBefore(values: Values, keys: seq<Key>, key: Key, a: Player, b: Player)
    requires key in keys && !Silent(values, key, a, b)
    ensures exists j :: 0 <= j < |keys| && !Silent(values, keys[j], a, b)
  {
  }

  // ---------------------------------------------------------------------------------------
  //  The ranking by the keys as given
  // ---------------------------------------------------------------------------------------

  lemma SameOrder(ctx: Context, unrated: Option<int>, keys: seq<Key>, a: Player, b: Player)
    ensures Order(ctx, unrated, Deduped(keys))(a, b) == Order(ctx, unrated, keys)(a, b)
  {
    DedupingIsHarmless(ValuesOf(ctx, unrated), keys, a, b);
  }

  /** The ranking is a permutation of the players, pairwise in the order of the keys exactly as they were given. */
  lemma RankedByGivenKeys(players: seq<Player>, keys: seq<Key>, unrated: Option<int>)
    requires DistinctIds(players)
    ensures multiset(Ranked(players, keys, unrated)) == multiset(players)
    ensures Sorted(Order(ContextOf(players), unrated, keys), Ranked(players, keys, unrated))
  {
    RankedIsSorted(players, keys, unrated);
    var r := Ranked(players, keys, unrated);
    forall i, j | 0 <= i < j < |r| ensures Order(ContextOf(players), unrated, keys)(r[i], r[j]) {
      SameOrder(ContextOf(players), unrated, keys, r[i], r[j]);
      assert Order(ContextOf(players), unrated, Deduped(keys))(r[i], r[j]);
    }
  }

  lemma EarlierIsNotGreater(players: seq<Player>, keys: seq<Key>, unrated: Option<int>, i: int, j: int)
    requires DistinctIds(players) && 0 <= i < j < |players|
    ensures var r := Ranked(players, keys, unrated);
            Compare(ValuesOf(ContextOf(players), unrated), keys, r[i], r[j]) != Greater
  {
    var r := Ranked(players, keys, unrated);
    RankedByGivenKeys(players, keys, unrated);
    assert Order(ContextOf(players), unrated, keys)(r[i], r[j]);
  }

  /** A player who compares as less stands before. */
  lemma LessStandsBefore(players: seq<Player>, keys: seq<Key>, unrated: Option<int>, i: int, j: int)
    requires DistinctIds(players) && 0 <= i < |players| && 0 <= j < |players|
    requires var r := Ranked(players, keys, unrated);
             Compare(ValuesOf(ContextOf(players), unrated), keys, r[i], r[j]) == Less
    ensures i < j
  {
    var r := Ranked(players, keys, unrated);
    if j < i { EarlierIsNotGreater(players, keys, unrated, j, i); }
    CompareTotal(ContextOf(players), unrated, keys, r[i], r[j]);
  }

  /** More points stand before fewer, whatever the keys. */
  lemma MorePointsStandBefore(players: seq<Player>, keys: seq<Key>, unrated: Option<int>, i: int, j: int)
    requires DistinctIds(players) && 0 <= i < |players| && 0 <= j < |players|
    requires var r := Ranked(players, keys, unrated); r[i].points2 > r[j].points2
    ensures i < j
  {
    LessStandsBefore(players, keys, unrated, i, j);
  }

  // ---------------------------------------------------------------------------------------
  //  Direct encounter
  // ---------------------------------------------------------------------------------------

  /** The only two players on their points. */
  ghost predicate AloneOnPoints(players: seq<Player>, a: Player, b: Player) {
    && a in players && b in players && a.playerId != b.playerId && a.points2 == b.points2
    && forall p :: p in players && p.points2 == a.points2 ==> p == a || p == b
  }

  /** The one game of the player against this opponent over the board, with this result. */
  predicate OnlyGame(games: seq<Game>, i: int, opponentId: string, result2: int) {
    && 0 <= i < |games| && games[i].playedOverBoard && games[i].opponentId == Some(opponentId)
    && games[i].result2 == result2
    && forall k :: 0 <= k < |games| && k != i ==> !(games[k].playedOverBoard && games[k].opponentId == Some(opponentId))
  }

  lemma {:induction false} OneInternalGame(games: seq<Game>, id: string, other: string, i: int, result2: int)
    requires id != other && OnlyGame(games, i, other, result2)
    ensures InternalScore(games, id, {id, other}) == result2 && Met(games, id, {id, other}) == {other}
  {
    var front, last := games[..|games| - 1], games[|games| - 1];
    if i == |games| - 1 {
      NoInternalGame(front, id, other);
    } else {
      assert front[i] == games[i];
      OneInternalGame(front, id, other, i, result2);
    }
  }

  lemma {:induction false} NoInternalGame(games: seq<Game>, id: string, other: string)
    requires forall k :: 0 <= k < |games| ==> !(games[k].playedOverBoard && games[k].opponentId == Some(other))
    ensures InternalScore(games, id, {id, other}) == 0 && Met(games, id, {id, other}) == {}
  {
    if games != [] { NoInternalGame(games[..|games| - 1], id, other); }
  }

  lemma PairIsGroup(players: seq<Player>, a: Player, b: Player)
    requires DistinctIds(players) && AloneOnPoints(players, a, b)
    ensures GroupIds(ContextOf(players), a.points2) == {a.playerId, b.playerId}
    ensures ContextOf(players).byId[a.playerId] == a && ContextOf(players).byId[b.playerId] == b
  {
    ByIdHolds(players);
    var i :| 0 <= i < |players| && players[i] == a;
    var j :| 0 <= j < |players| && players[j] == b;
    forall id ensures id in GroupIds(ContextOf(players), a.points2) <==> id in {a.playerId, b.playerId} {
      if id in GroupIds(ContextOf(players), a.points2) {
        var k :| 0 <= k < |players| && players[k].playerId == id;
        assert players[k] in players;
      }
    }
  }

  /** Of two players alone on their points who met once, Direct Encounter gives each the result of that game. */
  lemma EncounterIsTheirGame(players: seq<Player>, a: Player, b: Player, i: int, j: int, resultA: int, resultB: int)
    requires DistinctIds(players) && AloneOnPoints(players, a, b)
    requires OnlyGame(a.games, i, b.playerId, resultA) && OnlyGame(b.games, j, a.playerId, resultB)
    ensures DirectEncounterOf(ContextOf(players), a) == Some(resultA)
    ensures DirectEncounterOf(ContextOf(players), b) == Some(resultB)
  {
    var group := {a.playerId, b.playerId};
    PairIsGroup(players, a, b);
    OneInternalGame(a.games, a.playerId, b.playerId, i, resultA);
    assert {b.playerId, a.playerId} == group;
    OneInternalGame(b.games, b.playerId, a.playerId, j, resultB);
    assert |group| == 2 && MetAll(a, group) && MetAll(b, group);
    assert Complete(ContextOf(players), a.points2);
  }

  /**
   If Direct Encounter is the first key, of two players alone on their points the winner of their one
   game stands before the loser, whatever keys follow.
   */
  lemma WinnerOfTheirGameStandsBefore(
    players: seq<Player>, keys: seq<Key>, unrated: Option<int>, a: Player, b: Player, i: int, j: int)
    requires DistinctIds(players) && AloneOnPoints(players, a, b) && keys != [] && keys[0] == DirectEncounter
    requires OnlyGame(a.games, i, b.playerId, 2) && OnlyGame(b.games, j, a.playerId, 0)
    ensures Compare(ValuesOf(ContextOf(players), unrated), keys, a, b) == Less
    ensures exists p, q :: 0 <= p < q < |players| &&
              Ranked(players, keys, unrated)[p] == a && Ranked(players, keys, unrated)[q] == b
  {
    EncounterIsTheirGame(players, a, b, i, j, 2, 0);
    var values, r := ValuesOf(ContextOf(players), unrated), Ranked(players, keys, unrated);
    assert values(keys[0], a) == Some(2.0) && values(keys[0], b) == Some(0.0);
    FirstSpeakingKeyDecides(values, keys, a, b, 0);
    SameElements(r, players);
    var p :| 0 <= p < |r| && r[p] == a;
    var q :| 0 <= q < |r| && r[q] == b;
    LessStandsBefore(players, keys, unrated, p, q);
  }

  // ---------------------------------------------------------------------------------------
  //  What each key puts first
  // ---------------------------------------------------------------------------------------

  /** The three Buchholz keys: all contributions, all but the smallest, all but smallest and largest. */
  lemma BuchholzKeysMeasure(p: Player, ctx: Context, unrated: Option<int>, low: int, high: int)
    requires |p.games| >= 3 && IsMin(low, Contributions(p.games, ctx)) && IsMax(high, Contributions(p.games, ctx))
    ensures var all := Sum(Contributions(p.games, ctx));
            && ValueOf(Buchholz, p, ctx, unrated) == Some(all as real)
            && ValueOf(BuchholzCut1, p, ctx, unrated) == Some((all - low) as real)
            && ValueOf(MedianBuchholz, p, ctx, unrated) == Some((all - low - high) as real)
  {
    CutsDropExtremes(Contributions(p.games, ctx), low, high);
  }

  /** The keys about own results: against whose opponents' points, against whom, how often, how early. */
  lemma ResultKeysMeasure(p: Player, ctx: Context, unrated: Option<int>)
    requires Proper(p.games)
    ensures ValueOf(SonnebornBerger, p, ctx, unrated) ==
            Some((2 * PointsAgainst(p.games, ctx, IsWin) + PointsAgainst(p.games, ctx, IsDraw)) as real)
    ensures ValueOf(Koya, p, ctx, unrated) ==
            Some((2 * CountGames(p.games, And(AgainstTopHalf(ctx), IsWin))
                + CountGames(p.games, And(AgainstTopHalf(ctx), IsDraw))) as real)
    ensures ValueOf(Cumulative, p, ctx, unrated) == Some(Weighted(p.games, |p.games|) as real)
    ensures ValueOf(Wins, p, ctx, unrated) == Some(CountGames(p.games, Won) as real)
    ensures ValueOf(BlackGames, p, ctx, unrated) == Some(CountGames(p.games, PlayedBlack) as real)
  {
    SonnebornBergerIs(p.games, ctx);
    KoyaIsWinsAndDraws(p.games, ctx);
    CumulativeIsWeighted(p.games);
  }
}
