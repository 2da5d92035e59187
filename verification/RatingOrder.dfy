/** The results of a period do not depend on the order in which its games are read. */
module RatingOrder {
  import opened Sorting
  import opened StringOrder
  import opened RatingPeriod

  ghost predicate DistinctPairings(games: seq<RatedGame>) {
    forall i, j :: 0 <= i < j < |games| ==> games[i].pairingId != games[j].pairingId
  }

  /** Inserts a run of entries that all carry the same pairing id. */
  function InsertAll(added: seq<PlayerGame>, sorted: seq<PlayerGame>): seq<PlayerGame> {
    if added == [] then sorted else Insert(ByPairing(), added[0], InsertAll(added[1..], sorted))
  }

  lemma SortCons(x: PlayerGame, xs: seq<PlayerGame>)
    ensures Sort(ByPairing(), [x] + xs) == Insert(ByPairing(), x, Sort(ByPairing(), xs))
  {
    assert ([x] + xs)[1..] == xs;
  }

  lemma {:induction false} SortPrepend(added: seq<PlayerGame>, rest: seq<PlayerGame>)
    ensures Sort(ByPairing(), added + rest) == InsertAll(added, Sort(ByPairing(), rest))
  {
    if added == [] {
      assert added + rest == rest;
    } else {
      SortPrepend(added[1..], rest);
      HeadFirst(added, rest);
      SortCons(added[0], added[1..] + rest);
    }
  }

  lemma InsertPast(x: PlayerGame, y: PlayerGame, ys: seq<PlayerGame>)
    requires !AtMost(x.pairingId, y.pairingId)
    ensures Insert(ByPairing(), x, [y] + ys) == [y] + Insert(ByPairing(), x, ys)
  {
    assert ([y] + ys)[1..] == ys;
  }

  /** Entries with an id past a whole run are inserted after it. */
  lemma {:induction false} InsertAllPast(
    added: seq<PlayerGame>, run: seq<PlayerGame>, ys: seq<PlayerGame>, pid: string, qid: string)
    requires forall e :: e in added ==> e.pairingId == pid
    requires forall e :: e in run ==> e.pairingId == qid
    requires !AtMost(pid, qid)
    ensures InsertAll(added, run + ys) == run + InsertAll(added, ys)
    decreases |added|, |run|
  {
    if run == [] {
      assert run + ys == ys;
      assert run + InsertAll(added, ys) == InsertAll(added, ys);
    } else if added != [] {
      InsertAllPast(added[1..], run, ys, pid, qid);
      InsertOnePast(added[0], run, InsertAll(added[1..], ys), qid);
    }
  }

  lemma {:induction false} InsertOnePast(x: PlayerGame, run: seq<PlayerGame>, ys: seq<PlayerGame>, qid: string)
    requires forall e :: e in run ==> e.pairingId == qid
    requires !AtMost(x.pairingId, qid)
    ensures Insert(ByPairing(), x, run + ys) == run + Insert(ByPairing(), x, ys)
  {
    if run == [] {
      assert run + ys == ys;
    } else {
      InsertOnePast(x, run[1..], ys, qid);
      HeadFirst(run, ys);
      InsertPast(x, run[0], run[1..] + ys);
      HeadFirst(run, Insert(ByPairing(), x, ys));
    }
  }

  /** Entries that come first stay first. */
  lemma {:induction false} InsertAllFront(added: seq<PlayerGame>, ys: seq<PlayerGame>, pid: string)
    requires forall e :: e in added ==> e.pairingId == pid
    requires forall e :: e in ys ==> AtMost(pid, e.pairingId)
    ensures InsertAll(added, ys) == added + ys
  {
    if added == [] {
      assert added + ys == ys;
    } else {
      InsertAllFront(added[1..], ys, pid);
      var rest := added[1..] + ys;
      HeadFirst(added, ys);
      if rest != [] {
        assert rest[0] in added[1..] || rest[0] in ys;
        assert AtMost(pid, rest[0].pairingId);
      }
    }
  }

  lemma EntriesIds(g: RatedGame, id: string)
    ensures forall e :: e in EntriesOf(g, id) ==> e.pairingId == g.pairingId
  {
  }

  lemma {:induction false} EntriesAtMost(games: seq<RatedGame>, id: string, pid: string)
    requires forall g :: g in games ==> AtMost(pid, g.pairingId)
    ensures forall e :: e in Entries(games, id) ==> AtMost(pid, e.pairingId)
  {
    if games != [] {
      assert games[0] in games;
      EntriesAtMost(games[1..], id, pid);
      EntriesIds(games[0], id);
    }
  }

  lemma EntriesInsertFront(g: RatedGame, games: seq<RatedGame>, id: string)
    requires Sorted(ByPairingId(), games) && (games == [] || AtMost(g.pairingId, games[0].pairingId))
    ensures EntriesOf(g, id) + Entries(games, id) == InsertAll(EntriesOf(g, id), Entries(games, id))
  {
    forall h | h in games ensures AtMost(g.pairingId, h.pairingId) {
      var k :| 0 <= k < |games| && games[k] == h;
      if k > 0 {
        assert ByPairingId()(games[0], games[k]);
        if Before(g.pairingId, games[0].pairingId) && Before(games[0].pairingId, h.pairingId) {
          BeforeTransitive(g.pairingId, games[0].pairingId, h.pairingId);
        }
      }
    }
    EntriesIds(g, id);
    EntriesAtMost(games, id, g.pairingId);
    InsertAllFront(EntriesOf(g, id), Entries(games, id), g.pairingId);
  }

  /** Inserting a game into a sorted list of games inserts its entries into the sorted entries. */
  lemma {:induction false} EntriesOfInsert(g: RatedGame, games: seq<RatedGame>, id: string)
    requires Sorted(ByPairingId(), games)
    ensures Entries(Insert(ByPairingId(), g, games), id) == InsertAll(EntriesOf(g, id), Entries(games, id))
  {
    if games == [] || AtMost(g.pairingId, games[0].pairingId) {
      EntriesInsertFront(g, games, id);
      EntriesCons(g, games, id);
    } else {
      var rest := games[1..];
      EntriesOfInsert(g, rest, id);
      EntriesIds(g, id);
      EntriesIds(games[0], id);
      EntriesCons(games[0], Insert(ByPairingId(), g, rest), id);
      InsertAllPast(EntriesOf(g, id), EntriesOf(games[0], id), Entries(rest, id), g.pairingId, games[0].pairingId);
    }
  }

  lemma PairingOrder(games: seq<RatedGame>)
    ensures TotalPreorderOn(ByPairingId(), games)
    ensures DistinctPairings(games) ==> AntisymmetricOn(ByPairingId(), games)
  {
    AtMostIsOrder([]);
    forall x, y: RatedGame ensures ByPairingId()(x, y) || ByPairingId()(y, x) { BeforeTotal(x.pairingId, y.pairingId); }
    forall x, y, z: RatedGame | ByPairingId()(x, y) && ByPairingId()(y, z) ensures ByPairingId()(x, z) {
      if Before(x.pairingId, y.pairingId) && Before(y.pairingId, z.pairingId) {
        BeforeTransitive(x.pairingId, y.pairingId, z.pairingId);
      }
    }
    if DistinctPairings(games) {
      forall x, y | x in games && y in games && ByPairingId()(x, y) && ByPairingId()(y, x) ensures x == y {
        if Before(x.pairingId, y.pairingId) && Before(y.pairingId, x.pairingId) {
          BeforeTransitive(x.pairingId, y.pairingId, x.pairingId);
          BeforeIrreflexive(x.pairingId);
        }
        var i :| 0 <= i < |games| && games[i] == x;
        var j :| 0 <= j < |games| && games[j] == y;
        assert i == j;
      }
    }
  }

  /** A player's sorted games are the entries of the sorted games. */
  lemma {:induction false} SortCommutes(games: seq<RatedGame>, id: string)
    ensures GamesOf(games, id) == Entries(Sort(ByPairingId(), games), id)
  {
    if games != [] {
      SortCommutes(games[1..], id);
      PairingOrder(games[1..]);
      SortSorted(ByPairingId(), games[1..]);
      EntriesOfInsert(games[0], Sort(ByPairingId(), games[1..]), id);
      SortPrepend(EntriesOf(games[0], id), Entries(games[1..], id));
    }
  }

  /** With distinct pairing ids, the results do not depend on the order in which the games arrive. */
  lemma GameOrderIrrelevant(
    rate: Calculator, a: seq<RatedGame>, b: seq<RatedGame>, states: map<string, State>, id: string)
    requires multiset(a) == multiset(b) && DistinctPairings(a)
    ensures ResultOf(rate, a, states, id) == ResultOf(rate, b, states, id)
    ensures Players(a) == Players(b)
  {
    SameElements(a, b);
    PairingOrder(a);
    SortForgetsOrder(ByPairingId(), a, b);
    SortCommutes(a, id);
    SortCommutes(b, id);
  }

  lemma {:induction false} AscendingUnique(a: seq<string>, b: seq<string>)
    requires Ascending(a) && Ascending(b) && forall id :: id in a <==> id in b
    ensures a == b
    decreases |a|
  {
    if a != [] && b != [] {
      AscendingSameHead(a, b);
      forall id ensures id in a[1..] <==> id in b[1..] {
        TailIds(a, id);
        TailIds(b, id);
      }
      AscendingUnique(a[1..], b[1..]);
      assert a == [a[0]] + a[1..] && b == [b[0]] + b[1..];
    } else {
      EmptyTogether(a, b);
    }
  }

  lemma EmptyTogether(a: seq<string>, b: seq<string>)
    requires forall id :: id in a <==> id in b
    ensures a == [] <==> b == []
  {
    if a != [] { assert a[0] in b; }
    if b != [] { assert b[0] in a; }
  }

  lemma AscendingSameHead(a: seq<string>, b: seq<string>)
    requires Ascending(a) && Ascending(b) && a != [] && b != [] && forall id :: id in a <==> id in b
    ensures a[0] == b[0]
  {
    assert a[0] in b && b[0] in a;
    var i :| 0 <= i < |b| && b[i] == a[0];
    var j :| 0 <= j < |a| && a[j] == b[0];
    if i > 0 && j > 0 {
      BeforeTransitive(a[0], b[0], a[0]);
      BeforeIrreflexive(a[0]);
    }
  }

  lemma TailIds(a: seq<string>, id: string)
    requires Ascending(a) && a != []
    ensures id in a[1..] <==> id in a && id != a[0]
  {
    assert a == [a[0]] + a[1..];
    if id in a[1..] { BeforeIrreflexive(id); }
  }

  function ResultIds(results: seq<PlayerResult>): (ids: seq<string>)
    ensures |ids| == |results|
  {
    seq(|results|, i requires 0 <= i < |results| => results[i].playerId)
  }

  lemma ResultIdsSound(rate: Calculator, games: seq<RatedGame>, states: map<string, State>, results: seq<PlayerResult>)
    requires IsResultList(rate, games, states, results)
    ensures Ascending(ResultIds(results))
    ensures forall id :: id in ResultIds(results) <==> id in states.Keys + Players(games)
  {
    var ids := ResultIds(results);
    forall id ensures id in ids <==> id in states.Keys + Players(games) {
      if id in states.Keys + Players(games) {
        var i :| 0 <= i < |results| && results[i].playerId == id;
        assert ids[i] == id;
      }
    }
  }

  /** So the whole list of results is the same. */
  lemma ResultListForgetsOrder(
    rate: Calculator, a: seq<RatedGame>, b: seq<RatedGame>, states: map<string, State>, ra: seq<PlayerResult>,
        rb: seq<PlayerResult>)
    requires multiset(a) == multiset(b) && DistinctPairings(a)
    requires IsResultList(rate, a, states, ra) && IsResultList(rate, b, states, rb)
    ensures ra == rb
  {
    GameOrderIrrelevant(rate, a, b, states, "");
    ResultIdsSound(rate, a, states, ra);
    ResultIdsSound(rate, b, states, rb);
    AscendingUnique(ResultIds(ra), ResultIds(rb));
    forall i | 0 <= i < |ra| ensures ra[i] == rb[i] {
      assert ResultIds(ra)[i] == ResultIds(rb)[i];
      GameOrderIrrelevant(rate, a, b, states, ra[i].playerId);
    }
  }
}
