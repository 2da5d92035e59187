/**
 Matchmaking in one pool: players wait in a queue, and a sweep pairs those whose ratings are close
 enough for how long they have waited.

 The sweep works on a list it fetched earlier. The queue itself is shared: between any two of its
 atomic scripts other requests may add and remove players.
 */
module Matchmaking {
  import opened Wrappers
  import opened Sorting

  datatype Config = Config(initialDelta: int, deltaStep: int, stepIntervalMs: int, maxDelta: int)

  const DEFAULT_CONFIG := Config(200, 50, 10_000, 500)

  /** The rating distance accepted after waiting this long. */
  function CurrentDelta(cfg: Config, waitedMs: int): int
    requires cfg.stepIntervalMs > 0
  {
    var steps := (if waitedMs < 0 then 0 else waitedMs) / cfg.stepIntervalMs;
    var delta := cfg.initialDelta + steps * cfg.deltaStep;
    if delta < cfg.maxDelta then delta else cfg.maxDelta
  }

  datatype Meta = Meta(userId: string, joinedAt: int, rating: int)

  datatype Waiting = Waiting(playerId: string, rating: int, meta: Meta)

  datatype Match = Match(whitePlayerId: string, blackPlayerId: string)

  // ---------------------------------------------------------------------------------------
  //  The shared queue
  // ---------------------------------------------------------------------------------------

  function Times(counts: map<string, nat>, id: string): nat { if id in counts then counts[id] else 0 }

  function Once(counts: map<string, nat>, id: string): (r: map<string, nat>)
    ensures forall x: string :: Times(r, x) == Times(counts, x) + if x == id then 1 else 0
  {
    counts[id := Times(counts, id) + 1]
  }

  /** For every player: joins that reached the queue, times new in it, departures, and games. */
  datatype Account =
      Account(joined: map<string, nat>, entered: map<string, nat>, removed: map<string, nat>, games: map<string, nat>)

  function Entering(account: Account, waiting: set<string>, p: string): Account {
    var entered := if p in waiting then account.entered else Once(account.entered, p);
    account.(joined := Once(account.joined, p), entered := entered)
  }

  function Removing(account: Account, waiting: set<string>, p: string): Account {
    account.(removed := if p in waiting then Once(account.removed, p) else account.removed)
  }

  function Pairing(account: Account, a: string, b: string): Account {
    account.(games := Once(Once(account.games, a), b))
  }

  /** Every time somebody entered ended in one game, in one departure, or goes on. */
  ghost predicate Balanced(waiting: set<string>, account: Account) {
    forall id: string :: Accounted(waiting, account, id)
  }

  predicate Accounted(waiting: set<string>, account: Account, id: string) {
    && Times(account.entered, id) ==
        Times(account.games, id) + Times(account.removed, id) + (if id in waiting then 1 else 0)
    && Times(account.entered, id) <= Times(account.joined, id)
  }

  lemma EnterKeepsBalance(waiting: set<string>, account: Account, p: string)
    requires Balanced(waiting, account)
    ensures Balanced(waiting + {p}, Entering(account, waiting, p))
  {
    var next := Entering(account, waiting, p);
    forall id: string ensures Accounted(waiting + {p}, next, id) { assert Accounted(waiting, account, id); }
  }

  lemma RemoveKeepsBalance(waiting: set<string>, account: Account, p: string)
    requires Balanced(waiting, account)
    ensures Balanced(waiting - {p}, Removing(account, waiting, p))
  {
    var next := Removing(account, waiting, p);
    forall id: string ensures Accounted(waiting - {p}, next, id) { assert Accounted(waiting, account, id); }
  }

  lemma PairKeepsBalance(waiting: set<string>, account: Account, a: string, b: string)
    requires Balanced(waiting, account) && a in waiting && b in waiting && a != b
    ensures Balanced(waiting - {a, b}, Pairing(account, a, b))
  {
    var next := Pairing(account, a, b);
    forall id: string ensures Accounted(waiting - {a, b}, next, id) { assert Accounted(waiting, account, id); }
  }

  /** Counts only grow. */
  ghost predicate NoFewer(before: Account, after: Account) {
    && (forall id: string :: Times(after.games, id) >= Times(before.games, id))
    && (forall id: string :: Times(after.joined, id) >= Times(before.joined, id))
  }

  /** In every reachable state a player was paired at most once for each join. */
  lemma OneGamePerJoin(queue: Queue, id: string)
    requires queue.Valid()
    ensures Times(queue.account.games, id) + (if id in queue.scores then 1 else 0) <= Times(queue.account.joined, id)
  {
    assert Accounted(queue.scores.Keys, queue.account, id);
  }

  /**
   One pool of the queue. Each method marked as a step is atomic; `Join` and `Leave` take two steps
   each, and other requests may come in between. `account` and `failed` are kept for the proof:
   what happened to every player, and the pairs for which a script of the sweep found a player gone.
   */
  class Queue {
    var scores: map<string, int>
    var metas: map<string, Meta>
    var markers: set<string>
    ghost var account: Account
    ghost var failed: seq<(string, string)>

    ghost predicate Valid() reads this { scores.Keys == metas.Keys && Balanced(scores.Keys, account) }

    constructor ()
      ensures Valid() && scores == map[] && metas == map[] && markers == {} && failed == []
      ensures account == Account(map[], map[], map[], map[])
    {
      scores, metas, markers := map[], map[], {};
      account, failed := Account(map[], map[], map[], map[]), [];
    }

    /** Step: the marker of an account, set only if there is none. */
    method Mark(playerId: string) returns (ok: bool)
      requires Valid()
      modifies this`markers
      ensures Valid()
      ensures ok == (playerId !in old(markers))
      ensures markers == if ok then old(markers) + {playerId} else old(markers)
    {
      ok := playerId !in markers;
      if ok { markers := markers + {playerId}; }
    }

    /** Step: the player and the data of the wait. */
    method Enter(playerId: string, rating: int, userId: string, nowMs: int)
      requires Valid()
      modifies this`scores, this`metas, this`account
      ensures Valid()
      ensures scores == old(scores)[playerId := rating] && metas == old(metas)[playerId := Meta(userId, nowMs, rating)]
      ensures account == Entering(old(account), old(scores.Keys), playerId)
    {
      EnterKeepsBalance(scores.Keys, account, playerId);
      account := Entering(account, scores.Keys, playerId);
      scores := scores[playerId := rating];
      metas := metas[playerId := Meta(userId, nowMs, rating)];
      assert scores.Keys == old(scores.Keys) + {playerId} && metas.Keys == old(metas.Keys) + {playerId};
    }

    /** Step: the player, the data and the marker go. */
    method Remove(playerId: string)
      requires Valid()
      modifies this`scores, this`metas, this`markers, this`account
      ensures Valid()
      ensures scores == old(scores) - {playerId} && metas == old(metas) - {playerId}
              && markers == old(markers) - {playerId}
      ensures account == Removing(old(account), old(scores.Keys), playerId)
    {
      RemoveKeepsBalance(scores.Keys, account, playerId);
      account := Removing(account, scores.Keys, playerId);
      scores, metas, markers := scores - {playerId}, metas - {playerId}, markers - {playerId};
      assert scores.Keys == old(scores.Keys) - {playerId} && metas.Keys == old(metas.Keys) - {playerId};
    }

    /** Step: the script by which both players leave the queue together, or neither does. */
    method PairScript(a: string, b: string) returns (ok: bool)
      requires Valid() && a != b
      modifies this`scores, this`metas, this`markers, this`account, this`failed
      ensures Valid()
      ensures ok == (a in old(scores) && b in old(scores))
      ensures ok ==> scores == old(scores) - {a, b} && metas == old(metas) - {a, b} && markers == old(markers) - {a, b}
      ensures !ok ==> scores == old(scores) && metas == old(metas) && markers == old(markers)
      ensures account == if ok then Pairing(old(account), a, b) else old(account)
      ensures failed == old(failed) + if ok then [] else [(a, b)]
    {
      if a !in scores || b !in scores {
        failed := failed + [(a, b)];
        return false;
      }
      PairKeepsBalance(scores.Keys, account, a, b);
      account := Pairing(account, a, b);
      scores, metas, markers := scores - {a, b}, metas - {a, b}, markers - {a, b};
      assert scores.Keys == old(scores.Keys) - {a, b} && metas.Keys == old(metas.Keys) - {a, b};
      return true;
    }

    /** Any number of steps of other requests; their failed scripts do not count as the sweep's. */
    method Interference()
      requires Valid()
      modifies this
      ensures Valid() && failed == old(failed)
      ensures NoFewer(old(account), account)
    {
      ghost var before := failed;
      var steps: int := *;
      while steps > 0
        invariant Valid()
        invariant NoFewer(old(account), account)
      {
        steps := steps - 1;
        var p: string, q: string, rating: int, nowMs: int := *, *, *, *;
        if * {
          var _ := Mark(p);
        } else if * {
          Enter(p, rating, q, nowMs);
        } else if * {
          Remove(p);
        } else if p != q {
          var _ := PairScript(p, q);
        }
      }
      failed := before;
    }

    /** One account waits in one place: a second join is refused while the marker is there. */
    method Join(playerId: string, rating: int, userId: string, nowMs: int) returns (ok: bool)
      requires Valid()
      modifies this
      ensures Valid()
      ensures ok == (playerId !in old(markers))
      ensures ok ==> playerId in scores && scores[playerId] == rating && metas[playerId] == Meta(userId, nowMs, rating)
      ensures ok ==> Times(account.joined, playerId) > old(Times(account.joined, playerId))
      ensures !ok ==> unchanged(this)
    {
      ok := Mark(playerId);
      if !ok { return; }
      Interference();
      Enter(playerId, rating, userId, nowMs);
    }

    method Leave(playerId: string) returns (left: bool)
      requires Valid()
      modifies this
      ensures Valid()
      ensures left == (playerId in old(markers))
      ensures left ==> playerId !in scores && playerId !in metas && playerId !in markers
      ensures !left ==> unchanged(this)
    {
      left := playerId in markers;
      if !left { return; }
      Interference();
      Remove(playerId);
    }
  }

  // ---------------------------------------------------------------------------------------
  //  The list of a sweep
  // ---------------------------------------------------------------------------------------

  function ByJoin(): (Waiting, Waiting) -> bool { (a: Waiting, b: Waiting) => a.meta.joinedAt <= b.meta.joinedAt }

  function Ids(ws: seq<Waiting>): (ids: seq<string>)
    ensures |ids| == |ws|
  {
    seq(|ws|, i requires 0 <= i < |ws| => ws[i].playerId)
  }

  ghost predicate DistinctIds(ws: seq<Waiting>) {
    forall i, j :: 0 <= i < j < |ws| ==> ws[i].playerId != ws[j].playerId
  }

  ghost predicate OldestFirst(ws: seq<Waiting>) {
    forall i, j :: 0 <= i < j < |ws| ==> ws[i].meta.joinedAt <= ws[j].meta.joinedAt
  }

  /** The waiting players, longest waiting first; a member whose data vanished is left out. */
  function Listed(members: seq<(string, int)>, rawMeta: map<string, Meta>): seq<Waiting> {
    if members == [] then []
    else
      var front := Listed(members[..|members| - 1], rawMeta);
      var (playerId, score) := members[|members| - 1];
      if playerId in rawMeta then front + [Waiting(playerId, score, rawMeta[playerId])] else front
  }

  function WaitingList(members: seq<(string, int)>, rawMeta: map<string, Meta>): seq<Waiting> {
    Sort(ByJoin(), Listed(members, rawMeta))
  }

  ghost predicate DistinctMembers(members: seq<(string, int)>) {
    forall i, j :: 0 <= i < j < |members| ==> members[i].0 != members[j].0
  }

  lemma {:induction false} ListedDistinct(members: seq<(string, int)>, rawMeta: map<string, Meta>)
    requires DistinctMembers(members)
    ensures DistinctIds(Listed(members, rawMeta))
    ensures forall w :: w in Listed(members, rawMeta) ==> exists i :: 0 <= i < |members| && members[i].0 == w.playerId
  {
    if members != [] {
      var front := members[..|members| - 1];
      ListedDistinct(front, rawMeta);
      var before := Listed(front, rawMeta);
      forall w | w in Listed(members, rawMeta) ensures exists i :: 0 <= i < |members| && members[i].0 == w.playerId {
        if w in before {
          var i :| 0 <= i < |front| && front[i].0 == w.playerId;
          assert members[i].0 == w.playerId;
        } else {
          assert members[|front|].0 == w.playerId;
        }
      }
      forall i | 0 <= i < |before| ensures before[i].playerId != members[|front|].0 {
        assert before[i] in before;
        var k :| 0 <= k < |front| && front[k].0 == before[i].playerId;
        assert members[k].0 != members[|front|].0;
      }
    }
  }

  /** Listed are exactly the members whose data is still there, each with its score and its data. */
  lemma {:induction false} ListedIs(members: seq<(string, int)>, rawMeta: map<string, Meta>, w: Waiting)
    ensures w in Listed(members, rawMeta) <==>
            (w.playerId, w.rating) in members && w.playerId in rawMeta && w.meta == rawMeta[w.playerId]
  {
    if members != [] {
      var front, last := members[..|members| - 1], members[|members| - 1];
      ListedIs(front, rawMeta, w);
      assert (w.playerId, w.rating) in members <==> (w.playerId, w.rating) in front || (w.playerId, w.rating) == last;
      assert Listed(members, rawMeta) ==
          Listed(front, rawMeta) + if last.0 in rawMeta then [Waiting(last.0, last.1, rawMeta[last.0])] else [];
    }
  }

  /** So nobody who waits with data is missing from the sweep's list, and nobody else is on it. */
  lemma WaitingListIs(members: seq<(string, int)>, rawMeta: map<string, Meta>, w: Waiting)
    requires DistinctMembers(members)
    ensures w in WaitingList(members, rawMeta) <==>
            (w.playerId, w.rating) in members && w.playerId in rawMeta && w.meta == rawMeta[w.playerId]
    ensures DistinctIds(WaitingList(members, rawMeta)) && OldestFirst(WaitingList(members, rawMeta))
  {
    ListedIs(members, rawMeta, w);
    SameElements(WaitingList(members, rawMeta), Listed(members, rawMeta));
    WaitingListSound(members, rawMeta);
  }

  lemma WaitingListSound(members: seq<(string, int)>, rawMeta: map<string, Meta>)
    requires DistinctMembers(members)
    ensures DistinctIds(WaitingList(members, rawMeta)) && OldestFirst(WaitingList(members, rawMeta))
  {
    var listed, ws := Listed(members, rawMeta), WaitingList(members, rawMeta);
    ListedDistinct(members, rawMeta);
    SortSorted(ByJoin(), listed);
    forall i, j | 0 <= i < j < |ws| ensures ws[i].meta.joinedAt <= ws[j].meta.joinedAt {
      assert ByJoin()(ws[i], ws[j]);
    }
    SameElements(ws, listed);
    OnceEach(listed);
    forall i, j | 0 <= i < j < |ws| ensures ws[i].playerId != ws[j].playerId {
      if ws[i].playerId == ws[j].playerId {
        assert ws[i] in listed && ws[j] in listed;
        var a :| 0 <= a < |listed| && listed[a] == ws[i];
        var b :| 0 <= b < |listed| && listed[b] == ws[j];
        assert a == b;
        TwiceIn(ws, i, j);
      }
    }
  }

  // ---------------------------------------------------------------------------------------
  //  The sweep
  // ---------------------------------------------------------------------------------------

  function Abs(x: int): int { if x < 0 then -x else x }

  function Window(cfg: Config, now: int, a: Waiting, b: Waiting): int
    requires cfg.stepIntervalMs > 0
  {
    var da, db := CurrentDelta(cfg, now - a.meta.joinedAt), CurrentDelta(cfg, now - b.meta.joinedAt);
    if da < db then db else da
  }

  predicate Compatible(cfg: Config, now: int, a: Waiting, b: Waiting)
    requires cfg.stepIntervalMs > 0
  {
    Abs(a.rating - b.rating) <= Window(cfg, now, a, b)
  }

  predicate Sensible(cfg: Config) { cfg.stepIntervalMs > 0 && cfg.deltaStep >= 0 }

  lemma QuotientGrows(x: int, y: int, d: int)
    requires 0 <= x <= y && d > 0
    ensures x / d <= y / d
  {
    var a, b := x / d, y / d;
    assert a * d <= x && y < b * d + d;
    assert (a - b) * d == a * d - b * d;
    MultipleAtLeast(a - b, d);
  }

  lemma MultipleAtLeast(n: int, d: int)
    requires d > 0
    ensures n >= 1 ==> n * d >= d
  {
  }

  lemma StepsGrow(a: int, b: int, step: int)
    requires a <= b && step >= 0
    ensures a * step <= b * step
  {
  }

  /** The window only widens, so the one who waited longer sets it, up to the maximum. */
  lemma LongerWaitSetsWindow(cfg: Config, now: int, a: Waiting, b: Waiting)
    requires Sensible(cfg) && a.meta.joinedAt <= b.meta.joinedAt
    ensures Window(cfg, now, a, b) == CurrentDelta(cfg, now - a.meta.joinedAt) <= cfg.maxDelta
  {
    var wa, wb := now - a.meta.joinedAt, now - b.meta.joinedAt;
    var ta, tb := if wa < 0 then 0 else wa, if wb < 0 then 0 else wb;
    QuotientGrows(tb, ta, cfg.stepIntervalMs);
    StepsGrow(tb / cfg.stepIntervalMs, ta / cfg.stepIntervalMs, cfg.deltaStep);
  }

  lemma OneStepMore(waitedMs: int, interval: int)
    requires waitedMs >= 0 && interval > 0
    ensures (waitedMs + interval) / interval == waitedMs / interval + 1
    ensures waitedMs < interval ==> waitedMs / interval == 0
  {
    var q, r := waitedMs / interval, waitedMs % interval;
    assert waitedMs + interval == (q + 1) * interval + r;
    QuotientIs(waitedMs + interval, interval, q + 1, r);
    if waitedMs < interval { QuotientIs(waitedMs, interval, 0, waitedMs); }
  }

  lemma QuotientIs(x: int, d: int, q: int, r: int)
    requires d > 0 && 0 <= r < d && x == q * d + r
    ensures x / d == q
  {
    var gap := x / d - q;
    assert gap * d == x / d * d - q * d == r - x % d;
    assert -gap * d == -(gap * d);
    MultipleAtLeast(gap, d);
    MultipleAtLeast(-gap, d);
  }

  /** Two fit exactly if their ratings are no further apart than the window of the one who has waited longer. */
  lemma FitIffWithinLongerWindow(cfg: Config, now: int, a: Waiting, b: Waiting)
    requires Sensible(cfg) && a.meta.joinedAt <= b.meta.joinedAt
    ensures Compatible(cfg, now, a, b) <==>
            var reach := CurrentDelta(cfg, now - a.meta.joinedAt); -reach <= a.rating - b.rating <= reach
    ensures Compatible(cfg, now, a, b) == Compatible(cfg, now, b, a)
  {
    LongerWaitSetsWindow(cfg, now, a, b);
  }

  /** The window starts at its initial width and is one step wider after every interval, up to the maximum. */
  lemma WindowWidensByStep(cfg: Config, waitedMs: int)
    requires Sensible(cfg)
    ensures waitedMs < cfg.stepIntervalMs ==>
              CurrentDelta(cfg, waitedMs) == if cfg.initialDelta < cfg.maxDelta then cfg.initialDelta else cfg.maxDelta
    ensures waitedMs >= 0 ==>
              var next := CurrentDelta(cfg, waitedMs) + cfg.deltaStep;
              CurrentDelta(cfg, waitedMs + cfg.stepIntervalMs) == if next < cfg.maxDelta then next else cfg.maxDelta
  {
    if waitedMs >= 0 {
      OneStepMore(waitedMs, cfg.stepIntervalMs);
      var steps := waitedMs / cfg.stepIntervalMs;
      assert (steps + 1) * cfg.deltaStep == steps * cfg.deltaStep + cfg.deltaStep;
    } else {
      OneStepMore(0, cfg.stepIntervalMs);
    }
  }

  /** With the platform's numbers: from 200 points to 500, reached after a minute. */
  lemma DefaultWindow(waitedMs: int)
    ensures Sensible(DEFAULT_CONFIG) && 200 <= CurrentDelta(DEFAULT_CONFIG, waitedMs) <= 500
    ensures CurrentDelta(DEFAULT_CONFIG, waitedMs) == 500 <==> waitedMs >= 60_000
  {
  }

  /** A match of two players of the list: the longer waiting has White, and is within reach. */
  ghost predicate FairMatch(cfg: Config, now: int, ws: seq<Waiting>, m: Match)
    requires Sensible(cfg)
  {
    exists a, b :: a in ws && b in ws && a != b && PlaysWhite(cfg, now, a, b, m)
  }

  predicate PlaysWhite(cfg: Config, now: int, a: Waiting, b: Waiting, m: Match)
    requires Sensible(cfg)
  {
    && m == Match(a.playerId, b.playerId) && a.meta.joinedAt <= b.meta.joinedAt
    && Abs(a.rating - b.rating) <= CurrentDelta(cfg, now - a.meta.joinedAt) <= cfg.maxDelta
  }

  function MatchedIds(matches: seq<Match>): seq<string> {
    if matches == [] then []
    else
      var m := matches[|matches| - 1];
      MatchedIds(matches[..|matches| - 1]) + [m.whitePlayerId, m.blackPlayerId]
  }

  lemma MatchedSnoc(matches: seq<Match>, m: Match)
    ensures multiset(MatchedIds(matches + [m])) ==
            multiset(MatchedIds(matches)) + multiset{m.whitePlayerId, m.blackPlayerId}
  {
    assert (matches + [m])[..|matches|] == matches;
  }

  /** A script for these two has failed since the log had `n` entries. */
  ghost predicate FailedSince(failed: seq<(string, string)>, n: nat, a: Waiting, b: Waiting) {
    exists k :: n <= k < |failed| && failed[k] == (a.playerId, b.playerId)
  }

  lemma FailedStays(failed: seq<(string, string)>, more: seq<(string, string)>, n: nat, a: Waiting, b: Waiting)
    requires failed <= more && FailedSince(failed, n, a, b)
    ensures FailedSince(more, n, a, b)
  {
    var k :| n <= k < |failed| && failed[k] == (a.playerId, b.playerId);
    assert more[k] == (a.playerId, b.playerId);
  }

  /** Two who do not fit, or for whom a script has failed. */
  ghost predicate Settled(cfg: Config, now: int, failed: seq<(string, string)>, n: nat, a: Waiting, b: Waiting)
    requires Sensible(cfg)
  {
    Compatible(cfg, now, a, b) ==> FailedSince(failed, n, a, b)
  }

  /** Everybody before position `i` is settled with everybody after them. */
  ghost predicate SettledUpTo(
    cfg: Config, now: int, ws: seq<Waiting>, i: int, failed: seq<(string, string)>, n: nat)
    requires Sensible(cfg) && i <= |ws|
  {
    forall p, q :: 0 <= p < i && p < q < |ws| ==> Settled(cfg, now, failed, n, ws[p], ws[q])
  }

  lemma SettledStays(
    cfg: Config, now: int, ws: seq<Waiting>, i: int, failed: seq<(string, string)>, more: seq<(string, string)>, n: nat)
    requires Sensible(cfg) && i <= |ws| && failed <= more && SettledUpTo(cfg, now, ws, i, failed, n)
    ensures SettledUpTo(cfg, now, ws, i, more, n)
  {
    forall p, q | 0 <= p < i && p < q < |ws| ensures Settled(cfg, now, more, n, ws[p], ws[q]) {
      assert Settled(cfg, now, failed, n, ws[p], ws[q]);
      if FailedSince(failed, n, ws[p], ws[q]) { FailedStays(failed, more, n, ws[p], ws[q]); }
    }
  }

  /** The list without positions `i` and `j`. */
  function Spliced(ws: seq<Waiting>, i: nat, j: nat): (r: seq<Waiting>)
    requires i < j < |ws|
    ensures |r| == |ws| - 2
  {
    ws[..i] + ws[i + 1..j] + ws[j + 1..]
  }

  /** Where a position of the spliced list came from. */
  function Origin(i: nat, j: nat, k: int): int { if k < i then k else if k < j - 1 then k + 1 else k + 2 }

  lemma SplicedOrigin(ws: seq<Waiting>, i: nat, j: nat)
    requires i < j < |ws|
    ensures forall k :: 0 <= k < |ws| - 2 ==> Spliced(ws, i, j)[k] == ws[Origin(i, j, k)]
    ensures multiset(Ids(ws)) == multiset(Ids(Spliced(ws, i, j))) + multiset{ws[i].playerId, ws[j].playerId}
  {
    var ids := Ids(ws);
    assert ids == ids[..i] + [ids[i]] + ids[i + 1..j] + [ids[j]] + ids[j + 1..];
    assert Ids(Spliced(ws, i, j)) == ids[..i] + ids[i + 1..j] + ids[j + 1..];
  }

  /** Everything the outer loop keeps, about the list fetched at the start and what is left of it. */
  ghost predicate SweepInv(
    cfg: Config, now: int, start: seq<Waiting>, ws: seq<Waiting>, matches: seq<Match>, i: int,
    failed: seq<(string, string)>, n: nat)
    requires Sensible(cfg)
  {
    && 0 <= i <= |ws|
    && OldestFirst(ws) && DistinctIds(ws) && (forall w :: w in ws ==> w in start)
    && (forall m :: m in matches ==> FairMatch(cfg, now, start, m))
    && multiset(Ids(start)) == multiset(Ids(ws)) + multiset(MatchedIds(matches))
    && SettledUpTo(cfg, now, ws, i, failed, n)
  }

  /** The player who joined earlier has White. */
  function MatchOf(a: Waiting, b: Waiting): Match {
    if a.meta.joinedAt <= b.meta.joinedAt then Match(a.playerId, b.playerId) else Match(b.playerId, a.playerId)
  }

  lemma SplicedKeepsList(ws: seq<Waiting>, start: seq<Waiting>, i: nat, j: nat)
    requires OldestFirst(ws) && DistinctIds(ws) && (forall w :: w in ws ==> w in start)
    requires i < j < |ws|
    ensures var rest := Spliced(ws, i, j);
            OldestFirst(rest) && DistinctIds(rest) && (forall w :: w in rest ==> w in start)
  {
    var rest := Spliced(ws, i, j);
    SplicedOrigin(ws, i, j);
    forall p, q | 0 <= p < q < |rest|
      ensures rest[p].meta.joinedAt <= rest[q].meta.joinedAt && rest[p].playerId != rest[q].playerId
    {
      assert rest[p] == ws[Origin(i, j, p)] && rest[q] == ws[Origin(i, j, q)];
    }
    forall w | w in rest ensures w in start {
      var k :| 0 <= k < |rest| && rest[k] == w;
      assert ws[Origin(i, j, k)] in ws;
    }
  }

  lemma SplicedKeepsSettled(
    cfg: Config, now: int, ws: seq<Waiting>, i: nat, j: nat, failed: seq<(string, string)>, n: nat)
    requires Sensible(cfg) && i < j < |ws| && SettledUpTo(cfg, now, ws, i, failed, n)
    ensures SettledUpTo(cfg, now, Spliced(ws, i, j), i, failed, n)
  {
    var rest := Spliced(ws, i, j);
    SplicedOrigin(ws, i, j);
    forall p, q | 0 <= p < i && p < q < |rest| ensures Settled(cfg, now, failed, n, rest[p], rest[q]) {
      assert rest[p] == ws[Origin(i, j, p)] && rest[q] == ws[Origin(i, j, q)];
    }
  }

  lemma PairIsFair(cfg: Config, now: int, start: seq<Waiting>, a: Waiting, b: Waiting)
    requires Sensible(cfg) && a in start && b in start && a != b
    requires a.meta.joinedAt <= b.meta.joinedAt && Compatible(cfg, now, a, b)
    ensures FairMatch(cfg, now, start, MatchOf(a, b))
  {
    LongerWaitSetsWindow(cfg, now, a, b);
    assert PlaysWhite(cfg, now, a, b, MatchOf(a, b));
  }

  lemma PairingKeepsInv(
    cfg: Config, now: int, start: seq<Waiting>, ws: seq<Waiting>, matches: seq<Match>, i: nat, j: nat,
    failed: seq<(string, string)>, more: seq<(string, string)>, n: nat)
    requires Sensible(cfg) && SweepInv(cfg, now, start, ws, matches, i, failed, n) && failed <= more
    requires i < j < |ws| && Compatible(cfg, now, ws[i], ws[j])
    ensures SweepInv(cfg, now, start, Spliced(ws, i, j), matches + [MatchOf(ws[i], ws[j])], i, more, n)
  {
    var m := MatchOf(ws[i], ws[j]);
    SplicedKeepsList(ws, start, i, j);
    SplicedOrigin(ws, i, j);
    SettledStays(cfg, now, ws, i, failed, more, n);
    SplicedKeepsSettled(cfg, now, ws, i, j, more, n);
    assert ws[i] in ws && ws[j] in ws && ws[i].playerId != ws[j].playerId;
    PairIsFair(cfg, now, start, ws[i], ws[j]);
    MatchedSnoc(matches, m);
  }

  /**
   The inner loop: the first player after position `i` who fits and whom the script still finds
   waiting; for everybody who fits and was passed over, a script has failed.
   */
  method FindPartner(queue: Queue, cfg: Config, now: int, waiting: seq<Waiting>, i: nat)
    returns (partner: Option<nat>)
    requires Sensible(cfg) && i < |waiting| && DistinctIds(waiting) && queue.Valid()
    modifies queue
    ensures queue.Valid() && old(queue.failed) <= queue.failed
    ensures partner.Some? ==> i < partner.value < |waiting| && Compatible(cfg, now, waiting[i], waiting[partner.value])
    ensures SettledWith(cfg, now, waiting, i, if partner.Some? then partner.value else |waiting|, queue.failed,
                        |old(queue.failed)|)
    ensures partner.None? ==> Played(old(queue.account.games), queue.account.games, [])
    ensures partner.Some? ==>
            Played(old(queue.account.games), queue.account.games,
                [waiting[i].playerId, waiting[partner.value].playerId])
  {
    var j := i + 1;
    ghost var n := |queue.failed|;
    while j < |waiting|
      invariant i + 1 <= j <= |waiting| && queue.Valid() && old(queue.failed) <= queue.failed
      invariant SettledWith(cfg, now, waiting, i, j, queue.failed, n)
      invariant Played(old(queue.account.games), queue.account.games, [])
    {
      ghost var failed, games := queue.failed, queue.account.games;
      var paired := Attempt(queue, cfg, now, waiting[i], waiting[j]);
      PlayedSince(old(queue.account.games), games, queue.account.games,
                  if paired then [waiting[i].playerId, waiting[j].playerId] else []);
      if paired {
        assert queue.failed == failed;
        return Some(j);
      }
      NextSettled(cfg, now, waiting, i, j, failed, queue.failed, n);
      j := j + 1;
    }
    return None;
  }

  lemma PlayedSince(first: map<string, nat>, before: map<string, nat>, after: map<string, nat>, ids: seq<string>)
    requires Played(first, before, []) && Played(before, after, ids)
    ensures Played(first, after, ids)
  {
    forall id: string ensures Times(after, id) >= Times(first, id) + multiset(ids)[id] {
      var none: seq<string> := [];
      assert Times(before, id) >= Times(first, id) + multiset(none)[id];
    }
  }

  /** The body of the inner loop: the script for two who fit, after whatever others have done. */
  method Attempt(queue: Queue, cfg: Config, now: int, a: Waiting, b: Waiting) returns (paired: bool)
    requires Sensible(cfg) && a.playerId != b.playerId && queue.Valid()
    modifies queue
    ensures queue.Valid() && (paired ==> Compatible(cfg, now, a, b))
    ensures queue.failed == old(queue.failed) +
              if Compatible(cfg, now, a, b) && !paired then [(a.playerId, b.playerId)] else []
    ensures Played(old(queue.account.games), queue.account.games, if paired then [a.playerId, b.playerId] else [])
  {
    if !Compatible(cfg, now, a, b) { return false; }
    queue.Interference();
    paired := queue.PairScript(a.playerId, b.playerId);
  }

  /** The player at position `i` is settled with everybody from there up to position `j`. */
  ghost predicate SettledWith(
    cfg: Config, now: int, ws: seq<Waiting>, i: nat, j: nat, failed: seq<(string, string)>, n: nat)
    requires Sensible(cfg) && i < j <= |ws|
  {
    forall q :: i < q < j ==> Settled(cfg, now, failed, n, ws[i], ws[q])
  }

  lemma NextSettled(
    cfg: Config, now: int, ws: seq<Waiting>, i: nat, j: nat, failed: seq<(string, string)>,
    more: seq<(string, string)>, n: nat)
    requires Sensible(cfg) && i < j < |ws| && SettledWith(cfg, now, ws, i, j, failed, n) && n <= |failed|
    requires more == failed + if Compatible(cfg, now, ws[i], ws[j]) then [(ws[i].playerId, ws[j].playerId)] else []
    ensures SettledWith(cfg, now, ws, i, j + 1, more, n)
  {
    forall q | i < q < j + 1 ensures Settled(cfg, now, more, n, ws[i], ws[q]) {
      if q < j {
        assert Settled(cfg, now, failed, n, ws[i], ws[q]);
        if FailedSince(failed, n, ws[i], ws[q]) { FailedStays(failed, more, n, ws[i], ws[q]); }
      } else if Compatible(cfg, now, ws[i], ws[j]) {
        assert more[|failed|] == (ws[i].playerId, ws[j].playerId);
      }
    }
  }

  /** Between two moments the listed players were paired at least as often as they are listed. */
  ghost predicate Played(before: map<string, nat>, after: map<string, nat>, ids: seq<string>) {
    forall id: string :: Times(after, id) >= Times(before, id) + multiset(ids)[id]
  }

  lemma PlayedSnoc(
    first: map<string, nat>, before: map<string, nat>, after: map<string, nat>, matches: seq<Match>, a: Waiting,
    b: Waiting)
    requires Played(first, before, MatchedIds(matches)) && Played(before, after, [a.playerId, b.playerId])
    ensures Played(first, after, MatchedIds(matches + [MatchOf(a, b)]))
  {
    var m := MatchOf(a, b);
    MatchedSnoc(matches, m);
    assert multiset{m.whitePlayerId, m.blackPlayerId} == multiset([a.playerId, b.playerId]);
    forall id: string ensures Times(after, id) >= Times(first, id) + multiset(MatchedIds(matches + [m]))[id] {
      assert Times(before, id) >= Times(first, id) + multiset(MatchedIds(matches))[id];
      assert Times(after, id) >= Times(before, id) + multiset([a.playerId, b.playerId])[id];
    }
  }

  lemma PlayedNothing(first: map<string, nat>, before: map<string, nat>, after: map<string, nat>, matches: seq<Match>)
    requires Played(first, before, MatchedIds(matches)) && Played(before, after, [])
    ensures Played(first, after, MatchedIds(matches))
  {
    forall id: string ensures Times(after, id) >= Times(first, id) + multiset(MatchedIds(matches))[id] {
      assert Times(before, id) >= Times(first, id) + multiset(MatchedIds(matches))[id];
      var none: seq<string> := [];
      assert Times(after, id) >= Times(before, id) + multiset(none)[id];
    }
  }

  lemma NextKeepsInv(
    cfg: Config, now: int, start: seq<Waiting>, ws: seq<Waiting>, matches: seq<Match>, i: nat,
    failed: seq<(string, string)>, more: seq<(string, string)>, n: nat)
    requires Sensible(cfg) && SweepInv(cfg, now, start, ws, matches, i, failed, n) && i < |ws|
    requires failed <= more && n <= |failed| && SettledWith(cfg, now, ws, i, |ws|, more, |failed|)
    ensures SweepInv(cfg, now, start, ws, matches, i + 1, more, n)
  {
    SettledStays(cfg, now, ws, i, failed, more, n);
    forall p, q | 0 <= p < i + 1 && p < q < |ws| ensures Settled(cfg, now, more, n, ws[p], ws[q]) {
      if p == i { assert Settled(cfg, now, more, |failed|, ws[i], ws[q]); }
    }
  }

  /** One turn of the outer loop: pairs the player at position `i`, or goes on to the next. */
  method SweepTurn(
    queue: Queue, cfg: Config, now: int, waiting: seq<Waiting>, i: nat, matches: seq<Match>,
    ghost start: seq<Waiting>, ghost n: nat)
    returns (waiting': seq<Waiting>, i': nat, matches': seq<Match>)
    requires Sensible(cfg) && queue.Valid() && i < |waiting| && n <= |queue.failed|
    requires SweepInv(cfg, now, start, waiting, matches, i, queue.failed, n)
    modifies queue
    ensures queue.Valid() && old(queue.failed) <= queue.failed
    ensures SweepInv(cfg, now, start, waiting', matches', i', queue.failed, n)
    ensures |waiting'| - i' < |waiting| - i
    ensures forall first :: Played(first, old(queue.account.games), MatchedIds(matches)) ==>
            Played(first, queue.account.games, MatchedIds(matches'))
  {
    waiting', i', matches' := waiting, i, matches;
    ghost var games, failed := queue.account.games, queue.failed;
    var partner := FindPartner(queue, cfg, now, waiting, i);
    if partner.Some? {
      var j := partner.value;
      PairingKeepsInv(cfg, now, start, waiting, matches, i, j, failed, queue.failed, n);
      matches' := matches + [MatchOf(waiting[i], waiting[j])];
      waiting' := Spliced(waiting, i, j);
      forall first | Played(first, games, MatchedIds(matches))
        ensures Played(first, queue.account.games, MatchedIds(matches'))
      {
        PlayedSnoc(first, games, queue.account.games, matches, waiting[i], waiting[j]);
      }
    } else {
      NextKeepsInv(cfg, now, start, waiting, matches, i, failed, queue.failed, n);
      i' := i + 1;
      forall first | Played(first, games, MatchedIds(matches))
        ensures Played(first, queue.account.games, MatchedIds(matches'))
      {
        PlayedNothing(first, games, queue.account.games, matches);
      }
    }
  }

  /**
   The sweep over a fetched list, with other requests at work between the atomic scripts. Each
   listed player is matched at most once; every match is fair and was a game for both players; and
   if two of those left over are within each other's window, their own script found one of them gone.
   */
  method SweepBucket(queue: Queue, cfg: Config, members: seq<(string, int)>, rawMeta: map<string, Meta>, now: int)
    returns (matches: seq<Match>, ghost left: seq<Waiting>)
    requires Sensible(cfg) && DistinctMembers(members) && queue.Valid()
    modifies queue
    ensures queue.Valid() && old(queue.failed) <= queue.failed
    ensures Played(old(queue.account.games), queue.account.games, MatchedIds(matches))
    ensures |members| < 2 ==> matches == []
    ensures |members| >= 2 ==>
              var start := WaitingList(members, rawMeta);
              && (forall m :: m in matches ==> FairMatch(cfg, now, start, m))
              && multiset(Ids(start)) == multiset(Ids(left)) + multiset(MatchedIds(matches))
              && (forall p, q :: 0 <= p < q < |left| && Compatible(cfg, now, left[p], left[q]) ==>
                  FailedSince(queue.failed, |old(queue.failed)|, left[p], left[q]))
  {
    matches, left := [], [];
    if |members| < 2 { return; }
    var waiting := WaitingList(members, rawMeta);
    ghost var start, n := waiting, |queue.failed|;
    WaitingListSound(members, rawMeta);
    var i := 0;
    while i < |waiting|
      invariant queue.Valid() && old(queue.failed) <= queue.failed
      invariant SweepInv(cfg, now, start, waiting, matches, i, queue.failed, n)
      invariant Played(old(queue.account.games), queue.account.games, MatchedIds(matches))
      decreases |waiting| - i
    {
      waiting, i, matches := SweepTurn(queue, cfg, now, waiting, i, matches, start, n);
    }
    left := waiting;
    forall p, q | 0 <= p < q < |left| && Compatible(cfg, now, left[p], left[q])
      ensures FailedSince(queue.failed, n, left[p], left[q])
    {
      assert Settled(cfg, now, queue.failed, n, left[p], left[q]);
    }
  }

  /** The counts of the sweep say that nobody plays twice and nobody left over plays. */
  lemma NobodyTwice(
    members: seq<(string, int)>, rawMeta: map<string, Meta>, left: seq<Waiting>, matches: seq<Match>, id: string)
    requires DistinctMembers(members)
    requires multiset(Ids(WaitingList(members, rawMeta))) == multiset(Ids(left)) + multiset(MatchedIds(matches))
    ensures multiset(MatchedIds(matches))[id] + multiset(Ids(left))[id] <= 1
  {
    WaitingListSound(members, rawMeta);
    OneOfEachId(WaitingList(members, rawMeta), id);
  }

  lemma {:induction false} OneOfEachId(ws: seq<Waiting>, id: string)
    requires DistinctIds(ws)
    ensures multiset(Ids(ws))[id] <= 1
  {
    if ws != [] {
      OneOfEachId(ws[1..], id);
      assert Ids(ws) == [ws[0].playerId] + Ids(ws[1..]);
      if ws[0].playerId == id {
        assert id !in Ids(ws[1..]);
        assert id !in multiset(Ids(ws[1..]));
      }
    }
  }
}
