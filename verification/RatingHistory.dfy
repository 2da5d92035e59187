/**
 Several periods over the same rating rows. Each period keeps a history of the snapshots it started
 from, and any period can be computed again at any time, in any order.
 */
module RatingHistory {
  import opened Wrappers
  import opened Sorting
  import opened Glicko2Update
  import opened RatingPeriod
  import opened RatingRecompute

  /** One computation of a period: its own calculator, and its games as they stand at the time. */
  datatype Period = Period(id: string, rate: Calculator, games: seq<RatedGame>)

  datatype Book = Book(current: map<string, State>, history: map<string, map<string, PriorRow>>)

  function PriorOf(b: Book, period: string): map<string, PriorRow> {
    if period in b.history then b.history[period] else map[]
  }

  function View(b: Book, period: string): Tables { Tables(b.current, PriorOf(b, period)) }

  function StatesFor(b: Book, p: Period): map<string, State> { PrePeriodStates(View(b, p.id), p.games) }

  /** Computing a period overwrites the rows of its players and its own history entries. */
  function Computed(b: Book, p: Period): Book {
    var stored := Stored(p.rate, View(b, p.id), p.games);
    Book(b.current + stored.current, b.history[p.id := PriorOf(b, p.id) + stored.prior])
  }

  /** The snapshot from which a computation of the period starts for this player. */
  function StartOf(b: Book, period: string, id: string): Snapshot { RebuiltState(View(b, period), id).snapshot }

  function StartCount(b: Book, period: string, id: string): int { RebuiltState(View(b, period), id).gamesPlayed }

  ghost predicate ComputedAt(books: seq<Book>, run: seq<Period>, k: int)
    requires |books| == |run| + 1 && 0 <= k < |run|
  {
    books[k + 1] == Computed(books[k], run[k])
  }

  /** The books before and after each computation of a run, of any periods in any order. */
  ghost predicate IsRun(books: seq<Book>, run: seq<Period>) {
    |books| == |run| + 1 && forall k :: 0 <= k < |run| ==> ComputedAt(books, run, k)
  }

  // ---------------------------------------------------------------------------------------
  //  One computation
  // ---------------------------------------------------------------------------------------

  lemma ComputedRow(b: Book, p: Period, id: string)
    ensures var next := Computed(b, p);
            && (id in next.current <==> id in b.current || id in Players(p.games))
            && (id in next.current ==>
                && id in PriorOf(next, p.id)
                && next.current[id] == RowAfter(ResultOf(p.rate, p.games, StatesFor(b, p), id))
                && next.current[id].gamesPlayed == StartCount(b, p.id, id) + |GamesOf(p.games, id)|
                && PriorOf(next, p.id)[id] == PriorRow(StartOf(b, p.id, id), |GamesOf(p.games, id)|))
  {
  }

  lemma OtherHistory(b: Book, p: Period, period: string)
    requires period != p.id
    ensures PriorOf(Computed(b, p), period) == PriorOf(b, period)
  {
  }

  /** What a computation does to the histories and the counts, without the ratings. */
  ghost predicate Kept(b: Book, p: Period, c: Book) {
    && (forall id :: id in c.current <==> id in b.current || id in Players(p.games))
    && (forall id :: id in c.current ==> id in PriorOf(c, p.id))
    && (forall id :: id in c.current ==>
        PriorOf(c, p.id)[id] == PriorRow(StartOf(b, p.id, id), |GamesOf(p.games, id)|))
    && (forall id :: id in c.current ==>
        c.current[id].gamesPlayed == StartCount(b, p.id, id) + |GamesOf(p.games, id)|)
    && (forall period :: period != p.id ==> PriorOf(c, period) == PriorOf(b, period))
  }

  lemma ComputedKept(b: Book, p: Period, c: Book)
    requires c == Computed(b, p)
    ensures Kept(b, p, c)
  {
    forall id
      ensures id in c.current <==> id in b.current || id in Players(p.games)
      ensures id in c.current ==>
              && id in PriorOf(c, p.id)
              && PriorOf(c, p.id)[id] == PriorRow(StartOf(b, p.id, id), |GamesOf(p.games, id)|)
              && c.current[id].gamesPlayed == StartCount(b, p.id, id) + |GamesOf(p.games, id)|
    {
      ComputedRow(b, p, id);
    }
    forall period | period != p.id ensures PriorOf(c, period) == PriorOf(b, period) { OtherHistory(b, p, period); }
  }

  /** Whoever has a history entry has a row. */
  ghost predicate Rooted(b: Book) { forall period, id :: id in PriorOf(b, period) ==> id in b.current }

  lemma KeptRooted(b: Book, p: Period, c: Book)
    requires Rooted(b) && Kept(b, p, c) && PriorOf(c, p.id).Keys <= c.current.Keys
    ensures Rooted(c)
  {
    forall period, id | id in PriorOf(c, period) ensures id in c.current {
      if period != p.id { assert id in PriorOf(b, period); }
    }
  }

  lemma ComputedRooted(b: Book, p: Period, c: Book)
    requires Rooted(b) && c == Computed(b, p)
    ensures Rooted(c)
  {
    ComputedKept(b, p, c);
    forall id | id in PriorOf(c, p.id) ensures id in c.current { ComputedRow(b, p, id); }
    KeptRooted(b, p, c);
  }

  ghost predicate KeptAt(books: seq<Book>, run: seq<Period>, k: int)
    requires |books| == |run| + 1 && 0 <= k < |run|
  {
    Rooted(books[k]) && Rooted(books[k + 1]) && Kept(books[k], run[k], books[k + 1])
  }

  ghost predicate AllKept(books: seq<Book>, run: seq<Period>) {
    |books| == |run| + 1 && forall k :: 0 <= k < |run| ==> KeptAt(books, run, k)
  }

  lemma {:induction false} RunRooted(books: seq<Book>, run: seq<Period>, k: nat)
    requires IsRun(books, run) && Rooted(books[0]) && k <= |run|
    ensures Rooted(books[k])
  {
    if k > 0 {
      RunRooted(books, run, k - 1);
      assert ComputedAt(books, run, k - 1);
      ComputedRooted(books[k - 1], run[k - 1], books[k]);
    }
  }

  lemma RunsKeep(books: seq<Book>, run: seq<Period>)
    requires IsRun(books, run) && Rooted(books[0])
    ensures AllKept(books, run)
  {
    forall k | 0 <= k < |run| ensures KeptAt(books, run, k) {
      RunRooted(books, run, k);
      RunRooted(books, run, k + 1);
      assert ComputedAt(books, run, k);
      ComputedKept(books[k], run[k], books[k + 1]);
    }
  }

  // ---------------------------------------------------------------------------------------
  //  Histories stand
  // ---------------------------------------------------------------------------------------

  /** No computation, of this period or of another, changes the snapshot a history entry starts from. */
  lemma EntryStands(b: Book, p: Period, c: Book, period: string, id: string)
    requires Rooted(b) && Kept(b, p, c) && id in PriorOf(b, period)
    ensures id in PriorOf(c, period) && PriorOf(c, period)[id].before == PriorOf(b, period)[id].before
  {
    assert id in b.current;
    if period != p.id { assert PriorOf(c, period) == PriorOf(b, period); }
  }

  lemma EntryStandsAt(books: seq<Book>, run: seq<Period>, k: nat, period: string, id: string)
    requires AllKept(books, run) && k < |run| && id in PriorOf(books[k], period)
    ensures id in PriorOf(books[k + 1], period) && id in books[k + 1].current
    ensures PriorOf(books[k + 1], period)[id].before == PriorOf(books[k], period)[id].before
  {
    assert KeptAt(books, run, k);
    EntryStands(books[k], run[k], books[k + 1], period, id);
  }

  lemma {:induction false} EntryStandsThroughout(
    books: seq<Book>, run: seq<Period>, i: nat, j: nat, period: string, id: string)
    requires AllKept(books, run) && i < j <= |run| && id in PriorOf(books[i], period)
    ensures id in PriorOf(books[j], period) && id in books[j].current
    ensures PriorOf(books[j], period)[id].before == PriorOf(books[i], period)[id].before
  {
    if i < j - 1 { EntryStandsThroughout(books, run, i, j - 1, period, id); }
    EntryStandsAt(books, run, j - 1, period, id);
  }

  /** A later computation of a period starts, for everybody an earlier one covered, where that one did. */
  lemma StartStands(books: seq<Book>, run: seq<Period>, i: nat, j: nat, id: string)
    requires AllKept(books, run) && i < j <= |run| && id in books[i + 1].current
    ensures id in books[j].current
    ensures StartOf(books[j], run[i].id, id) == StartOf(books[i], run[i].id, id)
  {
    EntryAt(books, run, i, id);
    if i + 1 < j { EntryStandsThroughout(books, run, i + 1, j, run[i].id, id); }
    RebuiltFromEntry(books[j], run[i].id, id);
  }

  lemma EntryAt(books: seq<Book>, run: seq<Period>, k: nat, id: string)
    requires AllKept(books, run) && k < |run| && id in books[k + 1].current
    ensures id in PriorOf(books[k + 1], run[k].id)
    ensures PriorOf(books[k + 1], run[k].id)[id].before == StartOf(books[k], run[k].id, id)
  {
    assert KeptAt(books, run, k);
  }

  lemma RebuiltFromEntry(b: Book, period: string, id: string)
    requires id in b.current && id in PriorOf(b, period)
    ensures StartOf(b, period, id) == PriorOf(b, period)[id].before
  {
  }

  lemma OtherStandsAt(books: seq<Book>, run: seq<Period>, k: nat, period: string)
    requires AllKept(books, run) && k < |run| && period != run[k].id
    ensures PriorOf(books[k + 1], period) == PriorOf(books[k], period)
  {
    assert KeptAt(books, run, k);
  }

  lemma {:induction false} NotYetComputed(books: seq<Book>, run: seq<Period>, k: nat, period: string)
    requires AllKept(books, run) && k <= |run| && PriorOf(books[0], period) == map[]
    requires forall j :: 0 <= j < k ==> run[j].id != period
    ensures PriorOf(books[k], period) == map[]
  {
    if k > 0 {
      NotYetComputed(books, run, k - 1, period);
      OtherStandsAt(books, run, k - 1, period);
    }
  }

  /**
   So what happens to earlier periods in between is not seen: a recomputation starts from the row as it
   stood when the period was first computed, not from the row as it stands now.
   */
  lemma RecomputationStartsWhereItFirstDid(books: seq<Book>, run: seq<Period>, i: nat, j: nat, id: string)
    requires IsRun(books, run) && Rooted(books[0]) && i < j <= |run| && id in books[i].current
    requires PriorOf(books[0], run[i].id) == map[] && forall k :: 0 <= k < i ==> run[k].id != run[i].id
    ensures StartOf(books[j], run[i].id, id) == books[i].current[id].snapshot
  {
    RunsKeep(books, run);
    NotYetComputed(books, run, i, run[i].id);
    assert KeptAt(books, run, i);
    StartStands(books, run, i, j, id);
  }

  // ---------------------------------------------------------------------------------------
  //  Ratings: the last computation decides
  // ---------------------------------------------------------------------------------------

  lemma {:induction false} OpponentsPlay(games: seq<RatedGame>, id: string, e: PlayerGame)
    requires e in Entries(games, id)
    ensures e.opponentId in Players(games)
  {
    var g := games[0];
    if e in EntriesOf(g, id) {
      assert g in games;
    } else {
      OpponentsPlay(games[1..], id, e);
      assert forall h :: h in games[1..] ==> h in games;
    }
  }

  lemma SameOpponentsSameInputs(s: map<string, State>, t: map<string, State>, games: seq<RatedGame>, id: string)
    requires forall p :: p in Players(games) ==> StateOf(s, p).snapshot == StateOf(t, p).snapshot
    ensures Inputs(s, GamesOf(games, id)) == Inputs(t, GamesOf(games, id))
  {
    var own := GamesOf(games, id);
    SameElements(own, Entries(games, id));
    forall k | 0 <= k < |own| ensures InputOf(s, own[k]) == InputOf(t, own[k]) {
      assert own[k] in own;
      OpponentsPlay(games, id, own[k]);
    }
  }

  /** Two computations of a period that start alike for its players and this one rate this one alike. */
  lemma SameStartsSameRating(b: Book, c: Book, p: Period, id: string)
    requires id in Computed(b, p).current && id in Computed(c, p).current
    requires StartOf(b, p.id, id) == StartOf(c, p.id, id)
    requires forall o :: o in Players(p.games) ==> StartOf(b, p.id, o) == StartOf(c, p.id, o)
    ensures Computed(b, p).current[id].snapshot == Computed(c, p).current[id].snapshot
  {
    ComputedRow(b, p, id);
    ComputedRow(c, p, id);
    SameOpponentsSameInputs(StatesFor(b, p), StatesFor(c, p), p.games, id);
  }

  /**
   Whatever was computed in between, other periods, corrected ones or this one with other games: a
   computation of a period gives everybody it covered before the very rating it gave then.
   */
  lemma LastComputationDecides(books: seq<Book>, run: seq<Period>, i: nat, j: nat, id: string)
    requires IsRun(books, run) && Rooted(books[0]) && i < j < |run| && run[i] == run[j]
    requires id in books[i + 1].current
    ensures id in books[j + 1].current
    ensures books[j + 1].current[id].snapshot == books[i + 1].current[id].snapshot
  {
    RunsKeep(books, run);
    assert KeptAt(books, run, i) && KeptAt(books, run, j);
    StartStands(books, run, i, j, id);
    forall o | o in Players(run[i].games) ensures StartOf(books[i], run[i].id, o) == StartOf(books[j], run[i].id, o) {
      StartStands(books, run, i, j, o);
    }
    assert ComputedAt(books, run, i) && ComputedAt(books, run, j);
    SameStartsSameRating(books[i], books[j], run[i], id);
  }

  /**
   Computing a stored period once more keeps a player's rating exactly if the row still holds what that
   period stored; so it does if that period was also the last one to be computed.
   */
  lemma RecomputeKeepsRatingIff(books: seq<Book>, run: seq<Period>, i: nat, j: nat, id: string)
    requires IsRun(books, run) && Rooted(books[0]) && i < j < |run| && run[i] == run[j]
    requires id in books[i + 1].current
    ensures id in books[j].current && id in books[j + 1].current
    ensures books[j + 1].current[id].snapshot == books[j].current[id].snapshot <==>
            books[j].current[id].snapshot == books[i + 1].current[id].snapshot
    ensures run[j - 1] == run[i] ==> books[j + 1].current[id].snapshot == books[j].current[id].snapshot
  {
    RunsKeep(books, run);
    StartStands(books, run, i, j, id);
    LastComputationDecides(books, run, i, j, id);
    if run[j - 1] == run[i] && i < j - 1 { LastComputationDecides(books, run, i, j - 1, id); }
  }

  // ---------------------------------------------------------------------------------------
  //  Limits: every computation starts within them
  // ---------------------------------------------------------------------------------------

  /** What the update guarantees by its clamp. */
  ghost predicate KeepsLimits(rate: Calculator) { forall s, o :: InRange(s) ==> InRange(rate(s, o)) }

  ghost predicate WithinLimits(b: Book) {
    && (forall id :: id in b.current ==> InRange(b.current[id].snapshot))
    && (forall period, id :: id in PriorOf(b, period) ==> InRange(PriorOf(b, period)[id].before))
  }

  lemma StartWithin(b: Book, period: string, id: string)
    requires WithinLimits(b)
    ensures InRange(StartOf(b, period, id))
  {
  }

  lemma RowWithin(b: Book, p: Period, c: Book, id: string)
    requires WithinLimits(b) && KeepsLimits(p.rate) && c == Computed(b, p) && id in c.current
    ensures InRange(c.current[id].snapshot)
  {
    ComputedRow(b, p, id);
    StartWithin(b, p.id, id);
  }

  lemma EntryWithin(b: Book, p: Period, c: Book, period: string, id: string)
    requires WithinLimits(b) && c == Computed(b, p) && Rooted(c) && id in PriorOf(c, period)
    ensures InRange(PriorOf(c, period)[id].before)
  {
    if period == p.id {
      ComputedRow(b, p, id);
      StartWithin(b, p.id, id);
    } else {
      OtherHistory(b, p, period);
    }
  }

  lemma ComputedWithin(b: Book, p: Period, c: Book)
    requires Rooted(b) && WithinLimits(b) && KeepsLimits(p.rate) && c == Computed(b, p)
    ensures WithinLimits(c)
  {
    ComputedRooted(b, p, c);
    forall id | id in c.current ensures InRange(c.current[id].snapshot) { RowWithin(b, p, c, id); }
    forall period, id | id in PriorOf(c, period) ensures InRange(PriorOf(c, period)[id].before) {
      EntryWithin(b, p, c, period, id);
    }
  }

  lemma {:induction false} RunWithinLimits(books: seq<Book>, run: seq<Period>, k: nat)
    requires IsRun(books, run) && Rooted(books[0]) && WithinLimits(books[0]) && k <= |run|
    requires forall j :: 0 <= j < k ==> KeepsLimits(run[j].rate)
    ensures WithinLimits(books[k])
  {
    if k > 0 {
      RunWithinLimits(books, run, k - 1);
      RunRooted(books, run, k - 1);
      assert ComputedAt(books, run, k - 1);
      ComputedWithin(books[k - 1], run[k - 1], books[k]);
    }
  }

  /** In every run each computation starts from snapshots within the limits; so its bracket search succeeds. */
  lemma EveryStartWithinLimits(books: seq<Book>, run: seq<Period>, k: nat, period: string, id: string)
    requires IsRun(books, run) && Rooted(books[0]) && WithinLimits(books[0]) && k <= |run|
    requires forall j :: 0 <= j < k ==> KeepsLimits(run[j].rate)
    ensures InRange(StartOf(books[k], period, id))
  {
    RunWithinLimits(books, run, k);
    StartWithin(books[k], period, id);
  }

  // ---------------------------------------------------------------------------------------
  //  Counts: every period once
  // ---------------------------------------------------------------------------------------

  ghost predicate ComputedIn(run: seq<Period>, period: string) { exists j :: 0 <= j < |run| && run[j].id == period }

  /** Summed over the periods of the run, each period once. */
  ghost function CountedOnce(run: seq<Period>, count: Period -> nat): nat {
    if run == [] then 0
    else
      var front, last := run[..|run| - 1], run[|run| - 1];
      CountedOnce(front, count) + if ComputedIn(front, last.id) then 0 else count(last)
  }

  ghost predicate SameCounts(run: seq<Period>, count: Period -> nat) {
    forall i, j :: 0 <= i < |run| && 0 <= j < |run| && run[i].id == run[j].id ==> count(run[i]) == count(run[j])
  }

  lemma {:induction false} CountedAtLeast(run: seq<Period>, count: Period -> nat, i: nat)
    requires SameCounts(run, count) && i < |run|
    ensures CountedOnce(run, count) >= count(run[i])
  {
    var front, last := run[..|run| - 1], run[|run| - 1];
    if i < |front| {
      CountedAtLeast(front, count, i);
    } else if ComputedIn(front, last.id) {
      var j :| 0 <= j < |front| && front[j].id == last.id;
      CountedAtLeast(front, count, j);
      assert count(run[j]) == count(last);
    }
  }

  function GamesIn(id: string): Period -> nat { (p: Period) => |GamesOf(p.games, id)| }

  /** The games of a period are the same at each of its computations. */
  ghost predicate SameGames(run: seq<Period>) {
    forall i, j :: 0 <= i < |run| && 0 <= j < |run| ==> AgreeAt(run, i, j)
  }

  ghost predicate AgreeAt(run: seq<Period>, i: int, j: int)
    requires 0 <= i < |run| && 0 <= j < |run|
  {
    run[i].id == run[j].id ==> run[i].games == run[j].games
  }

  function Played(b: Book, id: string): int { if id in b.current then b.current[id].gamesPlayed else 0 }

  /** The history of a period has an entry for each of its players, with the number of games. */
  ghost predicate Listed(b: Book, p: Period) {
    && (forall id :: id in Players(p.games) ==> id in PriorOf(b, p.id))
    && (forall id :: id in PriorOf(b, p.id) ==> PriorOf(b, p.id)[id].gamesInPeriod == |GamesOf(p.games, id)|)
  }

  lemma CountAt(books: seq<Book>, run: seq<Period>, k: nat, id: string)
    requires AllKept(books, run) && k < |run| && id in PriorOf(books[k + 1], run[k].id)
    ensures PriorOf(books[k + 1], run[k].id)[id].gamesInPeriod == |GamesOf(run[k].games, id)|
  {
    assert KeptAt(books, run, k);
  }

  lemma {:induction false} EntryCounts(books: seq<Book>, run: seq<Period>, i: nat, j: nat, id: string)
    requires AllKept(books, run) && SameGames(run) && i < j <= |run| && id in PriorOf(books[j], run[i].id)
    ensures PriorOf(books[j], run[i].id)[id].gamesInPeriod == |GamesOf(run[i].games, id)|
  {
    if run[j - 1].id == run[i].id {
      assert AgreeAt(run, j - 1, i);
      CountAt(books, run, j - 1, id);
    } else {
      OtherStandsAt(books, run, j - 1, run[i].id);
      EntryCounts(books, run, i, j - 1, id);
    }
  }

  lemma PlayerAt(books: seq<Book>, run: seq<Period>, k: nat, id: string)
    requires AllKept(books, run) && k < |run| && id in Players(run[k].games)
    ensures id in PriorOf(books[k + 1], run[k].id)
  {
    assert KeptAt(books, run, k);
  }

  lemma PlayersHaveEntries(books: seq<Book>, run: seq<Period>, i: nat, j: nat, id: string)
    requires AllKept(books, run) && i < j <= |run| && id in Players(run[i].games)
    ensures id in PriorOf(books[j], run[i].id)
  {
    PlayerAt(books, run, i, id);
    if i + 1 < j { EntryStandsThroughout(books, run, i + 1, j, run[i].id, id); }
  }

  lemma StaysListed(books: seq<Book>, run: seq<Period>, i: nat, j: nat)
    requires AllKept(books, run) && SameGames(run) && i < j <= |run|
    ensures Listed(books[j], run[i])
  {
    var prior, games := PriorOf(books[j], run[i].id), run[i].games;
    forall id | id in Players(games) ensures id in prior { PlayersHaveEntries(books, run, i, j, id); }
    forall id | id in prior ensures prior[id].gamesInPeriod == |GamesOf(games, id)| {
      EntryCounts(books, run, i, j, id);
    }
  }

  /** A first computation adds its games. */
  lemma PlayedFirst(b: Book, p: Period, c: Book, id: string)
    requires Played(b, id) >= 0 && PriorOf(b, p.id) == map[] && Kept(b, p, c)
    ensures Played(c, id) == Played(b, id) + |GamesOf(p.games, id)|
  {
    if id !in Players(p.games) { NoGames(p.games, id); }
  }

  /** A further one takes the games out before it puts them in. */
  lemma PlayedAgain(b: Book, p: Period, c: Book, id: string)
    requires Rooted(b) && Listed(b, p) && Played(b, id) >= |GamesOf(p.games, id)| && Kept(b, p, c)
    ensures Played(c, id) == Played(b, id)
  {
    if id !in Players(p.games) { NoGames(p.games, id); }
  }

  /** In every run, every period's games count once, however often and in which order periods were computed. */
  lemma {:induction false} EveryPeriodCountsOnce(books: seq<Book>, run: seq<Period>, k: nat, id: string)
    requires IsRun(books, run) && SameGames(run) && books[0].history == map[] && Played(books[0], id) >= 0
    requires k <= |run|
    ensures CountsHold(books, run, k, id)
  {
    RunsKeep(books, run);
    if k > 0 {
      EveryPeriodCountsOnce(books, run, k - 1, id);
      PlayedNext(books, run, k - 1, id);
    }
  }

  /** Before the `k`-th computation the row counts the games of every period computed so far once. */
  ghost predicate CountsHold(books: seq<Book>, run: seq<Period>, k: nat, id: string)
    requires |books| == |run| + 1 && k <= |run|
  {
    Played(books[k], id) == Played(books[0], id) + CountedOnce(run[..k], GamesIn(id))
  }

  lemma SameCountsBefore(run: seq<Period>, k: nat, id: string)
    requires SameGames(run) && k <= |run|
    ensures SameCounts(run[..k], GamesIn(id))
  {
    forall i, j | 0 <= i < k && 0 <= j < k && run[i].id == run[j].id
      ensures GamesIn(id)(run[i]) == GamesIn(id)(run[j])
    {
      assert AgreeAt(run, i, j);
    }
  }

  lemma CountedNext(run: seq<Period>, k: nat, count: Period -> nat)
    requires k < |run|
    ensures CountedOnce(run[..k + 1], count) ==
            CountedOnce(run[..k], count) + if ComputedIn(run[..k], run[k].id) then 0 else count(run[k])
  {
    assert run[..k + 1][..k] == run[..k];
  }

  lemma PlayedNext(books: seq<Book>, run: seq<Period>, k: nat, id: string)
    requires AllKept(books, run) && SameGames(run) && books[0].history == map[] && Played(books[0], id) >= 0
    requires k < |run| && CountsHold(books, run, k, id)
    ensures CountsHold(books, run, k + 1, id)
  {
    assert KeptAt(books, run, k);
    CountedNext(run, k, GamesIn(id));
    if ComputedIn(run[..k], run[k].id) {
      var j :| 0 <= j < |run[..k]| && run[..k][j].id == run[k].id;
      assert AgreeAt(run, j, k);
      StaysListed(books, run, j, k);
      SameCountsBefore(run, k, id);
      CountedAtLeast(run[..k], GamesIn(id), j);
      PlayedAgain(books[k], run[k], books[k + 1], id);
    } else {
      forall j | 0 <= j < k ensures run[j].id != run[k].id { assert run[..k][j] == run[j]; }
      NotYetComputed(books, run, k, run[k].id);
      PlayedFirst(books[k], run[k], books[k + 1], id);
    }
  }

  // ---------------------------------------------------------------------------------------
  //  Where this differs from the design
  // ---------------------------------------------------------------------------------------

  function OneMorePoint(): Calculator {
    (s: Snapshot, o: seq<Outcome>) => Snapshot(s.rating + 1.0, s.deviation, s.volatility)
  }

  function TwoPoints(): Calculator {
    (s: Snapshot, o: seq<Outcome>) => Snapshot(s.rating + 2.0, s.deviation, s.volatility)
  }

  function OneRow(rating: real): Book {
    Book(map["a" := State(Snapshot(rating, 100.0, 0.06), 20, false, None)], map[])
  }

  /** What one computation of a period without games does to a player with a row. */
  ghost predicate IdleStep(b: Book, p: Period, c: Book) {
    && "a" in c.current && c.current["a"].snapshot == p.rate(StartOf(b, p.id, "a"), [])
    && "a" in PriorOf(c, p.id) && PriorOf(c, p.id)["a"].before == StartOf(b, p.id, "a")
    && forall other :: other != p.id ==> PriorOf(c, other) == PriorOf(b, other)
  }

  lemma ComputedIdle(b: Book, p: Period, c: Book)
    requires "a" in b.current && p.games == [] && c == Computed(b, p)
    ensures IdleStep(b, p, c)
  {
    ComputedRow(b, p, "a");
    assert Outcomes(Inputs(StatesFor(b, p), GamesOf(p.games, "a"))) == [];
    forall other | other != p.id ensures PriorOf(c, other) == PriorOf(b, other) { OtherHistory(b, p, other); }
  }

  ghost predicate Holds(b: Book, rating: real) { "a" in b.current && b.current["a"].snapshot.rating == rating }

  /** March, April, and one of them, corrected or not, once more, from one row at 1500. */
  lemma ThreeSteps(b: Book, march: Period, april: Period, third: Period, b1: Book, b2: Book, b3: Book)
    requires Holds(b, 1500.0) && b.history == map[]
    requires march.id == "03" && march.rate == OneMorePoint() && april.id == "04" && april.rate == TwoPoints()
    requires third.id == "03" && (third.rate == OneMorePoint() || third.rate == TwoPoints())
    requires IdleStep(b, march, b1) && IdleStep(b1, april, b2) && IdleStep(b2, third, b3)
    ensures Holds(b1, 1501.0) && Holds(b2, 1503.0)
    ensures Holds(b3, if third.rate == OneMorePoint() then 1501.0 else 1502.0)
    ensures "a" in PriorOf(b3, "04") && PriorOf(b3, "04")["a"].before.rating == 1501.0
  {
  }

  /** Computing March again after April takes April's change out of the rating. */
  lemma EarlierPeriodErasesLater()
    ensures var march, april := Period("03", OneMorePoint(), []), Period("04", TwoPoints(), []);
            var b2 := Computed(Computed(OneRow(1500.0), march), april);
            Holds(b2, 1503.0) && Holds(Computed(b2, march), 1501.0)
  {
    var march, april := Period("03", OneMorePoint(), []), Period("04", TwoPoints(), []);
    var b := OneRow(1500.0);
    var b1 := Computed(b, march);
    var b2 := Computed(b1, april);
    var b3 := Computed(b2, march);
    ComputedIdle(b, march, b1);
    ComputedIdle(b1, april, b2);
    ComputedIdle(b2, march, b3);
    ThreeSteps(b, march, april, march, b1, b2, b3);
  }

  lemma FourthStep(april: Period, b3: Book, b4: Book)
    requires Holds(b3, 1502.0) && "a" in PriorOf(b3, "04") && PriorOf(b3, "04")["a"].before.rating == 1501.0
    requires april.id == "04" && april.rate == TwoPoints() && IdleStep(b3, april, b4)
    ensures Holds(b4, 1503.0)
  {
  }

  /**
   March computed again with another outcome, then April again: April's own entry still starts from the
   old March, so its rating does not move, while the row it should have started from has.
   */
  lemma CorrectionStopsAtItsPeriod()
    ensures var march, april := Period("03", OneMorePoint(), []), Period("04", TwoPoints(), []);
            var b2 := Computed(Computed(OneRow(1500.0), march), april);
            var b3 := Computed(b2, march.(rate := TwoPoints()));
            Holds(b2, 1503.0) && Holds(b3, 1502.0) && Holds(Computed(b3, april), 1503.0)
  {
    var march, april := Period("03", OneMorePoint(), []), Period("04", TwoPoints(), []);
    var corrected := Period("03", TwoPoints(), []);
    var b := OneRow(1500.0);
    var b1 := Computed(b, march);
    var b2 := Computed(b1, april);
    var b3 := Computed(b2, corrected);
    var b4 := Computed(b3, april);
    ComputedIdle(b, march, b1);
    ComputedIdle(b1, april, b2);
    ComputedIdle(b2, corrected, b3);
    ComputedIdle(b3, april, b4);
    ThreeSteps(b, march, april, corrected, b1, b2, b3);
    FourthStep(april, b3, b4);
  }
}
