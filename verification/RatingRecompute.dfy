/**
 Computing a stored period again: the states before the period are rebuilt from the rows and the
 history that the computation left, and every computation writes absolute values.
 */
module RatingRecompute {
  import opened Wrappers
  import opened Glicko2Update
  import opened RatingPeriod

  datatype PriorRow = PriorRow(before: Snapshot, gamesInPeriod: nat)

  /** The rating rows, and the history the period left, by player. */
  datatype Tables = Tables(current: map<string, State>, prior: map<string, PriorRow>)

  function RebuiltState(t: Tables, id: string): State {
    if id in t.current && id in t.prior then
      var row, h := t.current[id], t.prior[id];
      var played := if row.gamesPlayed - h.gamesInPeriod < 0 then 0 else row.gamesPlayed - h.gamesInPeriod;
      State(h.before, played, !IsEstablished(played, h.before.deviation), row.peakRating)
    else if id in t.current then t.current[id]
    else DEFAULT_STATE
  }

  function PrePeriodStates(t: Tables, games: seq<RatedGame>): map<string, State> {
    map id | id in t.current.Keys + Players(games) :: RebuiltState(t, id)
  }

  method BuildPrePeriodStates(t: Tables, games: seq<RatedGame>) returns (states: map<string, State>)
    ensures states == PrePeriodStates(t, games)
  {
    states := map[];
    var allIds := t.current.Keys + Players(games);
    var todo := allIds;
    while todo != {}
      invariant todo <= allIds && states.Keys == allIds - todo
      invariant forall id :: id in states ==> states[id] == RebuiltState(t, id)
      decreases todo
    {
      var id :| id in todo;
      if id in t.prior && id in t.current {
        var row, h := t.current[id], t.prior[id];
        var played := if row.gamesPlayed - h.gamesInPeriod < 0 then 0 else row.gamesPlayed - h.gamesInPeriod;
        states := states[id := State(h.before, played, !IsEstablished(played, h.before.deviation), row.peakRating)];
      } else if id in t.current {
        states := states[id := t.current[id]];
      } else {
        states := states[id := DEFAULT_STATE];
      }
      todo := todo - {id};
    }
  }

  function RowAfter(r: PlayerResult): State { State(r.after, r.gamesPlayedTotal, r.isProvisional, r.peakRating) }

  /** Storing a period writes absolute values, one row and one history entry per result. */
  function Stored(rate: Calculator, t: Tables, games: seq<RatedGame>): Tables {
    var states := PrePeriodStates(t, games);
    Tables(map id | id in states :: RowAfter(ResultOf(rate, games, states, id)),
           map id | id in states :: PriorRow(states[id].snapshot, ResultOf(rate, games, states, id).gamesInPeriod))
  }

  predicate ProvisionalMeansNotEstablished(s: State) {
    s.isProvisional ==> !IsEstablished(s.gamesPlayed, s.snapshot.deviation)
  }

  /** Every computed row keeps this, so it holds of every row that a computation stored. */
  lemma ResultsKeepProvisionalRule(rate: Calculator, games: seq<RatedGame>, states: map<string, State>, id: string)
    ensures ProvisionalMeansNotEstablished(RowAfter(ResultOf(rate, games, states, id)))
  {
  }

  /** Counts of games are counts. */
  ghost predicate CountsNonNegative(t: Tables) { forall p :: p in t.current ==> t.current[p].gamesPlayed >= 0 }

  /** The state before the period, as a stored table gives it back: only the flag may differ. */
  function Again(state: State, peak: Option<int>): State {
    State(state.snapshot, state.gamesPlayed, !IsEstablished(state.gamesPlayed, state.snapshot.deviation), peak)
  }

  lemma StatesNonNegative(t: Tables, games: seq<RatedGame>, id: string)
    requires CountsNonNegative(t) && id in PrePeriodStates(t, games)
    ensures PrePeriodStates(t, games)[id].gamesPlayed >= 0
  {
  }

  lemma RebuiltSnapshots(rate: Calculator, t: Tables, games: seq<RatedGame>, id: string)
    requires CountsNonNegative(t)
    ensures var states, again := PrePeriodStates(t, games), PrePeriodStates(Stored(rate, t, games), games);
            && (id in again <==> id in states)
            && StateOf(again, id).snapshot == StateOf(states, id).snapshot
            && (id in states ==> again[id] == Again(states[id], ResultOf(rate, games, states, id).peakRating))
  {
    var states := PrePeriodStates(t, games);
    if id in states {
      StatesNonNegative(t, games, id);
      RebuiltFromStored(Stored(rate, t, games), id, states[id], ResultOf(rate, games, states, id));
    }
  }

  /** Subtracting the period's games from the stored total gives back the count before the period. */
  lemma RebuiltFromStored(t: Tables, id: string, state: State, r: PlayerResult)
    requires id in t.current && id in t.prior && state.gamesPlayed >= 0
    requires t.current[id] == RowAfter(r) && t.prior[id] == PriorRow(state.snapshot, r.gamesInPeriod)
    requires r.gamesPlayedTotal == state.gamesPlayed + r.gamesInPeriod
    ensures RebuiltState(t, id) == Again(state, r.peakRating)
  {
  }

  lemma InputsAgree(states: map<string, State>, again: map<string, State>, games: seq<PlayerGame>)
    requires forall id :: StateOf(states, id).snapshot == StateOf(again, id).snapshot
    ensures Inputs(states, games) == Inputs(again, games)
  {
  }

  /**
   Recomputing a stored period gives every player the same ratings, counts and peak. The
   provisional flag comes out the same exactly when the stored row is provisional, or the numbers
   before or after the period are those of an established player; that is, unless an established
   player had in the meantime become too uncertain to count as one.
   */
  lemma RecomputeReproduces(rate: Calculator, t: Tables, games: seq<RatedGame>, id: string)
    requires CountsNonNegative(t)
    requires id in PrePeriodStates(t, games) && ProvisionalMeansNotEstablished(PrePeriodStates(t, games)[id])
    ensures var states, again := PrePeriodStates(t, games), PrePeriodStates(Stored(rate, t, games), games);
            var first, second := ResultOf(rate, games, states, id), ResultOf(rate, games, again, id);
            && id in again
            && second.before == first.before && second.after == first.after && second.inputGames == first.inputGames
            && second.gamesInPeriod == first.gamesInPeriod && second.gamesPlayedTotal == first.gamesPlayedTotal
            && second.peakRating == first.peakRating && !second.peakChanged
            && (second.isProvisional == first.isProvisional <==>
                first.isProvisional || IsEstablished(states[id].gamesPlayed, states[id].snapshot.deviation)
                || IsEstablished(first.gamesPlayedTotal, first.after.deviation))
  {
    var states, again := PrePeriodStates(t, games), PrePeriodStates(Stored(rate, t, games), games);
    forall p ensures StateOf(states, p).snapshot == StateOf(again, p).snapshot { RebuiltSnapshots(rate, t, games, p); }
    RebuiltSnapshots(rate, t, games, id);
    InputsAgree(states, again, GamesOf(games, id));
    var inputs := Inputs(states, GamesOf(games, id));
    SettledAgain(id, states[id], again[id], rate(states[id].snapshot, Outcomes(inputs)), inputs);
  }

  /** Settling again from the rebuilt state. */
  lemma SettledAgain(id: string, state: State, again: State, after: Snapshot, inputs: seq<InputGame>)
    requires ProvisionalMeansNotEstablished(state)
    requires again == Again(state, Settled(id, state, after, inputs).peakRating)
    ensures var first, second := Settled(id, state, after, inputs), Settled(id, again, after, inputs);
            && second.before == first.before && second.after == first.after && second.inputGames == first.inputGames
            && second.gamesInPeriod == first.gamesInPeriod && second.gamesPlayedTotal == first.gamesPlayedTotal
            && (second.isProvisional == first.isProvisional <==>
                first.isProvisional || IsEstablished(state.gamesPlayed, state.snapshot.deviation)
                || IsEstablished(first.gamesPlayedTotal, first.after.deviation))
            && second.peakRating == first.peakRating && !second.peakChanged
  {
  }

  function SameSnapshot(): Calculator { (s: Snapshot, o: seq<Outcome>) => s }

  /** Twenty games, established once, and by now too uncertain to be called so from the numbers alone. */
  function WidenedRow(): State { State(Snapshot(1500.0, 120.0, 0.06), 20, false, None) }

  /** Such a player is stored as established by the first computation and as provisional by the second. */
  lemma FlagCanChange()
    ensures var t := Tables(map["a" := WidenedRow()], map[]);
            var states, again := PrePeriodStates(t, []), PrePeriodStates(Stored(SameSnapshot(), t, []), []);
            && ProvisionalMeansNotEstablished(WidenedRow()) && CountsNonNegative(t)
            && !ResultOf(SameSnapshot(), [], states, "a").isProvisional
            && ResultOf(SameSnapshot(), [], again, "a").isProvisional
  {
    FlagChanges(SameSnapshot(), Tables(map["a" := WidenedRow()], map[]), "a");
  }

  lemma FlagChanges(rate: Calculator, t: Tables, id: string)
    requires CountsNonNegative(t) && id in t.current && id !in t.prior && t.current[id] == WidenedRow()
    requires rate == SameSnapshot()
    ensures var states, again := PrePeriodStates(t, []), PrePeriodStates(Stored(rate, t, []), []);
            !ResultOf(rate, [], states, id).isProvisional && ResultOf(rate, [], again, id).isProvisional
  {
    NoGames([], id);
    assert PrePeriodStates(t, [])[id] == WidenedRow();
    RecomputeReproduces(rate, t, [], id);
  }

  // ---------------------------------------------------------------------------------------
  //  Recomputing any number of times
  // ---------------------------------------------------------------------------------------

  function Recomputed(rate: Calculator, t: Tables, games: seq<RatedGame>, times: nat): Tables {
    if times == 0 then t else Stored(rate, Recomputed(rate, t, games, times - 1), games)
  }

  /** The states from which the computation after `times` earlier ones starts. */
  function StatesAfter(rate: Calculator, t: Tables, games: seq<RatedGame>, times: nat): map<string, State> {
    PrePeriodStates(Recomputed(rate, t, games, times), games)
  }

  ghost predicate FollowsTheRule(states: map<string, State>) {
    forall id :: id in states ==> ProvisionalMeansNotEstablished(states[id])
  }

  lemma StoredNonNegative(rate: Calculator, t: Tables, stored: Tables, games: seq<RatedGame>)
    requires CountsNonNegative(t) && stored == Stored(rate, t, games)
    ensures CountsNonNegative(stored)
  {
    forall p | p in stored.current ensures stored.current[p].gamesPlayed >= 0 { StatesNonNegative(t, games, p); }
  }

  ghost predicate RowsFollow(t: Tables) { forall p :: p in t.current ==> ProvisionalMeansNotEstablished(t.current[p]) }

  lemma StoredRowsFollow(rate: Calculator, t: Tables, games: seq<RatedGame>)
    ensures RowsFollow(Stored(rate, t, games))
  {
    forall p | p in Stored(rate, t, games).current
      ensures ProvisionalMeansNotEstablished(Stored(rate, t, games).current[p])
    {
      ResultsKeepProvisionalRule(rate, games, PrePeriodStates(t, games), p);
    }
  }

  /** The rule holds of the states of any period, its rows being those that computations store. */
  lemma StatesFollowRows(t: Tables, games: seq<RatedGame>)
    requires RowsFollow(t)
    ensures FollowsTheRule(PrePeriodStates(t, games))
  {
  }

  /** What is rebuilt from a stored table follows the rule, whatever stood there before. */
  lemma StoredFollowsTheRule(rate: Calculator, t: Tables, games: seq<RatedGame>)
    requires CountsNonNegative(t)
    ensures FollowsTheRule(PrePeriodStates(Stored(rate, t, games), games))
  {
    var again := PrePeriodStates(Stored(rate, t, games), games);
    forall id | id in again ensures ProvisionalMeansNotEstablished(again[id]) { RebuiltSnapshots(rate, t, games, id); }
  }

  lemma OneStateStands(rate: Calculator, t: Tables, once: Tables, twice: Tables, games: seq<RatedGame>, id: string)
    requires CountsNonNegative(t) && CountsNonNegative(once)
    requires once == Stored(rate, t, games) && twice == Stored(rate, once, games)
    requires id in PrePeriodStates(t, games) && ProvisionalMeansNotEstablished(PrePeriodStates(t, games)[id])
    ensures id in PrePeriodStates(once, games) && id in PrePeriodStates(twice, games)
    ensures PrePeriodStates(twice, games)[id] == PrePeriodStates(once, games)[id]
  {
    RebuiltSnapshots(rate, t, games, id);
    RebuiltSnapshots(rate, once, games, id);
    RecomputeReproduces(rate, t, games, id);
  }

  /** One recomputation reaches a fixed point of the states. */
  lemma SecondStatesAreFirst(rate: Calculator, t: Tables, once: Tables, twice: Tables, games: seq<RatedGame>)
    requires CountsNonNegative(t) && FollowsTheRule(PrePeriodStates(t, games))
    requires once == Stored(rate, t, games) && twice == Stored(rate, once, games)
    ensures PrePeriodStates(twice, games) == PrePeriodStates(once, games)
  {
    var states, first, second := PrePeriodStates(t, games), PrePeriodStates(once, games), PrePeriodStates(twice, games);
    StoredNonNegative(rate, t, once, games);
    KeysStand(rate, t, once, games);
    KeysStand(rate, once, twice, games);
    forall id | id in states ensures second[id] == first[id] { OneStateStands(rate, t, once, twice, games, id); }
    SameMaps(first, second);
  }

  lemma KeysStand(rate: Calculator, t: Tables, once: Tables, games: seq<RatedGame>)
    requires CountsNonNegative(t) && once == Stored(rate, t, games)
    ensures PrePeriodStates(once, games).Keys == PrePeriodStates(t, games).Keys
  {
    forall id ensures id in PrePeriodStates(once, games) <==> id in PrePeriodStates(t, games) {
      RebuiltSnapshots(rate, t, games, id);
    }
  }

  lemma SameMaps(a: map<string, State>, b: map<string, State>)
    requires a.Keys == b.Keys && forall id :: id in a ==> b[id] == a[id]
    ensures a == b
  {
  }

  lemma {:induction false} KeptThroughout<T(!new)>(s: nat -> T, kept: T -> bool, n: nat)
    requires kept(s(0)) && forall k: nat :: kept(s(k)) ==> kept(s(k + 1))
    ensures kept(s(n))
  {
    if n > 0 {
      KeptThroughout(s, kept, n - 1);
      assert kept(s(n - 1 + 1));
    }
  }

  lemma RecomputedNonNegative(rate: Calculator, t: Tables, games: seq<RatedGame>, times: nat)
    requires CountsNonNegative(t)
    ensures CountsNonNegative(Recomputed(rate, t, games, times))
  {
    var s, kept := (k: nat) => Recomputed(rate, t, games, k), (u: Tables) => CountsNonNegative(u);
    forall k: nat | kept(s(k)) ensures kept(s(k + 1)) {
      StoredNonNegative(rate, Recomputed(rate, t, games, k), Recomputed(rate, t, games, k + 1), games);
    }
    KeptThroughout(s, kept, times);
    assert kept(s(times));
  }

  lemma NextStatesAgree(rate: Calculator, t: Tables, games: seq<RatedGame>, times: nat)
    requires CountsNonNegative(t) && FollowsTheRule(StatesAfter(rate, t, games, times))
    ensures StatesAfter(rate, t, games, times + 2) == StatesAfter(rate, t, games, times + 1)
  {
    RecomputedNonNegative(rate, t, games, times);
    SecondStatesAreFirst(rate, Recomputed(rate, t, games, times), Recomputed(rate, t, games, times + 1),
                         Recomputed(rate, t, games, times + 2), games);
  }

  lemma LaterStatesFollowTheRule(rate: Calculator, t: Tables, games: seq<RatedGame>, times: nat)
    requires CountsNonNegative(t) && times >= 1
    ensures FollowsTheRule(StatesAfter(rate, t, games, times))
  {
    RecomputedNonNegative(rate, t, games, times - 1);
    StoredFollowsTheRule(rate, Recomputed(rate, t, games, times - 1), games);
  }

  /** A sequence that stands still wherever the rule holds, and keeps the rule from its second member on. */
  lemma {:induction false} Settles<T(!new)>(s: nat -> T, rule: T -> bool, n: nat)
    requires n >= 1
    requires forall k: nat :: rule(s(k)) ==> s(k + 2) == s(k + 1)
    requires forall k: nat :: k >= 1 ==> rule(s(k))
    ensures n >= 2 ==> s(n) == s(2)
    ensures rule(s(0)) ==> s(n) == s(1)
  {
    if n > 2 {
      Settles(s, rule, n - 1);
      assert rule(s(n - 2));
    } else if n == 2 {
      assert rule(s(0)) ==> s(0 + 2) == s(0 + 1);
    }
  }

  /**
   However often a period is recomputed: from the first stored table on every computation starts
   from the same states and stores the same rows, flag included. Only a row that was provisional
   although its numbers were established can delay this, and by one recomputation.
   */
  lemma RecomputationsAgree(rate: Calculator, t: Tables, games: seq<RatedGame>, times: nat)
    requires CountsNonNegative(t) && times >= 1
    ensures times >= 2 ==> StatesAfter(rate, t, games, times) == StatesAfter(rate, t, games, 2)
    ensures FollowsTheRule(StatesAfter(rate, t, games, 0)) ==>
            StatesAfter(rate, t, games, times) == StatesAfter(rate, t, games, 1)
  {
    var s, rule := (k: nat) => StatesAfter(rate, t, games, k), (states: map<string, State>) => FollowsTheRule(states);
    forall k: nat | rule(s(k)) ensures s(k + 2) == s(k + 1) { NextStatesAgree(rate, t, games, k); }
    forall k: nat | k >= 1 ensures rule(s(k)) { LaterStatesFollowTheRule(rate, t, games, k); }
    Settles(s, rule, times);
    assert s(times) == StatesAfter(rate, t, games, times);
  }

  /** So the tables themselves stand still, and every result is the one of the first recomputation. */
  lemma RecomputedTablesStandStill(rate: Calculator, t: Tables, games: seq<RatedGame>, times: nat, id: string)
    requires CountsNonNegative(t) && FollowsTheRule(StatesAfter(rate, t, games, 0)) && times >= 1
    ensures ResultOf(rate, games, StatesAfter(rate, t, games, times), id) ==
            ResultOf(rate, games, StatesAfter(rate, t, games, 1), id)
    ensures Recomputed(rate, t, games, times + 1) == Recomputed(rate, t, games, 2)
  {
    RecomputationsAgree(rate, t, games, times);
    StoredDependsOnStates(rate, Recomputed(rate, t, games, times), Recomputed(rate, t, games, 1), games);
  }

  lemma StoredDependsOnStates(rate: Calculator, t: Tables, u: Tables, games: seq<RatedGame>)
    requires PrePeriodStates(t, games) == PrePeriodStates(u, games)
    ensures Stored(rate, t, games) == Stored(rate, u, games)
  {
  }
}
