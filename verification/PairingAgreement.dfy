/**
 The pairing states agree with each other and with the score views: one account of the points, and
 mutual opponents.
 */
module PairingAgreement {
  import opened Wrappers
  import opened Sorting
  import opened ResultMapping
  import opened PairingStates
  import opened FloatRules

  // ---------------------------------------------------------------------------------------
  //  Points
  // ---------------------------------------------------------------------------------------

  lemma {:induction false} MaxRoundBounds(entries: seq<Entry>, e: Entry)
    requires e in entries
    ensures e.roundNumber <= MaxRound(entries)
  {
    var front := entries[..|entries| - 1];
    assert entries == front + [entries[|entries| - 1]];
    if e in front { MaxRoundBounds(front, e); }
  }

  lemma {:induction false} PointsBeforeAreAll(entries: seq<Entry>, round: int, id: string)
    requires forall e :: e in entries ==> ProperEntry(e) && e.roundNumber < round
    ensures PointsBefore(entries, round, id) == Points(entries, id)
  {
    if entries != [] {
      var front, last := entries[..|entries| - 1], entries[|entries| - 1];
      assert last in entries && forall e :: e in front ==> e in entries;
      PointsBeforeAreAll(front, round, id);
    }
  }

  lemma RunningPointsAtEnd(entries: seq<Entry>, id: string)
    requires forall e :: e in entries ==> ProperEntry(e)
    ensures PointsBefore(entries, MaxRound(entries) + 1, id) == Points(entries, id)
  {
    forall e | e in entries ensures e.roundNumber < MaxRound(entries) + 1 { MaxRoundBounds(entries, e); }
    PointsBeforeAreAll(entries, MaxRound(entries) + 1, id);
  }

  /** The running points of the first pass end as the points of the second, and as those of the score view. */
  lemma RunningPointsAgree(history: seq<Entry>, sorted: seq<Entry>, id: string)
    requires sorted == Sort(ByRound(), history)
    requires forall e :: e in history ==> ProperEntry(e)
    ensures PointsBefore(sorted, MaxRound(sorted) + 1, id) == ViewOf(sorted, id).points == Points(history, id)
  {
    SameElements(sorted, history);
    RunningPointsAtEnd(sorted, id);
    PointsForgetOrder(sorted, history, id);
  }

  lemma {:induction false} TotalForgetsOrder(ids: seq<string>, a: seq<Entry>, b: seq<Entry>)
    requires multiset(a) == multiset(b)
    ensures TotalPoints(ids, a) == TotalPoints(ids, b)
  {
    if ids != [] {
      TotalForgetsOrder(ids[..|ids| - 1], a, b);
      PointsForgetOrder(a, b, ids[|ids| - 1]);
    }
  }

  /** The points of all states together are what the pairings of the history handed out. */
  lemma StatesConservePoints(ids: seq<string>, history: seq<Entry>)
    requires Distinct(ids) && AllIn(history, ids)
    requires forall e :: e in history ==> ProperEntry(e)
    ensures TotalPoints(ids, Sort(ByRound(), history)) == TotalValue(history)
  {
    TotalForgetsOrder(ids, Sort(ByRound(), history), history);
    PointsAreConserved(ids, history);
  }

  // ---------------------------------------------------------------------------------------
  //  Opponents are mutual
  // ---------------------------------------------------------------------------------------

  lemma OpponentsSymmetric(history: seq<Entry>, x: string, y: string)
    ensures x in Opponents(history, y) <==> y in Opponents(history, x)
  {
    OpponentsOneWay(history, x, y);
    OpponentsOneWay(history, y, x);
  }

  lemma OpponentsOneWay(history: seq<Entry>, x: string, y: string)
    ensures x in Opponents(history, y) ==> y in Opponents(history, x)
  {
    if x in Opponents(history, y) {
      var e :| e in history && OpponentIn(e, y) == Some(x);
      assert OpponentIn(e, x) == Some(y);
    }
  }

  // ---------------------------------------------------------------------------------------
  //  What the fields mean, by who was paired with whom and to what result
  // ---------------------------------------------------------------------------------------

  predicate Paired(e: Entry, x: string, y: string) {
    (e.white == x && e.black == Some(y)) || (e.white == y && e.black == Some(x))
  }

  /** The opponents are those one was paired with, played or not, in either colour. */
  lemma OpponentsArePaired(history: seq<Entry>, x: string, y: string)
    requires forall e :: e in history ==> ProperEntry(e)
    ensures y in Opponents(history, x) <==> exists e :: e in history && Paired(e, x, y)
  {
    if y in Opponents(history, x) {
      var e :| e in history && OpponentIn(e, x) == Some(y);
      assert Paired(e, x, y);
    }
    if e :| e in history && Paired(e, x, y) {
      assert OpponentIn(e, x) == Some(y);
    }
  }

  /** A bye is barred exactly after a whole point that was not played for. */
  lemma ByeBarredAfterFreePoint(history: seq<Entry>, id: string)
    requires forall e :: e in history ==> ProperEntry(e) && ByesAreByes(e)
    ensures ByeBarred(history, id) <==> exists e :: e in history && OutcomeOf(e, id) == Some(Outcome(2, false))
  {
    forall e | e in history ensures BarsBye(e, id) <==> OutcomeOf(e, id) == Some(Outcome(2, false)) {
      assert ProperEntry(e) && ByesAreByes(e);
    }
  }

  function Earlier(entries: seq<Entry>, round: int): seq<Entry> {
    if entries == [] then []
    else
      var last := entries[|entries| - 1];
      Earlier(entries[..|entries| - 1], round) + if last.roundNumber < round then [last] else []
  }

  lemma GainIsScore(e: Entry, id: string)
    requires ProperEntry(e)
    ensures Gain(e, id) == Score(OutcomeOf(e, id))
  {
  }

  lemma PointsSnoc(entries: seq<Entry>, e: Entry, id: string)
    ensures Points(entries + [e], id) == Points(entries, id) + Score(OutcomeOf(e, id))
    ensures entries + [] == entries
  {
    assert (entries + [e])[..|entries|] == entries;
  }

  lemma EarlierStep(front: seq<Entry>, last: Entry, round: int, id: string)
    requires ProperEntry(last) && PointsBefore(front, round, id) == Points(Earlier(front, round), id)
    ensures PointsBefore(front + [last], round, id) == Points(Earlier(front + [last], round), id)
  {
    assert (front + [last])[..|front|] == front;
    GainIsScore(last, id);
    PointsSnoc(Earlier(front, round), last, id);
  }

  /** The points before a round, which decide its floats, are those of the rounds before it. */
  lemma {:induction false} PointsBeforeAreEarlier(entries: seq<Entry>, round: int, id: string)
    requires forall e :: e in entries ==> ProperEntry(e)
    ensures PointsBefore(entries, round, id) == Points(Earlier(entries, round), id)
  {
    if entries != [] {
      var front, last := entries[..|entries| - 1], entries[|entries| - 1];
      assert last in entries && forall e :: e in front ==> e in entries;
      PointsBeforeAreEarlier(front, round, id);
      EarlierStep(front, last, round, id);
      assert entries == front + [last];
    }
  }

  /** The rest of a state is the participant's own: unrated counts as 0, and no joining round as the first. */
  lemma StateCarriesParticipant(p: Participant, sorted: seq<Entry>)
    ensures var s := StateOf(p, sorted);
            && s.registrationId == p.registrationId && s.pairingNumber == p.pairingNumber
            && s.isWithdrawn == p.isWithdrawn
            && (if p.ratingAtEntry.Some? then p.ratingAtEntry == Some(s.rating) else s.rating == 0)
            && (if p.joinedAtRound.Some? then p.joinedAtRound == Some(s.joinedAtRound) else s.joinedAtRound == 1)
            && |s.floatHistory| == MaxRound(sorted)
  {
  }
}
