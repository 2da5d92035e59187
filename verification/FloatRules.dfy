/** The floats of the pairing states are those of FIDE Handbook C.04.3, Article 1.4. */
module FloatRules {
  import opened Wrappers
  import opened ResultMapping
  import opened PairingStates

  predicate SharePlayer(e: Entry, f: Entry) {
    e.white == f.white || Some(e.white) == f.black || e.black == Some(f.white) || (e.black.Some? && e.black == f.black)
  }

  /** Nobody is paired twice in one round. */
  ghost predicate OncePerRound(history: seq<Entry>) {
    forall e, f :: e in history && f in history && e.roundNumber == f.roundNumber && SharePlayer(e, f) ==> e == f
  }

  /** Byes have no Black, and games and forfeits have one. */
  predicate ByesAreByes(e: Entry) {
    if e.black.None? then !OverBoard(e.result) && e.result != WhiteWinForfeit && e.result != BlackWinForfeit
    else e.result != ByeFull && e.result != ByeHalf
  }

  /** Articles 1.4.2: played somebody who had more points at the start of the round. */
  predicate PlayedUp(history: seq<Entry>, e: Entry, id: string) {
    var opponent := OpponentIn(e, id);
    && OverBoard(e.result) && opponent.Some?
    && PointsBefore(history, e.roundNumber, opponent.value) > PointsBefore(history, e.roundNumber, id)
  }

  predicate PlayedDown(history: seq<Entry>, e: Entry, id: string) {
    var opponent := OpponentIn(e, id);
    && OverBoard(e.result) && opponent.Some?
    && PointsBefore(history, e.roundNumber, opponent.value) < PointsBefore(history, e.roundNumber, id)
  }

  /** Article 1.4.3: points, but no game. */
  predicate ScoredUnplayed(e: Entry, id: string) {
    var o := OutcomeOf(e, id);
    o.Some? && !o.value.playedOverBoard && o.value.score2 > 0
  }

  lemma FloatForRule(history: seq<Entry>, e: Entry, id: string)
    requires ProperEntry(e) && ByesAreByes(e)
    ensures FloatFor(history, e, id) == Some(Up) <==> PlayedUp(history, e, id)
    ensures FloatFor(history, e, id) == Some(Down) <==> PlayedDown(history, e, id) || ScoredUnplayed(e, id)
    ensures FloatFor(history, e, id) != Some(NoFloat)
  {
  }

  /** Only entries of one's own can give a float. */
  lemma FloatForOwn(history: seq<Entry>, e: Entry, id: string)
    ensures FloatFor(history, e, id).Some? ==> SideOf(e, id).Some?
  {
  }

  lemma {:induction false} FloatAmongWitness(history: seq<Entry>, entries: seq<Entry>, id: string) returns (e: Entry)
    requires FloatAmong(history, entries, id) != NoFloat
    ensures e in entries && FloatFor(history, e, id) == Some(FloatAmong(history, entries, id))
  {
    e := entries[|entries| - 1];
    if FloatFor(history, e, id).None? {
      e := FloatAmongWitness(history, entries[..|entries| - 1], id);
    }
  }

  /** If every entry that gives the participant a float gives the same one, that is the float. */
  lemma {:induction false} FloatAmongUnique(history: seq<Entry>, entries: seq<Entry>, id: string, f: Float, e: Entry)
    requires e in entries && FloatFor(history, e, id) == Some(f)
    requires forall x :: x in entries && FloatFor(history, x, id).Some? ==> FloatFor(history, x, id) == Some(f)
    ensures FloatAmong(history, entries, id) == f
  {
    var front, last := entries[..|entries| - 1], entries[|entries| - 1];
    assert entries == front + [last];
    if FloatFor(history, last, id).None? {
      assert e in front;
      FloatAmongUnique(history, front, id, f, e);
    }
  }

  lemma FloatAtIs(history: seq<Entry>, e: Entry, id: string)
    requires OncePerRound(history) && e in history && FloatFor(history, e, id).Some?
    ensures FloatAt(history, e.roundNumber, id) == FloatFor(history, e, id).value
  {
    var entries := InRound(history, e.roundNumber);
    RoundOfInRound(history, e.roundNumber);
    forall x | x in entries && FloatFor(history, x, id).Some?
      ensures FloatFor(history, x, id) == FloatFor(history, e, id)
    {
      FloatForOwn(history, x, id);
      FloatForOwn(history, e, id);
      assert SharePlayer(x, e);
    }
    FloatAmongUnique(history, entries, id, FloatFor(history, e, id).value, e);
  }

  ghost predicate Regular(history: seq<Entry>) {
    && OncePerRound(history)
    && forall e :: e in history ==> ProperEntry(e) && ByesAreByes(e)
  }

  /** Up exactly for playing somebody with more points; Down exactly for playing somebody with
      fewer, or for points without a game. */
  lemma FloatsFollowTheRule(history: seq<Entry>, round: int, id: string)
    requires Regular(history)
    ensures FloatAt(history, round, id) == Up <==>
            exists e :: e in history && e.roundNumber == round && PlayedUp(history, e, id)
    ensures FloatAt(history, round, id) == Down <==>
            exists e :: e in history && e.roundNumber == round && (PlayedDown(history, e, id) || ScoredUnplayed(e, id))
  {
    RoundOfInRound(history, round);
    if FloatAt(history, round, id) != NoFloat {
      var e := FloatAmongWitness(history, InRound(history, round), id);
      FloatForRule(history, e, id);
    }
    forall e | e in history && e.roundNumber == round && PlayedUp(history, e, id)
      ensures FloatAt(history, round, id) == Up
    {
      FloatForRule(history, e, id);
      FloatAtIs(history, e, id);
    }
    forall e | e in history && e.roundNumber == round && (PlayedDown(history, e, id) || ScoredUnplayed(e, id))
      ensures FloatAt(history, round, id) == Down
    {
      FloatForRule(history, e, id);
      FloatAtIs(history, e, id);
    }
  }

  /** Whoever floated up did so in a game of that round, against an opponent who floated down in it. */
  lemma UpMeetsDown(history: seq<Entry>, round: int, id: string) returns (e: Entry, opponent: string)
    requires Regular(history) && FloatAt(history, round, id) == Up
    ensures e in history && e.roundNumber == round && OverBoard(e.result)
    ensures OpponentIn(e, id) == Some(opponent) && OpponentIn(e, opponent) == Some(id)
    ensures opponent in Opponents(history, id) && FloatAt(history, round, opponent) == Down
  {
    FloatsFollowTheRule(history, round, id);
    e :| e in history && e.roundNumber == round && PlayedUp(history, e, id);
    opponent := OpponentIn(e, id).value;
    assert OpponentIn(e, opponent) == Some(id);
    assert PlayedDown(history, e, opponent);
    FloatsFollowTheRule(history, round, opponent);
  }
}
