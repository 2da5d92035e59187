/**
 From the pairing history to what the pairing engine needs to know about every participant: points,
 opponents, colours, floats (FIDE Handbook C.04.3, Article 1.4) and whether a bye is still allowed.

 The source makes two passes over the history: round by round, keeping running points to decide the
 floats, and then participant by participant. Both are proved against definitions on the history as
 a whole, and the definitions against each other.
 */
module PairingStates {
  import opened Wrappers
  import opened Sorting
  import opened ResultMapping

  datatype Float = NoFloat | Up | Down

  datatype Participant = Participant(
    registrationId: string, pairingNumber: int, ratingAtEntry: Option<int>, isWithdrawn: bool,
        joinedAtRound: Option<int>)

  datatype PairingState = PairingState(
    registrationId: string,
    pairingNumber: int,
    rating: int,
    points: int,
    opponentIds: set<string>,
    colourHistory: seq<Side>,
    floatHistory: seq<Float>,
    hasReceivedBye: bool,
    isWithdrawn: bool,
    joinedAtRound: int)

  // ---------------------------------------------------------------------------------------
  //  What the fields mean, said of the history as a whole
  // ---------------------------------------------------------------------------------------

  /** What one entry adds to a participant's running points in the first pass. */
  function Gain(e: Entry, id: string): int {
    (if e.white == id then Score(OutcomeFor(e.result, White)) else 0)
    + if e.black == Some(id) then Score(OutcomeFor(e.result, Black)) else 0
  }

  /** Points from the rounds 1, ..., round - 1, that is, at the start of a round. */
  function PointsBefore(entries: seq<Entry>, round: int, id: string): int {
    if entries == [] then 0
    else
      var last := entries[|entries| - 1];
      PointsBefore(entries[..|entries| - 1], round, id) + if 1 <= last.roundNumber < round then Gain(last, id) else 0
  }

  function TotalGain(entries: seq<Entry>, id: string): int {
    if entries == [] then 0 else TotalGain(entries[..|entries| - 1], id) + Gain(entries[|entries| - 1], id)
  }

  function InRound(entries: seq<Entry>, round: int): seq<Entry> {
    if entries == [] then []
    else
      var last := entries[|entries| - 1];
      InRound(entries[..|entries| - 1], round) + if last.roundNumber == round then [last] else []
  }

  predicate OverBoard(r: PairingResult) { r == WhiteWin || r == BlackWin || r == Draw }

  /** The float that one entry gives to a participant, if any. */
  function FloatFor(history: seq<Entry>, e: Entry, id: string): Option<Float> {
    match e.black
    case None =>
      if id == e.white && (e.result == ByeFull || e.result == ByeHalf) then Some(Down) else None
    case Some(black) =>
      if OverBoard(e.result) then
        var pw, pb := PointsBefore(history, e.roundNumber, e.white), PointsBefore(history, e.roundNumber, black);
        if pw == pb then None
        else if id == e.white then Some(if pw > pb then Down else Up)
        else if id == black then Some(if pw > pb then Up else Down)
        else None
      else if (e.result == WhiteWinForfeit && id == e.white) || (e.result == BlackWinForfeit && id == black)
        then Some(Down)
      else None
  }

  /** The last entry of a round that gives the participant a float decides. */
  function FloatAmong(history: seq<Entry>, entries: seq<Entry>, id: string): Float {
    if entries == [] then NoFloat
    else
      var f := FloatFor(history, entries[|entries| - 1], id);
      if f.Some? then f.value else FloatAmong(history, entries[..|entries| - 1], id)
  }

  function FloatAt(history: seq<Entry>, round: int, id: string): Float {
    FloatAmong(history, InRound(history, round), id)
  }

  function MaxRound(entries: seq<Entry>): nat {
    if entries == [] then 0
    else
      var front, last := MaxRound(entries[..|entries| - 1]), entries[|entries| - 1].roundNumber;
      if last > front then last else front
  }

  function FloatHistory(history: seq<Entry>, rounds: nat, id: string): (r: seq<Float>)
    ensures |r| == rounds
  {
    seq(rounds, k => FloatAt(history, k + 1, id))
  }

  /** Whom the entry sets against the participant. */
  function OpponentIn(e: Entry, id: string): Option<string> {
    match SideOf(e, id)
    case None => None
    case Some(White) => e.black
    case Some(Black) => Some(e.white)
  }

  function Opponents(history: seq<Entry>, id: string): set<string> {
    set e: Entry | e in history && OpponentIn(e, id).Some? :: OpponentIn(e, id).value
  }

  /** A full-point bye, or a win without playing: no further bye may be given. */
  predicate BarsBye(e: Entry, id: string) {
    match SideOf(e, id)
    case None => false
    case Some(side) =>
      if e.black.None? then e.result == ByeFull
      else (side == White && e.result == WhiteWinForfeit) || (side == Black && e.result == BlackWinForfeit)
  }

  predicate ByeBarred(history: seq<Entry>, id: string) { exists e :: e in history && BarsBye(e, id) }

  function OrElse(o: Option<int>, default: int): int { if o.Some? then o.value else default }

  function StateOf(p: Participant, sorted: seq<Entry>): PairingState {
    var id := p.registrationId;
    PairingState(id, p.pairingNumber, OrElse(p.ratingAtEntry, 0),
                 Points(sorted, id), Opponents(sorted, id), Colours(sorted, id),
                 FloatHistory(sorted, MaxRound(sorted), id), ByeBarred(sorted, id),
                 p.isWithdrawn, OrElse(p.joinedAtRound, 1))
  }

  // ---------------------------------------------------------------------------------------
  //  First pass: the floats
  // ---------------------------------------------------------------------------------------

  function Bucket(byRound: map<int, seq<Entry>>, round: int): seq<Entry> {
    if round in byRound then byRound[round] else []
  }

  method GroupByRound(sorted: seq<Entry>) returns (byRound: map<int, seq<Entry>>)
    ensures forall r: int :: Bucket(byRound, r) == InRound(sorted, r)
  {
    byRound := map[];
    for i := 0 to |sorted|
      invariant forall r: int :: Bucket(byRound, r) == InRound(sorted[..i], r)
    {
      var entry := sorted[i];
      assert sorted[..i + 1][..i] == sorted[..i];
      var bucket := if entry.roundNumber in byRound then byRound[entry.roundNumber] + [entry] else [entry];
      byRound := byRound[entry.roundNumber := bucket];
    }
    assert sorted[..|sorted|] == sorted;
  }

  function PointsOf(running: map<string, int>, id: string): int { if id in running then running[id] else 0 }

  function AddPoints(running: map<string, int>, id: string, o: Option<Outcome>): (r: map<string, int>)
    ensures forall x: string :: PointsOf(r, x) == PointsOf(running, x) + if x == id then Score(o) else 0
  {
    if o.None? then running else running[id := PointsOf(running, id) + o.value.score2]
  }

  method ApplyPoints(running: map<string, int>, entries: seq<Entry>) returns (r: map<string, int>)
    ensures forall id: string :: PointsOf(r, id) == PointsOf(running, id) + TotalGain(entries, id)
  {
    r := running;
    for i := 0 to |entries|
      invariant forall id: string :: PointsOf(r, id) == PointsOf(running, id) + TotalGain(entries[..i], id)
    {
      var entry := entries[i];
      assert entries[..i + 1][..i] == entries[..i];
      r := AddPoints(r, entry.white, OutcomeFor(entry.result, White));
      if entry.black.Some? {
        r := AddPoints(r, entry.black.value, OutcomeFor(entry.result, Black));
      }
    }
    assert entries[..|entries|] == entries;
  }

  type Floats = map<string, seq<Float>>

  /** Participants only: a float for anybody else is dropped. */
  function SetFloat(floats: Floats, round: int, id: string, f: Float): (r: Floats)
    requires forall x :: x in floats ==> 1 <= round <= |floats[x]|
    ensures r.Keys == floats.Keys
    ensures forall x :: x in floats ==> r[x] == if x == id then floats[x][round - 1 := f] else floats[x]
  {
    if id in floats then floats[id := floats[id][round - 1 := f]] else floats
  }

  /** Article 1.4.2: the points at the start of the round decide. */
  method FloatGame(round: int, white: string, black: string, running: map<string, int>, floats: Floats)
    returns (r: Floats)
    requires forall x :: x in floats ==> 1 <= round <= |floats[x]|
    ensures r.Keys == floats.Keys
    ensures var pw, pb := PointsOf(running, white), PointsOf(running, black);
            forall x :: x in floats ==>
              r[x] == if pw == pb || (x != white && x != black) then floats[x]
                      else floats[x][round - 1 := if (x == white) == (pw > pb) then Down else Up]
  {
    r := floats;
    var pw, pb := PointsOf(running, white), PointsOf(running, black);
    if pw > pb {
      r := SetFloat(r, round, white, Down);
      r := SetFloat(r, round, black, Up);
    } else if pb > pw {
      r := SetFloat(r, round, black, Down);
      r := SetFloat(r, round, white, Up);
    }
  }

  method FloatEntry(history: seq<Entry>, entry: Entry, running: map<string, int>, floats: Floats) returns (r: Floats)
    requires forall id: string :: PointsOf(running, id) == PointsBefore(history, entry.roundNumber, id)
    requires forall x :: x in floats ==> 1 <= entry.roundNumber <= |floats[x]|
    ensures r.Keys == floats.Keys
    ensures forall x :: x in floats ==>
      r[x] == match FloatFor(history, entry, x)
              case None => floats[x]
              case Some(f) => floats[x][entry.roundNumber - 1 := f]
  {
    var round, white := entry.roundNumber, entry.white;
    r := floats;
    if entry.black.None? {
      if entry.result == ByeFull || entry.result == ByeHalf {
        r := SetFloat(r, round, white, Down);
      }
      return;
    }
    var black := entry.black.value;
    match entry.result {
      case WhiteWin | BlackWin | Draw =>
        r := FloatGame(round, white, black, running, floats);
      case WhiteWinForfeit =>
        r := SetFloat(r, round, white, Down);
      case BlackWinForfeit =>
        r := SetFloat(r, round, black, Down);
      case _ =>
    }
  }

  lemma {:induction false} RoundOfInRound(entries: seq<Entry>, round: int)
    ensures forall e :: e in InRound(entries, round) <==> e in entries && e.roundNumber == round
  {
    if entries != [] {
      RoundOfInRound(entries[..|entries| - 1], round);
      assert entries == entries[..|entries| - 1] + [entries[|entries| - 1]];
    }
  }

  /** The floats after some entries of a round. */
  ghost predicate Floated(before: Floats, after: Floats, history: seq<Entry>, round: int, done: seq<Entry>)
    requires forall x :: x in before ==> 1 <= round <= |before[x]|
  {
    after.Keys == before.Keys && forall x :: x in before ==>
        after[x] == before[x][round - 1 := FloatAmong(history, done, x)]
  }

  lemma FloatAmongSnoc(history: seq<Entry>, done: seq<Entry>, e: Entry, id: string)
    ensures FloatAmong(history, done + [e], id) ==
            match FloatFor(history, e, id) case None => FloatAmong(history, done, id) case Some(f) => f
  {
    assert (done + [e])[..|done|] == done;
  }

  lemma FloatedSnoc(
    before: Floats, after: Floats, next: Floats, history: seq<Entry>, round: int, done: seq<Entry>, e: Entry)
    requires forall x :: x in before ==> 1 <= round <= |before[x]|
    requires Floated(before, after, history, round, done) && next.Keys == after.Keys
    requires forall x :: x in after ==>
      next[x] == match FloatFor(history, e, x) case None => after[x] case Some(f) => after[x][round - 1 := f]
    ensures Floated(before, next, history, round, done + [e])
  {
    forall x | x in before ensures next[x] == before[x][round - 1 := FloatAmong(history, done + [e], x)] {
      FloatAmongSnoc(history, done, e, x);
      assert x in after;
    }
  }

  method FloatRound(history: seq<Entry>, round: int, entries: seq<Entry>, running: map<string, int>, floats: Floats)
    returns (r: Floats)
    requires entries == InRound(history, round)
    requires forall id: string :: PointsOf(running, id) == PointsBefore(history, round, id)
    requires forall x :: x in floats ==> 1 <= round <= |floats[x]| && floats[x][round - 1] == NoFloat
    ensures Floated(floats, r, history, round, entries)
  {
    RoundOfInRound(history, round);
    r := floats;
    for i := 0 to |entries|
      invariant Floated(floats, r, history, round, entries[..i])
    {
      assert entries[i] in InRound(history, round);
      var next := FloatEntry(history, entries[i], running, r);
      FloatedSnoc(floats, r, next, history, round, entries[..i], entries[i]);
      assert entries[..i + 1] == entries[..i] + [entries[i]];
      r := next;
    }
    assert entries[..|entries|] == entries;
  }

  lemma {:induction false} PointsBeforeNext(entries: seq<Entry>, round: int, id: string)
    requires round >= 1
    ensures PointsBefore(entries, round + 1, id) ==
            PointsBefore(entries, round, id) + TotalGain(InRound(entries, round), id)
  {
    if entries != [] {
      var front, last := entries[..|entries| - 1], entries[|entries| - 1];
      PointsBeforeNext(front, round, id);
      var r := InRound(entries, round);
      if last.roundNumber == round {
        assert r[..|r| - 1] == InRound(front, round);
      } else {
        assert r == InRound(front, round);
      }
    }
  }

  lemma {:induction false} NothingBeforeRoundOne(entries: seq<Entry>, id: string)
    ensures PointsBefore(entries, 1, id) == 0
  {
    if entries != [] { NothingBeforeRoundOne(entries[..|entries| - 1], id); }
  }

  /** The float history as far as it is known before a round. */
  function FloatsUpTo(history: seq<Entry>, rounds: nat, known: nat, id: string): (r: seq<Float>)
    requires known <= rounds
    ensures |r| == rounds
  {
    seq(rounds, k => if k < known then FloatAt(history, k + 1, id) else NoFloat)
  }

  ghost predicate FloatsKnown(floats: Floats, history: seq<Entry>, rounds: nat, known: nat)
    requires known <= rounds
  {
    forall x :: x in floats ==> floats[x] == FloatsUpTo(history, rounds, known, x)
  }

  ghost predicate PointsKnown(running: map<string, int>, history: seq<Entry>, round: int) {
    forall id: string :: PointsOf(running, id) == PointsBefore(history, round, id)
  }

  lemma KnowOneMore(floats: Floats, next: Floats, history: seq<Entry>, rounds: nat, known: nat)
    requires known < rounds && FloatsKnown(floats, history, rounds, known)
    requires next.Keys == floats.Keys
    requires forall x :: x in floats ==> next[x] == floats[x][known := FloatAt(history, known + 1, x)]
    ensures FloatsKnown(next, history, rounds, known + 1)
  {
    forall x | x in next ensures next[x] == FloatsUpTo(history, rounds, known + 1, x) {
      assert x in floats && floats[x] == FloatsUpTo(history, rounds, known, x);
    }
  }

  method PlayRound(
    sorted: seq<Entry>, rounds: nat, done: nat, entries: seq<Entry>, floats: Floats, running: map<string, int>)
    returns (floats': Floats, running': map<string, int>)
    requires done < rounds && entries == InRound(sorted, done + 1)
    requires FloatsKnown(floats, sorted, rounds, done) && PointsKnown(running, sorted, done + 1)
    ensures floats'.Keys == floats.Keys
    ensures FloatsKnown(floats', sorted, rounds, done + 1) && PointsKnown(running', sorted, done + 2)
  {
    floats' := FloatRound(sorted, done + 1, entries, running, floats);
    KnowOneMore(floats, floats', sorted, rounds, done);
    running' := ApplyPoints(running, entries);
    forall id: string ensures PointsOf(running', id) == PointsBefore(sorted, done + 2, id) {
      PointsBeforeNext(sorted, done + 1, id);
    }
  }

  function Ids(participants: seq<Participant>): set<string> {
    set p: Participant | p in participants :: p.registrationId
  }

  method FloatPass(participants: seq<Participant>, sorted: seq<Entry>, maxRound: nat)
    returns (floats: Floats, running: map<string, int>)
    ensures floats.Keys == Ids(participants) && forall id :: id in floats ==>
            floats[id] == FloatHistory(sorted, maxRound, id)
    ensures forall id: string :: PointsOf(running, id) == PointsBefore(sorted, maxRound + 1, id)
  {
    var byRound := GroupByRound(sorted);
    floats := map id: string | id in Ids(participants) :: seq(maxRound, _ => NoFloat);
    running := map[];
    forall id: string ensures PointsBefore(sorted, 1, id) == 0 { NothingBeforeRoundOne(sorted, id); }
    for done := 0 to maxRound
      invariant floats.Keys == Ids(participants)
      invariant FloatsKnown(floats, sorted, maxRound, done)
      invariant PointsKnown(running, sorted, done + 1)
    {
      floats, running := PlayRound(sorted, maxRound, done, Bucket(byRound, done + 1), floats, running);
    }
    forall id | id in floats ensures floats[id] == FloatHistory(sorted, maxRound, id) {
      assert floats[id] == FloatsUpTo(sorted, maxRound, maxRound, id);
    }
  }

  // ---------------------------------------------------------------------------------------
  //  Second pass: the participants
  // ---------------------------------------------------------------------------------------

  lemma OpponentsSnoc(entries: seq<Entry>, e: Entry, id: string)
    ensures Opponents(entries + [e], id) ==
            Opponents(entries, id) + if OpponentIn(e, id).Some? then {OpponentIn(e, id).value} else {}
  {
    var all := entries + [e];
    assert forall x :: x in all <==> x in entries || x == e;
    forall o | o in Opponents(entries, id) ensures o in Opponents(all, id) {
      var x :| x in entries && OpponentIn(x, id) == Some(o);
      assert x in all;
    }
    if OpponentIn(e, id).Some? {
      assert e in all;
    }
  }

  lemma ByeBarredSnoc(entries: seq<Entry>, e: Entry, id: string)
    ensures ByeBarred(entries + [e], id) <==> ByeBarred(entries, id) || BarsBye(e, id)
  {
    var all := entries + [e];
    assert forall x :: x in all <==> x in entries || x == e;
  }

  method ParticipantPass(sorted: seq<Entry>, id: string)
    returns (points: int, opponents: set<string>, colours: seq<Side>, hasReceivedBye: bool)
    ensures points == Points(sorted, id)
    ensures opponents == Opponents(sorted, id)
    ensures colours == Colours(sorted, id)
    ensures hasReceivedBye == ByeBarred(sorted, id)
  {
    points, opponents, colours, hasReceivedBye := 0, {}, [], false;
    for i := 0 to |sorted|
      invariant points == Points(sorted[..i], id)
      invariant opponents == Opponents(sorted[..i], id)
      invariant colours == Colours(sorted[..i], id)
      invariant hasReceivedBye == ByeBarred(sorted[..i], id)
    {
      var entry := sorted[i];
      assert sorted[..i + 1][..i] == sorted[..i];
      assert sorted[..i + 1] == sorted[..i] + [entry];
      OpponentsSnoc(sorted[..i], entry, id);
      ByeBarredSnoc(sorted[..i], entry, id);
      var side := SideOf(entry, id);
      if side.None? { continue; }
      if entry.black.None? {
        if entry.result == ByeFull { hasReceivedBye := true; }
      } else {
        var opponent := if side.value == White then entry.black.value else entry.white;
        opponents := opponents + {opponent};
        if (side.value == White && entry.result == WhiteWinForfeit)
            || (side.value == Black && entry.result == BlackWinForfeit) {
          hasReceivedBye := true;
        }
      }
      var outcome := OutcomeFor(entry.result, side.value);
      if outcome.None? { continue; }
      points := points + outcome.value.score2;
      if outcome.value.playedOverBoard { colours := colours + [side.value]; }
    }
    assert sorted[..|sorted|] == sorted;
  }

  method LastRound(sorted: seq<Entry>) returns (maxRound: nat)
    ensures maxRound == MaxRound(sorted)
  {
    maxRound := 0;
    for i := 0 to |sorted|
      invariant maxRound == MaxRound(sorted[..i])
    {
      assert sorted[..i + 1][..i] == sorted[..i];
      if sorted[i].roundNumber > maxRound { maxRound := sorted[i].roundNumber; }
    }
    assert sorted[..|sorted|] == sorted;
  }

  method BuildState(p: Participant, sorted: seq<Entry>, floats: Floats) returns (state: PairingState)
    requires p.registrationId in floats
            && floats[p.registrationId] == FloatHistory(sorted, MaxRound(sorted), p.registrationId)
    ensures state == StateOf(p, sorted)
  {
    var points, opponents, colours, hasReceivedBye := ParticipantPass(sorted, p.registrationId);
    state := PairingState(p.registrationId, p.pairingNumber, OrElse(p.ratingAtEntry, 0), points, opponents, colours,
                          floats[p.registrationId], hasReceivedBye, p.isWithdrawn, OrElse(p.joinedAtRound, 1));
  }

  method BuildPairingStates(participants: seq<Participant>, history: seq<Entry>) returns (states: seq<PairingState>)
    ensures |states| == |participants|
    ensures forall i :: 0 <= i < |participants| ==> states[i] == StateOf(participants[i], Sort(ByRound(), history))
  {
    var sorted := Sort(ByRound(), history);
    var maxRound := LastRound(sorted);
    var floats, _ := FloatPass(participants, sorted, maxRound);
    states := [];
    for i := 0 to |participants|
      invariant |states| == i && forall k :: 0 <= k < i ==> states[k] == StateOf(participants[k], sorted)
    {
      assert participants[i].registrationId in Ids(participants);
      var state := BuildState(participants[i], sorted, floats);
      states := states + [state];
    }
  }
}
