/**
 From the stored result of a pairing to points: the mapping on which standings, tie-breaks and the
 pairing engine rely. Points are in half-point units.
 */
module ResultMapping {
  import opened Wrappers
  import opened Sorting

  datatype PairingResult =
    | WhiteWin
    | BlackWin
    | Draw
    | WhiteWinForfeit
    | BlackWinForfeit
    | DoubleForfeit
    | ByeFull
    | ByeHalf
    | ByeZero
    | Unplayed

  datatype Side = White | Black

  datatype Outcome = Outcome(score2: int, playedOverBoard: bool)

  /** One pairing of the history; a bye has no Black. */
  datatype Entry = Entry(roundNumber: int, white: string, black: Option<string>, result: PairingResult)

  function OutcomeFor(result: PairingResult, side: Side): Option<Outcome> {
    match result
    case WhiteWin => Some(Outcome(if side == White then 2 else 0, true))
    case BlackWin => Some(Outcome(if side == White then 0 else 2, true))
    case Draw => Some(Outcome(1, true))
    case WhiteWinForfeit => Some(Outcome(if side == White then 2 else 0, false))
    case BlackWinForfeit => Some(Outcome(if side == White then 0 else 2, false))
    case DoubleForfeit => Some(Outcome(0, false))
    case ByeFull => if side == White then Some(Outcome(2, false)) else None
    case ByeHalf => if side == White then Some(Outcome(1, false)) else None
    case ByeZero => if side == White then Some(Outcome(0, false)) else None
    case Unplayed => None
  }

  function SideOf(e: Entry, id: string): Option<Side> {
    if e.white == id then Some(White) else if e.black == Some(id) then Some(Black) else None
  }

  function OutcomeOf(e: Entry, id: string): Option<Outcome> {
    match SideOf(e, id)
    case None => None
    case Some(side) => OutcomeFor(e.result, side)
  }

  function ByRound(): (Entry, Entry) -> bool { (a: Entry, b: Entry) => a.roundNumber <= b.roundNumber }

  function Score(o: Option<Outcome>): int { if o.None? then 0 else o.value.score2 }

  /** A participant's points over a list of entries. */
  function Points(entries: seq<Entry>, id: string): int {
    if entries == [] then 0 else Points(entries[..|entries| - 1], id) + Score(OutcomeOf(entries[|entries| - 1], id))
  }

  /** How many counted entries of a participant were worth exactly this score. */
  function CountScore(entries: seq<Entry>, id: string, score2: int): nat {
    if entries == [] then 0
    else
      var o := OutcomeOf(entries[|entries| - 1], id);
      CountScore(entries[..|entries| - 1], id, score2) + if o.Some? && o.value.score2 == score2 then 1 else 0
  }

  function Colours(entries: seq<Entry>, id: string): seq<Side> {
    if entries == [] then []
    else
      var last := entries[|entries| - 1];
      var o := OutcomeOf(last, id);
      Colours(entries[..|entries| - 1], id)
          + if o.Some? && o.value.playedOverBoard then [SideOf(last, id).value] else []
  }

  datatype GameRecord =
      GameRecord(opponentId: Option<string>, colour: Option<Side>, result2: int, playedOverBoard: bool)

  function RecordOf(e: Entry, side: Side, o: Outcome): GameRecord {
    GameRecord(if side == White then e.black else Some(e.white), if o.playedOverBoard then Some(side)
        else None, o.score2, o.playedOverBoard)
  }

  function Records(entries: seq<Entry>, id: string): seq<GameRecord> {
    if entries == [] then []
    else
      var last := entries[|entries| - 1];
      var o := OutcomeOf(last, id);
      Records(entries[..|entries| - 1], id) + if o.Some? then [RecordOf(last, SideOf(last, id).value, o.value)] else []
  }

  datatype ScoreView = ScoreView(
    registrationId: string, points: int, wins: nat, draws: nat, losses: nat, gamesPlayed: nat, colours: seq<Side>,
        games: seq<GameRecord>)

  function ViewOf(sorted: seq<Entry>, id: string): ScoreView {
    ScoreView(id, Points(sorted, id), CountScore(sorted, id, 2), CountScore(sorted, id, 1), CountScore(sorted, id, 0),
              |Records(sorted, id)|, Colours(sorted, id), Records(sorted, id))
  }

  lemma OutcomeScores(result: PairingResult, side: Side)
    ensures OutcomeFor(result, side).Some? ==> OutcomeFor(result, side).value.score2 in {0, 1, 2}
  {
  }

  method BuildScoreView(sorted: seq<Entry>, id: string) returns (view: ScoreView)
    ensures view == ViewOf(sorted, id)
  {
    var points := 0;
    var wins: nat, draws: nat, losses: nat := 0, 0, 0;
    var colours: seq<Side>, games: seq<GameRecord> := [], [];
    for i := 0 to |sorted|
      invariant points == Points(sorted[..i], id)
      invariant wins == CountScore(sorted[..i], id, 2) && draws == CountScore(sorted[..i], id, 1)
              && losses == CountScore(sorted[..i], id, 0)
      invariant colours == Colours(sorted[..i], id) && games == Records(sorted[..i], id)
    {
      var entry := sorted[i];
      assert sorted[..i + 1][..i] == sorted[..i];
      var side := SideOf(entry, id);
      if side.None? { continue; }
      var outcome := OutcomeFor(entry.result, side.value);
      if outcome.None? { continue; }
      OutcomeScores(entry.result, side.value);
      games := games + [RecordOf(entry, side.value, outcome.value)];
      points := points + outcome.value.score2;
      if outcome.value.score2 == 2 {
        wins := wins + 1;
      } else if outcome.value.score2 == 1 {
        draws := draws + 1;
      } else {
        losses := losses + 1;
      }
      if outcome.value.playedOverBoard {
        colours := colours + [side.value];
      }
    }
    assert sorted[..|sorted|] == sorted;
    view := ScoreView(id, points, wins, draws, losses, |games|, colours, games);
  }

  method BuildScoreViews(ids: seq<string>, history: seq<Entry>) returns (views: seq<ScoreView>)
    ensures |views| == |ids| && forall i :: 0 <= i < |ids| ==> views[i] == ViewOf(Sort(ByRound(), history), ids[i])
  {
    var sorted := Sort(ByRound(), history);
    views := [];
    for i := 0 to |ids|
      invariant |views| == i && forall k :: 0 <= k < i ==> views[k] == ViewOf(sorted, ids[k])
    {
      var view := BuildScoreView(sorted, ids[i]);
      views := views + [view];
    }
  }

  /** Wins, draws and losses account for every counted game, and for every point. */
  lemma {:induction false} ViewAddsUp(entries: seq<Entry>, id: string)
    ensures CountScore(entries, id, 2) + CountScore(entries, id, 1) + CountScore(entries, id, 0) ==
            |Records(entries, id)|
    ensures Points(entries, id) == 2 * CountScore(entries, id, 2) + CountScore(entries, id, 1)
    ensures |Colours(entries, id)| <= |Records(entries, id)|
  {
    if entries != [] {
      var last := entries[|entries| - 1];
      ViewAddsUp(entries[..|entries| - 1], id);
      if SideOf(last, id).Some? { OutcomeScores(last.result, SideOf(last, id).value); }
    }
  }

  // ---------------------------------------------------------------------------------------
  //  Points do not depend on the order of the entries, and none are lost
  // ---------------------------------------------------------------------------------------

  lemma {:induction false} PointsConcat(a: seq<Entry>, b: seq<Entry>, id: string)
    ensures Points(a + b, id) == Points(a, id) + Points(b, id)
  {
    if b == [] {
      assert a + b == a;
    } else {
      PointsConcat(a, b[..|b| - 1], id);
      assert (a + b)[..|a + b| - 1] == a + b[..|b| - 1];
    }
  }

  lemma {:induction false} PointsForgetOrder(a: seq<Entry>, b: seq<Entry>, id: string)
    requires multiset(a) == multiset(b)
    ensures Points(a, id) == Points(b, id)
    decreases |a|
  {
    SameElements(a, b);
    if a != [] {
      var x := a[0];
      assert x in b;
      var i :| 0 <= i < |b| && b[i] == x;
      assert a == [x] + a[1..];
      assert b == b[..i] + ([x] + b[i + 1..]);
      CancelElement(x, multiset(a[1..]), multiset(b[..i] + b[i + 1..]));
      PointsForgetOrder(a[1..], b[..i] + b[i + 1..], id);
      PointsConcat([x], a[1..], id);
      PointsConcat(b[..i], [x] + b[i + 1..], id);
      PointsConcat([x], b[i + 1..], id);
      PointsConcat(b[..i], b[i + 1..], id);
    }
  }

  /** What a pairing hands out in total. */
  function Value(e: Entry): int {
    Score(OutcomeFor(e.result, White)) + if e.black.Some? then Score(OutcomeFor(e.result, Black)) else 0
  }

  function TotalValue(entries: seq<Entry>): int {
    if entries == [] then 0 else TotalValue(entries[..|entries| - 1]) + Value(entries[|entries| - 1])
  }

  function TotalPoints(ids: seq<string>, entries: seq<Entry>): int {
    if ids == [] then 0 else TotalPoints(ids[..|ids| - 1], entries) + Points(entries, ids[|ids| - 1])
  }

  predicate ProperEntry(e: Entry) { e.black != Some(e.white) && e.roundNumber >= 1 }

  ghost predicate Distinct(ids: seq<string>) { forall i, j :: 0 <= i < j < |ids| ==> ids[i] != ids[j] }

  ghost predicate AllIn(entries: seq<Entry>, ids: seq<string>) {
    forall e :: e in entries ==> e.white in ids && (e.black.Some? ==> e.black.value in ids)
  }

  function ScoresFrom(ids: seq<string>, e: Entry): int {
    if ids == [] then 0 else ScoresFrom(ids[..|ids| - 1], e) + Score(OutcomeOf(e, ids[|ids| - 1]))
  }

  lemma {:induction false} ScoresOfOneEntry(ids: seq<string>, e: Entry)
    requires Distinct(ids) && ProperEntry(e)
    ensures ScoresFrom(ids, e) ==
            (if e.white in ids then Score(OutcomeFor(e.result, White)) else 0)
            + if e.black.Some? && e.black.value in ids then Score(OutcomeFor(e.result, Black)) else 0
  {
    if ids != [] {
      var front, last := ids[..|ids| - 1], ids[|ids| - 1];
      ScoresOfOneEntry(front, e);
      assert forall x :: x in ids <==> x in front || x == last;
      assert last !in front;
    }
  }

  lemma {:induction false} TotalPointsSnoc(ids: seq<string>, entries: seq<Entry>, e: Entry)
    ensures TotalPoints(ids, entries + [e]) == TotalPoints(ids, entries) + ScoresFrom(ids, e)
  {
    if ids != [] {
      TotalPointsSnoc(ids[..|ids| - 1], entries, e);
      assert (entries + [e])[..|entries|] == entries;
    }
  }

  lemma {:induction false} NoEntriesNoPoints(ids: seq<string>)
    ensures TotalPoints(ids, []) == 0
  {
    if ids != [] {
      NoEntriesNoPoints(ids[..|ids| - 1]);
    }
  }

  /** The points of all participants together are the values of all pairings together. */
  lemma {:induction false} PointsAreConserved(ids: seq<string>, entries: seq<Entry>)
    requires Distinct(ids) && AllIn(entries, ids)
    requires forall e :: e in entries ==> ProperEntry(e)
    ensures TotalPoints(ids, entries) == TotalValue(entries)
  {
    if entries == [] {
      NoEntriesNoPoints(ids);
    } else {
      var front, last := entries[..|entries| - 1], entries[|entries| - 1];
      assert last in entries;
      PointsAreConserved(ids, front);
      ScoresOfOneEntry(ids, last);
      TotalPointsSnoc(ids, front, last);
      assert entries == front + [last];
    }
  }
}
