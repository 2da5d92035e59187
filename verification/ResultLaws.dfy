/** What a result means for the two sides of a pairing, and for their points, colours and records. */
module ResultLaws {
  import opened Wrappers
  import opened Sorting
  import opened ResultMapping

  function Other(side: Side): Side { if side == White then Black else White }

  /** The same result with the sides exchanged. */
  function Mirrored(result: PairingResult): PairingResult {
    match result
    case WhiteWin => BlackWin
    case BlackWin => WhiteWin
    case WhiteWinForfeit => BlackWinForfeit
    case BlackWinForfeit => WhiteWinForfeit
    case _ => result
  }

  /** The side that the result names as the winner, of a game or of a forfeit. */
  function WinnerOf(result: PairingResult): Option<Side> {
    if result == WhiteWin || result == WhiteWinForfeit then Some(White)
    else if result == BlackWin || result == BlackWinForfeit then Some(Black)
    else None
  }

  predicate ForOneSide(result: PairingResult) { result in {ByeFull, ByeHalf, ByeZero} }

  /** The named winner gets the whole point and the other side nothing; only played games are over the board. */
  lemma WinnerGetsThePoint(result: PairingResult, side: Side)
    requires WinnerOf(result).Some?
    ensures OutcomeFor(result, side).Some?
    ensures OutcomeFor(result, side).value.score2 == if side == WinnerOf(result).value then 2 else 0
    ensures OutcomeFor(result, side).value.playedOverBoard <==> result == WhiteWin || result == BlackWin
  {
  }

  /** A draw is half a point each over the board; a double forfeit is nothing for either. */
  lemma NobodyWins(result: PairingResult, side: Side)
    requires result == Draw || result == DoubleForfeit
    ensures OutcomeFor(result, side) ==
            Some(if result == Draw then Outcome(1, true) else Outcome(0, false))
  {
  }

  /** Exchanging the sides exchanges the outcomes. */
  lemma MirroredOutcomes(result: PairingResult, side: Side)
    requires !ForOneSide(result)
    ensures OutcomeFor(Mirrored(result), Other(side)) == OutcomeFor(result, side)
  {
  }

  /** A bye gives its player the full, the half or no point, off the board, and nobody else anything. */
  lemma ByesAreForOne(result: PairingResult)
    requires ForOneSide(result)
    ensures OutcomeFor(result, White) ==
            Some(Outcome(if result == ByeFull then 2 else if result == ByeHalf then 1 else 0, false))
    ensures OutcomeFor(result, Black) == None
  {
  }

  /** Over the board the two scores make one point; an unplayed pairing counts for nobody. */
  lemma PlayedMakesOnePoint(result: PairingResult)
    ensures OutcomeFor(result, White).Some? && OutcomeFor(result, White).value.playedOverBoard ==>
            OutcomeFor(result, Black).Some? && OutcomeFor(result, Black).value.playedOverBoard
            && OutcomeFor(result, White).value.score2 + OutcomeFor(result, Black).value.score2 == 2
    ensures result == Unplayed <==> OutcomeFor(result, White) == None
  {
  }

  // ---------------------------------------------------------------------------------------
  //  One more pairing
  // ---------------------------------------------------------------------------------------

  lemma Snoc(entries: seq<Entry>, e: Entry, id: string)
    ensures Points(entries + [e], id) == Points(entries, id) + Score(OutcomeOf(e, id))
    ensures Colours(entries + [e], id) ==
            Colours(entries, id) + if OutcomeOf(e, id).Some? && OutcomeOf(e, id).value.playedOverBoard
              then [SideOf(e, id).value] else []
    ensures Records(entries + [e], id) ==
            Records(entries, id) + if OutcomeOf(e, id).Some?
              then [RecordOf(e, SideOf(e, id).value, OutcomeOf(e, id).value)] else []
  {
    assert (entries + [e])[..|entries|] == entries;
  }

  /** The player on a side of a pairing. */
  function Seated(e: Entry, side: Side): string
    requires e.black.Some?
  {
    if side == White then e.white else e.black.value
  }

  /** A decisive pairing adds two half points to the winner, none to the loser and none to anybody else. */
  lemma WinnerGainsThePoint(entries: seq<Entry>, e: Entry, id: string)
    requires ProperEntry(e) && e.black.Some? && WinnerOf(e.result).Some?
    ensures Points(entries + [e], id) ==
            Points(entries, id) + if id == Seated(e, WinnerOf(e.result).value) then 2 else 0
  {
    Snoc(entries, e, id);
    DecisiveScore(e, id);
  }

  lemma DecisiveScore(e: Entry, id: string)
    requires ProperEntry(e) && e.black.Some? && WinnerOf(e.result).Some?
    ensures Score(OutcomeOf(e, id)) == if id == Seated(e, WinnerOf(e.result).value) then 2 else 0
  {
    WinnerGetsThePoint(e.result, White);
    WinnerGetsThePoint(e.result, Black);
  }

  /**
   A game over the board is on both players' records: each with the other as opponent, its own colour and
   its own share of the point; and each has had that colour once more.
   */
  lemma GameIsOnBothRecords(entries: seq<Entry>, e: Entry, side: Side)
    requires ProperEntry(e) && e.black.Some? && e.result in {WhiteWin, BlackWin, Draw}
    ensures var id, opponent := Seated(e, side), Seated(e, Other(side));
            var share := if e.result == Draw then 1 else if WinnerOf(e.result) == Some(side) then 2 else 0;
            && Records(entries + [e], id) ==
               Records(entries, id) + [GameRecord(Some(opponent), Some(side), share, true)]
            && Colours(entries + [e], id) == Colours(entries, id) + [side]
            && Points(entries + [e], id) == Points(entries, id) + share
  {
    Snoc(entries, e, Seated(e, side));
  }

  /** A forfeit is on both records, with the opponent but without a colour; nobody has had a colour more. */
  lemma ForfeitIsOnBothRecords(entries: seq<Entry>, e: Entry, side: Side)
    requires ProperEntry(e) && e.black.Some? && e.result in {WhiteWinForfeit, BlackWinForfeit, DoubleForfeit}
    ensures var id, opponent := Seated(e, side), Seated(e, Other(side));
            var share := if WinnerOf(e.result) == Some(side) then 2 else 0;
            && Records(entries + [e], id) == Records(entries, id) + [GameRecord(Some(opponent), None, share, false)]
            && Colours(entries + [e], id) == Colours(entries, id)
            && Points(entries + [e], id) == Points(entries, id) + share
  {
    var id := Seated(e, side);
    Snoc(entries, e, id);
    ForfeitOutcome(e, side);
    assert Colours(entries, id) + [] == Colours(entries, id);
  }

  lemma ForfeitOutcome(e: Entry, side: Side)
    requires ProperEntry(e) && e.black.Some? && e.result in {WhiteWinForfeit, BlackWinForfeit, DoubleForfeit}
    ensures var id := Seated(e, side);
            && SideOf(e, id) == Some(side)
            && OutcomeOf(e, id) == Some(Outcome(if WinnerOf(e.result) == Some(side) then 2 else 0, false))
  {
  }

  /** A bye is on its player's record alone, without opponent and colour. */
  lemma ByeIsOnOneRecord(entries: seq<Entry>, e: Entry, id: string)
    requires e.black.None? && ForOneSide(e.result)
    ensures var share := if e.result == ByeFull then 2 else if e.result == ByeHalf then 1 else 0;
            && Records(entries + [e], id) ==
               (if id == e.white then Records(entries, id) + [GameRecord(None, None, share, false)]
                else Records(entries, id))
            && Points(entries + [e], id) == Points(entries, id) + (if id == e.white then share else 0)
            && Colours(entries + [e], id) == Colours(entries, id)
  {
    Snoc(entries, e, id);
    assert Colours(entries, id) + [] == Colours(entries, id) && Records(entries, id) + [] == Records(entries, id);
  }

  /** A pairing that is not played, or of others, leaves everything as it was. */
  lemma NothingElseCounts(entries: seq<Entry>, e: Entry, id: string)
    requires e.result == Unplayed || (id != e.white && e.black != Some(id))
    ensures Points(entries + [e], id) == Points(entries, id)
    ensures Records(entries + [e], id) == Records(entries, id) && Colours(entries + [e], id) == Colours(entries, id)
  {
    Snoc(entries, e, id);
    assert Colours(entries, id) + [] == Colours(entries, id) && Records(entries, id) + [] == Records(entries, id);
  }

  /** The history is read round by round from the first, with nothing lost. */
  lemma HistoryInRoundOrder(history: seq<Entry>)
    ensures var sorted := Sort(ByRound(), history);
            && multiset(sorted) == multiset(history)
            && forall i, j :: 0 <= i < j < |sorted| ==> sorted[i].roundNumber <= sorted[j].roundNumber
  {
    var sorted := Sort(ByRound(), history);
    SortSorted(ByRound(), history);
    forall i, j | 0 <= i < j < |sorted| ensures sorted[i].roundNumber <= sorted[j].roundNumber {
      assert ByRound()(sorted[i], sorted[j]);
    }
  }
}
