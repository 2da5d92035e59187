/**
 The threefold test of a move: an index lookup by hash, re-checked by position key, against the
 rule of FIDE article 9.2, which counts a position over the whole game.
 */
module Repetition {
  import opened Wrappers
  import opened Chess
  import opened Zobrist

  /** A stored move. `clockAfterMs` is the mover's time after it; the source allows it to be absent. */
  datatype MoveRow = MoveRow(ply: int, san: string, fenAfter: string, positionHash: bv64, clockAfterMs: Option<int>)

  // ---------------------------------------------------------------------------------------
  //  The indexed test
  // ---------------------------------------------------------------------------------------

  /** The positions stored under a hash. */
  function Occurrences(rows: seq<MoveRow>, hash: bv64): (fens: seq<string>)
  {
    if rows == [] then []
    else if rows[0].positionHash == hash then [rows[0].fenAfter] + Occurrences(rows[1..], hash)
    else Occurrences(rows[1..], hash)
  }

  function CountKey(fens: seq<string>, key: string): nat {
    if fens == [] then 0 else (if PositionKey(fens[0]) == key then 1 else 0) + CountKey(fens[1..], key)
  }

  /** The end of the game that a move brings about, given what the index returned for its hash. */
  function EndStatus(lib: Library, m: LegalMove, occurrences: seq<string>): Option<GameEnd> {
    var byPosition := lib.ending(m.fenAfter);
    if byPosition.None? && !m.irreversible then
      var key := PositionKey(m.fenAfter);
      var startBonus := if PositionKey(STARTING_FEN) == key then 1 else 0;
      if CountKey(occurrences, key) + startBonus + 1 >= 3 then Some(ThreefoldRepetition) else None
    else byPosition
  }

  // ---------------------------------------------------------------------------------------
  //  The rule
  // ---------------------------------------------------------------------------------------

  /** Every position of the game so far, from the start. */
  function Positions(rows: seq<MoveRow>): (fens: seq<string>)
    ensures |fens| == |rows| + 1
  {
    [STARTING_FEN] + seq(|rows|, i requires 0 <= i < |rows| => rows[i].fenAfter)
  }

  /** The position occurs for at least the third time, counting the move just made. */
  predicate OccursThreeTimes(rows: seq<MoveRow>, fen: string) {
    CountKey(Positions(rows), PositionKey(fen)) + 1 >= 3
  }

  /** How the rules end the game when `fenAfter` arises after the moves of `rows`. */
  function MandatedEnd(lib: Library, rows: seq<MoveRow>, fenAfter: string): Option<GameEnd> {
    var byPosition := lib.ending(fenAfter);
    if byPosition.None? && OccursThreeTimes(rows, fenAfter) then Some(ThreefoldRepetition) else byPosition
  }

  /** A log of legal moves from the starting position, stored with their hashes. */
  ghost predicate LegalLog(lib: Library, t: Tables, rows: seq<MoveRow>) {
    forall i :: 0 <= i < |rows| ==> LegalAt(lib, t, rows, i)
  }

  ghost predicate LegalAt(lib: Library, t: Tables, rows: seq<MoveRow>, i: int)
    requires 0 <= i < |rows|
  {
    && rows[i].positionHash == Hash(t, lib, rows[i].fenAfter)
    && LegalSuccessor(lib, Positions(rows)[i], rows[i].san, rows[i].fenAfter)
  }

  ghost predicate LegalSuccessor(lib: Library, fen: string, san: string, fenAfter: string) {
    exists uci :: IsMove(lib, fen, uci, san, fenAfter)
  }

  predicate IsMove(lib: Library, fen: string, uci: string, san: string, fenAfter: string) {
    && lib.validate(fen, uci).Some?
    && lib.validate(fen, uci).value.san == san && lib.validate(fen, uci).value.fenAfter == fenAfter
  }

  function CurrentFen(rows: seq<MoveRow>): string {
    if rows == [] then STARTING_FEN else rows[|rows| - 1].fenAfter
  }

  // ---------------------------------------------------------------------------------------
  //  They agree
  // ---------------------------------------------------------------------------------------

  function Fens(rows: seq<MoveRow>): (fens: seq<string>)
    ensures |fens| == |rows|
  {
    seq(|rows|, i requires 0 <= i < |rows| => rows[i].fenAfter)
  }

  /** Looking only under the hash misses no position with the same key. */
  lemma {:induction false} IndexMissesNothing(lib: Library, t: Tables, rows: seq<MoveRow>, fen: string)
    requires forall i :: 0 <= i < |rows| ==> rows[i].positionHash == Hash(t, lib, rows[i].fenAfter)
    ensures CountKey(Occurrences(rows, Hash(t, lib, fen)), PositionKey(fen)) == CountKey(Fens(rows), PositionKey(fen))
  {
    if rows != [] {
      IndexMissesNothing(lib, t, rows[1..], fen);
      if PositionKey(rows[0].fenAfter) == PositionKey(fen) { EqualKeysEqualHashes(t, lib, rows[0].fenAfter, fen); }
      IndexNext(rows, Hash(t, lib, fen), PositionKey(fen));
    }
  }

  /** A row whose position has the key is found under the hash, so it counts on both sides. */
  lemma IndexNext(rows: seq<MoveRow>, hash: bv64, key: string)
    requires rows != [] && (PositionKey(rows[0].fenAfter) == key ==> rows[0].positionHash == hash)
    requires CountKey(Occurrences(rows[1..], hash), key) == CountKey(Fens(rows[1..]), key)
    ensures CountKey(Occurrences(rows, hash), key) == CountKey(Fens(rows), key)
  {
    assert Fens(rows) == [rows[0].fenAfter] + Fens(rows[1..]);
    CountKeyCons(rows[0].fenAfter, Fens(rows[1..]), key);
    CountKeyCons(rows[0].fenAfter, Occurrences(rows[1..], hash), key);
  }

  lemma CountKeyCons(fen: string, fens: seq<string>, key: string)
    ensures CountKey([fen] + fens, key) == (if PositionKey(fen) == key then 1 else 0) + CountKey(fens, key)
  {
    assert ([fen] + fens)[1..] == fens;
  }

  lemma PositionsSplit(rows: seq<MoveRow>, key: string)
    ensures CountKey(Positions(rows), key) ==
            (if PositionKey(STARTING_FEN) == key then 1 else 0) + CountKey(Fens(rows), key)
  {
    assert Positions(rows) == [STARTING_FEN] + Fens(rows);
    assert Positions(rows)[1..] == Fens(rows);
  }

  function PotentialOf(lib: Library, fen: string): int { Potential(Placement(lib, fen)) }

  /** Along a log of legal moves the potential never rises. */
  lemma {:induction false} PotentialFalls(lib: Library, t: Tables, rows: seq<MoveRow>, i: nat)
    requires PlaysChess(lib) && LegalLog(lib, t, rows) && i <= |rows|
    ensures PotentialOf(lib, Positions(rows)[|rows|]) <= PotentialOf(lib, Positions(rows)[i])
    decreases |rows| - i
  {
    if i < |rows| {
      PotentialFalls(lib, t, rows, i + 1);
      PotentialStep(lib, t, rows, i);
    }
  }

  lemma PotentialStep(lib: Library, t: Tables, rows: seq<MoveRow>, i: nat)
    requires PlaysChess(lib) && LegalLog(lib, t, rows) && i < |rows|
    ensures PotentialOf(lib, Positions(rows)[i + 1]) <= PotentialOf(lib, Positions(rows)[i])
  {
    assert LegalAt(lib, t, rows, i);
    assert Positions(rows)[i + 1] == rows[i].fenAfter;
    SuccessorPotential(lib, Positions(rows)[i], rows[i].san, rows[i].fenAfter);
  }

  lemma SuccessorPotential(lib: Library, fen: string, san: string, fenAfter: string)
    requires PlaysChess(lib) && LegalSuccessor(lib, fen, san, fenAfter)
    ensures PotentialOf(lib, fenAfter) <= PotentialOf(lib, fen)
  {
    var uci :| IsMove(lib, fen, uci, san, fenAfter);
    MoveOnPotential(lib, fen, uci);
  }

  lemma {:induction false} NoneHasKey(fens: seq<string>, key: string)
    requires forall i :: 0 <= i < |fens| ==> PositionKey(fens[i]) != key
    ensures CountKey(fens, key) == 0
  {
    if fens != [] {
      NoneHasKey(fens[1..], key);
    }
  }

  lemma SameKeySamePotential(lib: Library, f: string, g: string)
    requires PositionKey(f) == PositionKey(g)
    ensures PotentialOf(lib, f) == PotentialOf(lib, g)
  {
    KeyDeterminesFields(f, g);
    assert Field(f, 0, "") == Field(g, 0, "");
  }

  /** After a capture or a pawn move the position is new, so the source may skip the test. */
  lemma IrreversibleIsNew(lib: Library, t: Tables, rows: seq<MoveRow>, uci: string)
    requires PlaysChess(lib) && LegalLog(lib, t, rows)
    requires lib.validate(CurrentFen(rows), uci).Some? && lib.validate(CurrentFen(rows), uci).value.irreversible
    ensures CountKey(Positions(rows), PositionKey(lib.validate(CurrentFen(rows), uci).value.fenAfter)) == 0
  {
    var m := lib.validate(CurrentFen(rows), uci).value;
    assert CurrentFen(rows) == Positions(rows)[|rows|];
    MoveOnPotential(lib, CurrentFen(rows), uci);
    forall i | 0 <= i < |Positions(rows)| ensures PositionKey(Positions(rows)[i]) != PositionKey(m.fenAfter) {
      PotentialFalls(lib, t, rows, i);
      if PositionKey(Positions(rows)[i]) == PositionKey(m.fenAfter) {
        SameKeySamePotential(lib, Positions(rows)[i], m.fenAfter);
      }
    }
    NoneHasKey(Positions(rows), PositionKey(m.fenAfter));
  }

  /** The indexed test gives the verdict of the rule, for every legal log and every legal move. */
  lemma IndexedTestIsTheRule(lib: Library, t: Tables, rows: seq<MoveRow>, uci: string)
    requires PlaysChess(lib) && LegalLog(lib, t, rows)
    requires lib.validate(CurrentFen(rows), uci).Some?
    ensures var m := lib.validate(CurrentFen(rows), uci).value;
            EndStatus(lib, m, Occurrences(rows, Hash(t, lib, m.fenAfter))) == MandatedEnd(lib, rows, m.fenAfter)
  {
    var m := lib.validate(CurrentFen(rows), uci).value;
    if m.irreversible {
      IrreversibleIsNew(lib, t, rows, uci);
    } else {
      forall i | 0 <= i < |rows| ensures rows[i].positionHash == Hash(t, lib, rows[i].fenAfter) {
        assert LegalAt(lib, t, rows, i);
      }
      IndexMissesNothing(lib, t, rows, m.fenAfter);
      PositionsSplit(rows, PositionKey(m.fenAfter));
    }
  }

  predicate HasKey(fens: seq<string>, i: int, key: string) { 0 <= i < |fens| && PositionKey(fens[i]) == key }

  ghost predicate Occurs(fens: seq<string>, key: string) { exists i :: HasKey(fens, i, key) }

  ghost predicate OccursTwice(fens: seq<string>, key: string) {
    exists i, j :: i < j && HasKey(fens, i, key) && HasKey(fens, j, key)
  }

  lemma OccursInRest(fens: seq<string>, key: string)
    requires fens != []
    ensures Occurs(fens, key) <==> HasKey(fens, 0, key) || Occurs(fens[1..], key)
  {
    if Occurs(fens[1..], key) {
      var i :| HasKey(fens[1..], i, key);
      assert HasKey(fens, i + 1, key);
    }
    if Occurs(fens, key) {
      var i :| HasKey(fens, i, key);
      if i > 0 { assert HasKey(fens[1..], i - 1, key); }
    }
  }

  lemma TwiceInRest(fens: seq<string>, key: string)
    requires fens != []
    ensures OccursTwice(fens, key) <==> (HasKey(fens, 0, key) && Occurs(fens[1..], key)) || OccursTwice(fens[1..], key)
  {
    if HasKey(fens, 0, key) && Occurs(fens[1..], key) {
      var i :| HasKey(fens[1..], i, key);
      assert HasKey(fens, i + 1, key);
    }
    if OccursTwice(fens[1..], key) {
      var i, j :| i < j && HasKey(fens[1..], i, key) && HasKey(fens[1..], j, key);
      assert HasKey(fens, i + 1, key) && HasKey(fens, j + 1, key);
    }
    if OccursTwice(fens, key) {
      var i, j :| i < j && HasKey(fens, i, key) && HasKey(fens, j, key);
      assert HasKey(fens[1..], j - 1, key);
      if i > 0 { assert HasKey(fens[1..], i - 1, key); }
    }
  }

  lemma {:induction false} CountKeyMeans(fens: seq<string>, key: string)
    ensures CountKey(fens, key) >= 1 <==> Occurs(fens, key)
    ensures CountKey(fens, key) >= 2 <==> OccursTwice(fens, key)
  {
    if fens != [] {
      CountKeyMeans(fens[1..], key);
      OccursInRest(fens, key);
      TwiceInRest(fens, key);
    }
  }

  /**
   A position that does not end the game by itself ends it exactly if two earlier positions of the game,
   the starting one included, have its placement, side to move, castling rights and en passant square.
   */
  lemma EndsOnThirdOccurrence(lib: Library, rows: seq<MoveRow>, fenAfter: string)
    ensures var key, end := PositionKey(fenAfter), MandatedEnd(lib, rows, fenAfter);
            if lib.ending(fenAfter).Some? then end == lib.ending(fenAfter)
            else if OccursTwice(Positions(rows), key) then end == Some(ThreefoldRepetition)
            else end == None
  {
    CountKeyMeans(Positions(rows), PositionKey(fenAfter));
  }
}
