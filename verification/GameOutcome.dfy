/**
 What comes of a game: who wins, what the stored text says about it, and that a legal move or a
 decision that nothing interferes with is stored.
 */
module GameOutcome {
  import opened Wrappers
  import opened Sorting
  import opened Text
  import opened Chess
  import opened Zobrist
  import opened Repetition
  import opened GamePgn
  import opened GameProtocol

  // ---------------------------------------------------------------------------------------
  //  Who wins
  // ---------------------------------------------------------------------------------------

  /** In every run a mated game is won by the side that moved last, and no other end by position is won by anybody. */
  lemma CheckmateIsWonByLastMover(lib: Library, t: Tables, steps: seq<Step>)
    requires PlaysChess(lib)
    ensures var db := Run(lib, t, INITIAL_WORLD, steps).db;
            db.game.status.ByPosition? ==>
              && db.moves != []
              && (db.game.status.end == Checkmate ==> db.game.winner == Some(LastMover(db.moves)))
              && (db.game.status.end != Checkmate ==> db.game.winner == None)
  {
    EveryRunIsSound(lib, t, steps);
  }

  /** The library lets the sides move in turn. */
  ghost predicate TakesTurns(lib: Library) {
    forall fen, uci :: lib.validate(fen, uci).Some? ==>
      (SideToMove(lib.validate(fen, uci).value.fenAfter) == W <==> SideToMove(fen) == B)
  }

  const START_PLACEMENT := "rnbqkbnr/pppppppp/8/8/8/8/PPPPPPPP/RNBQKBNR"

  const START_REST := "KQkq - 0 1"

  lemma StartParts()
    ensures STARTING_FEN == START_PLACEMENT + [' '] + ("w" + [' '] + START_REST)
    ensures ' ' !in START_PLACEMENT
  {
  }

  lemma SecondField(a: string, b: string, rest: string)
    requires ' ' !in a && ' ' !in b
    ensures Field(a + [' '] + (b + [' '] + rest), 1, "") == b
  {
    SplitFront(a, b + [' '] + rest, ' ');
    SplitFront(b, rest, ' ');
  }

  lemma WhiteStarts()
    ensures SideToMove(STARTING_FEN) == W
  {
    StartParts();
    SecondField(START_PLACEMENT, "w", START_REST);
  }

  lemma {:induction false} InTurn(side: nat -> Side, n: nat)
    requires side(0) == W && forall k: nat :: k < n ==> (side(k + 1) == W <==> side(k) == B)
    ensures side(n) == if n % 2 == 0 then W else B
  {
    if n > 0 {
      InTurn(side, n - 1);
      assert side(n - 1 + 1) == W <==> side(n - 1) == B;
    }
  }

  function SideAfter(moves: seq<MoveRow>, k: nat): Side {
    SideToMove(CurrentFen(if k < |moves| then moves[..k] else moves))
  }

  lemma SidesAlternate(lib: Library, t: Tables, moves: seq<MoveRow>)
    requires TakesTurns(lib) && LegalLog(lib, t, moves)
    ensures SideAfter(moves, |moves|) == if |moves| % 2 == 0 then W else B
  {
    NoMoveYet(moves);
    forall k: nat | k < |moves| ensures SideAfter(moves, k + 1) == W <==> SideAfter(moves, k) == B {
      SideAfterNext(lib, t, moves, k);
    }
    InTurnFrom(moves, (k: nat) => SideAfter(moves, k));
  }

  lemma InTurnFrom(moves: seq<MoveRow>, side: nat -> Side)
    requires forall k: nat :: side(k) == SideAfter(moves, k)
    requires SideAfter(moves, 0) == W
    requires forall k: nat :: k < |moves| ==> (SideAfter(moves, k + 1) == W <==> SideAfter(moves, k) == B)
    ensures SideAfter(moves, |moves|) == if |moves| % 2 == 0 then W else B
  {
    InTurn(side, |moves|);
  }

  lemma NoMoveYet(moves: seq<MoveRow>)
    ensures SideAfter(moves, 0) == W
  {
    WhiteStarts();
    assert moves[..0] == [];
  }

  lemma SideAfterNext(lib: Library, t: Tables, moves: seq<MoveRow>, k: nat)
    requires TakesTurns(lib) && LegalLog(lib, t, moves) && k < |moves|
    ensures SideAfter(moves, k + 1) == W <==> SideAfter(moves, k) == B
  {
    var front := moves[..k + 1];
    assert k + 1 == |moves| ==> front == moves;
    assert front[..k] == moves[..k];
    LogUpTo(lib, t, moves, k + 1);
    SideChanges(lib, t, front);
  }

  lemma LogUpTo(lib: Library, t: Tables, moves: seq<MoveRow>, n: nat)
    requires LegalLog(lib, t, moves) && n <= |moves|
    ensures LegalLog(lib, t, moves[..n])
  {
    var front := moves[..n];
    forall i | 0 <= i < n ensures LegalAt(lib, t, front, i) {
      assert LegalAt(lib, t, moves, i);
      assert Positions(front)[i] == Positions(moves)[i];
    }
  }

  lemma SideChanges(lib: Library, t: Tables, moves: seq<MoveRow>)
    requires TakesTurns(lib) && LegalLog(lib, t, moves) && moves != []
    ensures SideToMove(CurrentFen(moves)) == W <==> SideToMove(CurrentFen(moves[..|moves| - 1])) == B
  {
    var last := |moves| - 1;
    assert LegalAt(lib, t, moves, last);
    assert Positions(moves)[last] == CurrentFen(moves[..last]);
    var uci :| IsMove(lib, CurrentFen(moves[..last]), uci, moves[last].san, moves[last].fenAfter);
  }

  /** So White wins by checkmate exactly if the game has an odd number of half-moves. */
  lemma CheckmateByParity(lib: Library, t: Tables, steps: seq<Step>)
    requires PlaysChess(lib) && TakesTurns(lib)
    ensures var db := Run(lib, t, INITIAL_WORLD, steps).db;
            db.game.status == ByPosition(Checkmate) ==> db.game.winner == Some(if |db.moves| % 2 == 1 then W else B)
  {
    EveryRunIsSound(lib, t, steps);
    CheckmateIsWonByLastMover(lib, t, steps);
    LastMoverByParity(lib, t, Run(lib, t, INITIAL_WORLD, steps).db.moves);
  }

  lemma LastMoverByParity(lib: Library, t: Tables, moves: seq<MoveRow>)
    requires TakesTurns(lib) && LegalLog(lib, t, moves)
    ensures moves != [] ==> LastMover(moves) == if |moves| % 2 == 1 then W else B
  {
    if moves != [] {
      LogUpTo(lib, t, moves, |moves| - 1);
      SidesAlternate(lib, t, moves[..|moves| - 1]);
    }
  }

  // ---------------------------------------------------------------------------------------
  //  What the text says
  // ---------------------------------------------------------------------------------------

  /** The result that the text closes with, one clause for each. */
  lemma ResultNamesWinner(status: Status, winner: Option<Side>)
    ensures PgnResult(status, winner) == "*" <==> status == Active || status == Aborted
    ensures PgnResult(status, winner) == "1-0" <==> status != Active && status != Aborted && winner == Some(W)
    ensures PgnResult(status, winner) == "0-1" <==> status != Active && status != Aborted && winner == Some(B)
    ensures PgnResult(status, winner) == "1/2-1/2" <==> status != Active && status != Aborted && winner == None
  {
    assert "1-0"[0] != "0-1"[0] && |"1/2-1/2"| == 7 && |"*"| == 1;
  }

  /** In every run a game that was mated stores the winner's result at the end of its text. */
  lemma MatedTextNamesWinner(lib: Library, t: Tables, steps: seq<Step>)
    requires PlaysChess(lib)
    ensures var db := Run(lib, t, INITIAL_WORLD, steps).db;
            db.game.status == ByPosition(Checkmate) ==>
              db.moves != [] &&
              db.game.pgn == Some(BuildPgn(Sans(db.moves), if LastMover(db.moves) == W then "1-0" else "0-1"))
  {
    EveryRunIsSound(lib, t, steps);
  }

  // ---------------------------------------------------------------------------------------
  //  Undisturbed steps go through
  // ---------------------------------------------------------------------------------------

  predicate Ready(x: Actor) { x.Idle? || x.Done? }

  /** The row is what the move leaves: next half-move, its text and position, and the mover's own time. */
  predicate RowFor(lib: Library, t: Tables, db: Db, m: LegalMove, clock: TimesLeft, row: MoveRow) {
    && row.ply == |db.moves| + 1 && row.san == m.san && row.fenAfter == m.fenAfter
    && row.positionHash == Hash(t, lib, m.fenAfter)
    && row.clockAfterMs == Some(if SideToMove(db.game.fen) == W then clock.white else clock.black)
  }

  /** The game goes on or ends as the rules say, and if it ends, with this winner, text and times. */
  ghost predicate EndsAsRuled(db: Db, db': Db, end: Option<GameEnd>, clock: TimesLeft) {
    match end
    case None => db'.game == db.game.(fen := db'.game.fen)
    case Some(e) =>
      && db'.game.status == ByPosition(e) && db'.game.timesLeft == Some(clock)
      && db'.game.winner == (if e == Checkmate then Some(SideToMove(db.game.fen)) else None)
      && db'.game.pgn == Some(BuildPgn(Sans(db'.moves), PgnResult(db'.game.status, db'.game.winner)))
  }

  lemma MoveLoads(lib: Library, t: Tables, w: World, a: nat, uci: string, w': World)
    requires Ready(ActorAt(w, a)) && w.db.game.status == Active && lib.validate(w.db.game.fen, uci).Some?
    requires w' == Next(lib, t, w, LoadMove(a, SideToMove(w.db.game.fen), uci))
    ensures w'.db == w.db && ActorAt(w', a) == MoverLoaded(|w.db.moves|, w.db.game.fen, uci)
  {
  }

  lemma MoveIsJudged(lib: Library, t: Tables, w: World, a: nat, uci: string, w': World)
    requires PlaysChess(lib) && LogSound(lib, t, w.db) && lib.validate(w.db.game.fen, uci).Some?
    requires ActorAt(w, a) == MoverLoaded(|w.db.moves|, w.db.game.fen, uci) && w' == Next(lib, t, w, Judge(a))
    ensures var end := MandatedEnd(lib, w.db.moves, MoveOf(lib, w.db.game.fen, uci).fenAfter);
            w'.db == w.db && ActorAt(w', a) == MoverJudged(|w.db.moves|, w.db.game.fen, uci, end)
  {
    IndexedTestIsTheRule(lib, t, w.db.moves, uci);
  }

  lemma MovesAreRead(lib: Library, t: Tables, w: World, a: nat, uci: string, end: Option<GameEnd>, w': World)
    requires LogSound(lib, t, w.db) && end.Some?
    requires ActorAt(w, a) == MoverJudged(|w.db.moves|, w.db.game.fen, uci, end) && w' == Next(lib, t, w, ReadMoves(a))
    ensures w'.db == w.db
    ensures ActorAt(w', a) == MoverReady(|w.db.moves|, w.db.game.fen, uci, end, Sans(w.db.moves))
  {
    ListIsLog(w.db);
  }

  lemma MoveCommits(
    lib: Library, t: Tables, w: World, a: nat, uci: string, end: Option<GameEnd>, clock: TimesLeft, w': World)
    requires PliesInOrder(w.db.moves) && w.db.game.status == Active && lib.validate(w.db.game.fen, uci).Some?
    requires ActorAt(w, a) ==
             if end.None? then MoverJudged(|w.db.moves|, w.db.game.fen, uci, end)
             else MoverReady(|w.db.moves|, w.db.game.fen, uci, end, Sans(w.db.moves))
    requires w' == Next(lib, t, w, CommitMove(a, clock))
    ensures |w'.db.moves| == |w.db.moves| + 1 && w'.db.moves[..|w.db.moves|] == w.db.moves
    ensures RowFor(lib, t, w.db, MoveOf(lib, w.db.game.fen, uci), clock, w'.db.moves[|w.db.moves|])
    ensures w'.db.game.fen == MoveOf(lib, w.db.game.fen, uci).fenAfter && EndsAsRuled(w.db, w'.db, end, clock)
    ensures ActorAt(w', a) == Done(true)
  {
    CommitMoveIs(lib, t, w, a, clock);
    PlyFreeIffCurrent(w.db.moves, |w.db.moves|);
    SansSnoc(w.db.moves, RowOf(lib, t, |w.db.moves|, w.db.game.fen, uci, clock));
  }

  /**
   A legal move in an active game whose actor is not disturbed is stored: one row more, the position it
   leads to, and exactly the end that the rules demand, won by the mover if it is checkmate.
   */
  lemma MoveGoesThrough(lib: Library, t: Tables, w: World, a: nat, uci: string, clock: TimesLeft)
    requires PlaysChess(lib) && Inv(lib, t, w) && Ready(ActorAt(w, a))
    requires w.db.game.status == Active && lib.validate(w.db.game.fen, uci).Some?
    ensures var m := MoveOf(lib, w.db.game.fen, uci);
            var end := MandatedEnd(lib, w.db.moves, m.fenAfter);
            var judged := Next(lib, t, Next(lib, t, w, LoadMove(a, SideToMove(w.db.game.fen), uci)), Judge(a));
            var ready := if end.None? then judged else Next(lib, t, judged, ReadMoves(a));
            var w' := Next(lib, t, ready, CommitMove(a, clock));
            && |w'.db.moves| == |w.db.moves| + 1 && w'.db.moves[..|w.db.moves|] == w.db.moves
            && RowFor(lib, t, w.db, m, clock, w'.db.moves[|w.db.moves|])
            && w'.db.game.fen == m.fenAfter && EndsAsRuled(w.db, w'.db, end, clock) && ActorAt(w', a) == Done(true)
  {
    var m := MoveOf(lib, w.db.game.fen, uci);
    var end := MandatedEnd(lib, w.db.moves, m.fenAfter);
    var loaded := Next(lib, t, w, LoadMove(a, SideToMove(w.db.game.fen), uci));
    MoveLoads(lib, t, w, a, uci, loaded);
    var judged := Next(lib, t, loaded, Judge(a));
    MoveIsJudged(lib, t, loaded, a, uci, judged);
    var ready := if end.None? then judged else Next(lib, t, judged, ReadMoves(a));
    if end.Some? { MovesAreRead(lib, t, judged, a, uci, end, ready); }
    MoveCommits(lib, t, ready, a, uci, end, clock, Next(lib, t, ready, CommitMove(a, clock)));
  }

  lemma FinishIsRead(lib: Library, t: Tables, w: World, a: nat, status: Status, winner: Option<Side>, w': World)
    requires Inv(lib, t, w) && Ready(ActorAt(w, a)) && w.db.game.status == Active && Decision(status)
    requires w' == Next(lib, t, Next(lib, t, w, LoadFinish(a, status, winner)), ReadMovesToFinish(a))
    ensures w'.db == w.db && ActorAt(w', a) == FinisherReady(status, winner, Sans(w.db.moves))
  {
    ListIsLog(w.db);
    assert ActorAt(Next(lib, t, w, LoadFinish(a, status, winner)), a) == FinisherLoaded(status, winner);
  }

  /** A decision that is not disturbed ends the game with its own status and winner and the whole text. */
  lemma FinishGoesThrough(
    lib: Library, t: Tables, w: World, a: nat, status: Status, winner: Option<Side>, times: TimesLeft)
    requires Inv(lib, t, w) && Ready(ActorAt(w, a)) && w.db.game.status == Active && Decision(status)
    ensures var read := Next(lib, t, Next(lib, t, w, LoadFinish(a, status, winner)), ReadMovesToFinish(a));
            var w' := Next(lib, t, read, CommitFinish(a, times));
            && w'.db.moves == w.db.moves && w'.db.game.fen == w.db.game.fen && ActorAt(w', a) == Done(true)
            && w'.db.game.status == status && w'.db.game.winner == winner && w'.db.game.timesLeft == Some(times)
            && w'.db.game.pgn == Some(BuildPgn(Sans(w.db.moves), PgnResult(status, winner)))
  {
    var read := Next(lib, t, Next(lib, t, w, LoadFinish(a, status, winner)), ReadMovesToFinish(a));
    FinishIsRead(lib, t, w, a, status, winner, read);
  }

  /** A move for the side that is not to move, an illegal one, or one in an ended game is not even begun. */
  lemma RefusedMoveChangesNothing(lib: Library, t: Tables, w: World, a: nat, side: Side, uci: string)
    requires w.db.game.status != Active || SideToMove(w.db.game.fen) != side
        || lib.validate(w.db.game.fen, uci).None?
    ensures Next(lib, t, w, LoadMove(a, side, uci)) == w
  {
  }
}
