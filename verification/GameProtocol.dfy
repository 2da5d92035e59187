/**
 The online game: a move log and a game row, and any number of movers and finishers working on
 them at the same time.

 Each database transaction is one atomic step. Between the steps of one actor any steps of the
 others may happen, so an actor acts on what it read earlier. Two guards keep the game sound:
 a half-move number can be stored once, and the row changes only while its status is ACTIVE.
 */
module GameProtocol {
  import opened Wrappers
  import opened Sorting
  import opened Chess
  import opened Zobrist
  import opened Repetition
  import opened GamePgn

  datatype Status =
    | Active
    | ByPosition(end: GameEnd)
    | Timeout
    | TimeoutVsInsufficientMaterial
    | Resignation
    | DrawAgreed
    | Aborted
    | Abandoned

  /** The milliseconds that the sides have left. */
  datatype TimesLeft = TimesLeft(white: int, black: int)

  datatype GameRow = GameRow(
    status: Status, fen: string, winner: Option<Side>, pgn: Option<string>, timesLeft: Option<TimesLeft>)

  datatype Db = Db(game: GameRow, moves: seq<MoveRow>)

  datatype Finish = Finish(status: Status, winner: Option<Side>, pgn: string, timesLeft: TimesLeft)

  const INITIAL_DB := Db(GameRow(Active, STARTING_FEN, None, None, None), [])

  // ---------------------------------------------------------------------------------------
  //  The repository
  // ---------------------------------------------------------------------------------------

  predicate PlyTaken(moves: seq<MoveRow>, ply: int) { exists i :: 0 <= i < |moves| && moves[i].ply == ply }

  function Finished(game: GameRow, finish: Finish): GameRow {
    game.(status := finish.status, winner := finish.winner, pgn := Some(finish.pgn),
        timesLeft := Some(finish.timesLeft))
  }

  /** The row says how the game was finished. */
  predicate Shows(game: GameRow, finish: Finish) {
    && game.status == finish.status && game.winner == finish.winner
    && game.pgn == Some(finish.pgn) && game.timesLeft == Some(finish.timesLeft)
  }

  /** Inserting the move and updating the row, or nothing at all. */
  function Appended(db: Db, row: MoveRow, finish: Option<Finish>): Db {
    if PlyTaken(db.moves, row.ply) || db.game.status != Active then db
    else
      var moved := db.game.(fen := row.fenAfter);
      Db(if finish.None? then moved else Finished(moved, finish.value), db.moves + [row])
  }

  predicate Accepts(db: Db, row: MoveRow) { !PlyTaken(db.moves, row.ply) && db.game.status == Active }

  function FinishedDb(db: Db, finish: Finish): Db {
    if db.game.status != Active then db else db.(game := Finished(db.game, finish))
  }

  function ByPly(): (MoveRow, MoveRow) -> bool { (a: MoveRow, b: MoveRow) => a.ply <= b.ply }

  function ListMoves(db: Db): seq<MoveRow> { Sort(ByPly(), db.moves) }

  function Sans(rows: seq<MoveRow>): (sans: seq<string>)
    ensures |sans| == |rows|
  {
    seq(|rows|, i requires 0 <= i < |rows| => rows[i].san)
  }

  class PlayRepository {
    var game: GameRow
    var moves: seq<MoveRow>

    function State(): Db reads this { Db(game, moves) }

    constructor ()
      ensures State() == INITIAL_DB
    {
      game := GameRow(Active, STARTING_FEN, None, None, None);
      moves := [];
    }

    /** One transaction; `false` is the conflict that rolls it back. */
    method AppendMove(row: MoveRow, finish: Option<Finish>) returns (ok: bool)
      modifies this
      ensures ok == Accepts(old(State()), row)
      ensures State() == Appended(old(State()), row, finish)
      ensures !ok ==> State() == old(State())
      ensures ok ==>
                && moves == old(moves) + [row] && game.fen == row.fenAfter
                && (finish.None? ==> game == old(game).(fen := row.fenAfter))
                && (finish.Some? ==> Shows(game, finish.value))
    {
      if PlyTaken(moves, row.ply) { return false; }
      if game.status != Active { return false; }
      moves := moves + [row];
      game := game.(fen := row.fenAfter);
      if finish.Some? {
        game := Finished(game, finish.value);
      }
      return true;
    }

    method FinishGame(finish: Finish) returns (ok: bool)
      modifies this
      ensures ok == (old(game.status) == Active)
      ensures State() == FinishedDb(old(State()), finish)
      ensures !ok ==> State() == old(State())
      ensures ok ==> moves == old(moves) && game.fen == old(game.fen) && Shows(game, finish)
    {
      if game.status != Active { return false; }
      game := Finished(game, finish);
      return true;
    }

    method PositionOccurrences(positionHash: bv64) returns (fens: seq<string>)
      ensures fens == Occurrences(moves, positionHash)
    {
      fens := [];
      var i := |moves|;
      while i > 0
        invariant 0 <= i <= |moves| && fens == Occurrences(moves[i..], positionHash)
      {
        i := i - 1;
        assert moves[i..][1..] == moves[i + 1..] && moves[i..][0] == moves[i];
        if moves[i].positionHash == positionHash {
          fens := [moves[i].fenAfter] + fens;
        }
      }
      assert moves[0..] == moves;
    }
  }

  // ---------------------------------------------------------------------------------------
  //  The actors
  // ---------------------------------------------------------------------------------------

  /**
   Where an actor is, and what it carries from its reads. A mover carries the row's position and
   move count, then the verdict on its move, then, if the game ends, the moves to print. A
   finisher carries its decision, then the moves to print.
   */
  datatype Actor =
    | Idle
    | MoverLoaded(count: nat, fen: string, uci: string)
    | MoverJudged(count: nat, fen: string, uci: string, end: Option<GameEnd>)
    | MoverReady(count: nat, fen: string, uci: string, end: Option<GameEnd>, sans: seq<string>)
    | FinisherLoaded(status: Status, winner: Option<Side>)
    | FinisherReady(status: Status, winner: Option<Side>, sans: seq<string>)
    | Done(succeeded: bool)

  /** `winners` records, for the proof, the actors whose transaction ended the game. */
  datatype World = World(db: Db, actors: map<nat, Actor>, winners: seq<nat>)

  datatype Step =
    | LoadMove(actor: nat, side: Side, uci: string)
    | Judge(actor: nat)
    | ReadMoves(actor: nat)
    | CommitMove(actor: nat, clock: TimesLeft)
    | FlagMover(actor: nat, status: Status, winner: Option<Side>)
    | LoadFinish(actor: nat, status: Status, winner: Option<Side>)
    | ReadMovesToFinish(actor: nat)
    | CommitFinish(actor: nat, times: TimesLeft)

  function ActorAt(w: World, a: nat): Actor { if a in w.actors then w.actors[a] else Idle }

  function SetActor(w: World, a: nat, x: Actor): World { w.(actors := w.actors[a := x]) }

  /** Only a mover ends a game by the position on the board. */
  predicate Decision(s: Status) { !s.Active? && !s.ByPosition? }

  function PgnResult(status: Status, winner: Option<Side>): string {
    if status == Aborted || status == Active then "*"
    else match winner
      case Some(W) => "1-0"
      case Some(B) => "0-1"
      case None => "1/2-1/2"
  }

  function WinnerByPosition(end: GameEnd, mover: Side): Option<Side> { if end == Checkmate then Some(mover) else None }

  function MoveOf(lib: Library, fen: string, uci: string): LegalMove
    requires lib.validate(fen, uci).Some?
  {
    lib.validate(fen, uci).value
  }

  function TimeOf(clock: TimesLeft, side: Side): int { if side == W then clock.white else clock.black }

  function RowOf(lib: Library, t: Tables, count: nat, fen: string, uci: string, clock: TimesLeft): MoveRow
    requires lib.validate(fen, uci).Some?
  {
    var m := MoveOf(lib, fen, uci);
    MoveRow(count + 1, m.san, m.fenAfter, Hash(t, lib, m.fenAfter), Some(TimeOf(clock, SideToMove(fen))))
  }

  function FinishOf(end: GameEnd, mover: Side, sans: seq<string>, clock: TimesLeft): Finish {
    var status, winner := ByPosition(end), WinnerByPosition(end, mover);
    Finish(status, winner, BuildPgn(sans, PgnResult(status, winner)), clock)
  }

  /** An actor that may store its move: judged without an end, or with the moves read for one. */
  predicate MayCommit(lib: Library, x: Actor) {
    ((x.MoverJudged? && x.end.None?) || (x.MoverReady? && x.end.Some?)) && lib.validate(x.fen, x.uci).Some?
  }

  function Committed(lib: Library, t: Tables, w: World, a: nat, x: Actor, clock: TimesLeft): World
    requires MayCommit(lib, x)
  {
    var row := RowOf(lib, t, x.count, x.fen, x.uci, clock);
    var finish := if x.MoverReady? then Some(FinishOf(x.end.value, SideToMove(x.fen), x.sans + [row.san], clock))
        else None;
    var ok := Accepts(w.db, row);
    var winners := if ok && finish.Some? then w.winners + [a] else w.winners;
    World(Appended(w.db, row, finish), w.actors[a := Done(ok)], winners)
  }

  /** One step; a step whose guard fails changes nothing. */
  function Next(lib: Library, t: Tables, w: World, step: Step): World {
    var x := ActorAt(w, step.actor);
    match step
    case LoadMove(a, side, uci) =>
      if (x.Idle? || x.Done?) && w.db.game.status == Active && SideToMove(w.db.game.fen) == side
         && lib.validate(w.db.game.fen, uci).Some?
      then SetActor(w, a, MoverLoaded(|w.db.moves|, w.db.game.fen, uci)) else w
    case Judge(a) =>
      if x.MoverLoaded? && lib.validate(x.fen, x.uci).Some? then
        var m := MoveOf(lib, x.fen, x.uci);
        SetActor(w, a,
            MoverJudged(x.count, x.fen, x.uci, EndStatus(lib, m, Occurrences(w.db.moves, Hash(t, lib, m.fenAfter)))))
      else w
    case ReadMoves(a) =>
      if x.MoverJudged? && x.end.Some?
        then SetActor(w, a, MoverReady(x.count, x.fen, x.uci, x.end, Sans(ListMoves(w.db)))) else w
    case CommitMove(a, clock) =>
      if MayCommit(lib, x) then Committed(lib, t, w, a, x, clock) else w
    case FlagMover(a, status, winner) =>
      if x.MoverLoaded? && Decision(status) then SetActor(w, a, FinisherLoaded(status, winner)) else w
    case LoadFinish(a, status, winner) =>
      if (x.Idle? || x.Done?) && w.db.game.status == Active && Decision(status)
      then SetActor(w, a, FinisherLoaded(status, winner)) else w
    case ReadMovesToFinish(a) =>
      if x.FinisherLoaded? then SetActor(w, a, FinisherReady(x.status, x.winner, Sans(ListMoves(w.db)))) else w
    case CommitFinish(a, times) =>
      if x.FinisherReady? then
        var ok := w.db.game.status == Active;
        World(FinishedDb(w.db, Finish(x.status, x.winner, BuildPgn(x.sans, PgnResult(x.status, x.winner)), times)),
              w.actors[a := Done(ok)], if ok then w.winners + [a] else w.winners)
      else w
  }

  function Run(lib: Library, t: Tables, w: World, steps: seq<Step>): World {
    if steps == [] then w else Next(lib, t, Run(lib, t, w, steps[..|steps| - 1]), steps[|steps| - 1])
  }

  const INITIAL_WORLD := World(INITIAL_DB, map[], [])

  // ---------------------------------------------------------------------------------------
  //  The invariant
  // ---------------------------------------------------------------------------------------

  ghost predicate PliesInOrder(moves: seq<MoveRow>) { forall i :: 0 <= i < |moves| ==> moves[i].ply == i + 1 }

  /** No move of the log was played after, or itself overlooked, an end of the game. */
  ghost predicate NoEndMissed(lib: Library, moves: seq<MoveRow>, upTo: int)
    requires upTo <= |moves|
  {
    forall i :: 0 <= i < upTo ==> EndAt(lib, moves, i) == None
  }

  ghost function EndAt(lib: Library, moves: seq<MoveRow>, i: int): Option<GameEnd>
    requires 0 <= i < |moves|
  {
    MandatedEnd(lib, moves[..i], moves[i].fenAfter)
  }

  ghost predicate LogSound(lib: Library, t: Tables, db: Db) {
    && PliesInOrder(db.moves) && LegalLog(lib, t, db.moves) && db.game.fen == CurrentFen(db.moves)
  }

  function LastMover(moves: seq<MoveRow>): Side
    requires moves != []
  {
    SideToMove(CurrentFen(moves[..|moves| - 1]))
  }

  /** What the row says once the game has ended. */
  ghost predicate EndSound(lib: Library, db: Db) {
    match db.game.status
    case Active => NoEndMissed(lib, db.moves, |db.moves|) && db.game.winner == None && db.game.pgn == None
                   && db.game.timesLeft == None
    case ByPosition(end) =>
      && db.moves != [] && NoEndMissed(lib, db.moves, |db.moves| - 1)
      && EndAt(lib, db.moves, |db.moves| - 1) == Some(end)
      && db.game.winner == WinnerByPosition(end, LastMover(db.moves))
      && db.game.timesLeft.Some?
          && db.moves[|db.moves| - 1].clockAfterMs == Some(TimeOf(db.game.timesLeft.value, LastMover(db.moves)))
      && db.game.pgn == Some(BuildPgn(Sans(db.moves), PgnResult(db.game.status, db.game.winner)))
    case _ =>
      && NoEndMissed(lib, db.moves, |db.moves|) && db.game.timesLeft.Some?
      && exists k :: PrintsPrefix(db, k)
  }

  /** The stored text shows the first `k` moves. */
  ghost predicate PrintsPrefix(db: Db, k: int) {
    0 <= k <= |db.moves|
        && db.game.pgn == Some(BuildPgn(Sans(db.moves[..k]), PgnResult(db.game.status, db.game.winner)))
  }

  /** A mover knows the position after `count` moves, whether or not more were played since. */
  ghost predicate KnowsPosition(lib: Library, db: Db, count: nat, fen: string, uci: string) {
    count <= |db.moves| && fen == CurrentFen(db.moves[..count]) && lib.validate(fen, uci).Some?
  }

  ghost predicate JudgedOn(
    lib: Library, t: Tables, db: Db, count: nat, fen: string, uci: string, end: Option<GameEnd>, k: int) {
    && count <= k <= |db.moves| && lib.validate(fen, uci).Some?
    && end == EndStatus(lib, MoveOf(lib, fen, uci),
        Occurrences(db.moves[..k], Hash(t, lib, MoveOf(lib, fen, uci).fenAfter)))
  }

  ghost predicate ActorSound(lib: Library, t: Tables, db: Db, x: Actor) {
    match x
    case Idle => true
    case Done(_) => true
    case MoverLoaded(count, fen, uci) => KnowsPosition(lib, db, count, fen, uci)
    case MoverJudged(count, fen, uci, end) =>
      KnowsPosition(lib, db, count, fen, uci) && exists k :: JudgedOn(lib, t, db, count, fen, uci, end, k)
    case MoverReady(count, fen, uci, end, sans) =>
      && KnowsPosition(lib, db, count, fen, uci) && (exists k :: JudgedOn(lib, t, db, count, fen, uci, end, k))
      && end.Some? && count <= |sans| && sans <= Sans(db.moves)
    case FinisherLoaded(status, winner) => Decision(status)
    case FinisherReady(status, winner, sans) => Decision(status) && sans <= Sans(db.moves)
  }

  ghost predicate Inv(lib: Library, t: Tables, w: World) {
    && LogSound(lib, t, w.db) && EndSound(lib, w.db)
    && (forall a :: a in w.actors ==> ActorSound(lib, t, w.db, w.actors[a]))
    && |w.winners| == if w.db.game.status == Active then 0 else 1
  }

  // ---------------------------------------------------------------------------------------
  //  Every step keeps it
  // ---------------------------------------------------------------------------------------

  lemma ListIsLog(db: Db)
    requires PliesInOrder(db.moves)
    ensures ListMoves(db) == db.moves
  {
    SortOfSorted(ByPly(), db.moves);
  }

  lemma PlyFreeIffCurrent(moves: seq<MoveRow>, count: nat)
    requires PliesInOrder(moves) && count <= |moves|
    ensures PlyTaken(moves, count + 1) <==> count < |moves|
  {
    if count < |moves| { assert moves[count].ply == count + 1; }
  }

  /** What an actor knows stays true while the log grows behind its back. */
  lemma ActorSurvivesGrowth(lib: Library, t: Tables, db: Db, db': Db, x: Actor)
    requires ActorSound(lib, t, db, x)
    requires |db.moves| <= |db'.moves| && db.moves == db'.moves[..|db.moves|]
    ensures ActorSound(lib, t, db', x)
  {
    assert Sans(db.moves) <= Sans(db'.moves);
    forall k | 0 <= k <= |db.moves| ensures db'.moves[..k] == db.moves[..k] { }
    if x.MoverJudged? || x.MoverReady? {
      var k :| JudgedOn(lib, t, db, x.count, x.fen, x.uci, x.end, k);
      assert JudgedOn(lib, t, db', x.count, x.fen, x.uci, x.end, k);
    }
  }

  lemma JudgedOnWholeLog(lib: Library, t: Tables, db: Db, fen: string, uci: string, end: Option<GameEnd>)
    requires PlaysChess(lib) && LogSound(lib, t, db) && fen == CurrentFen(db.moves)
    requires JudgedOn(lib, t, db, |db.moves|, fen, uci, end, |db.moves|)
    ensures end == MandatedEnd(lib, db.moves, MoveOf(lib, fen, uci).fenAfter)
  {
    assert db.moves[..|db.moves|] == db.moves;
    IndexedTestIsTheRule(lib, t, db.moves, uci);
  }

  /** On success the mover's reads were of the whole log, so its verdict is the rule's. */
  lemma VerdictIsCurrent(lib: Library, t: Tables, db: Db, x: Actor)
    requires PlaysChess(lib) && LogSound(lib, t, db)
    requires (x.MoverJudged? || x.MoverReady?) && ActorSound(lib, t, db, x)
    requires !PlyTaken(db.moves, x.count + 1)
    ensures x.count == |db.moves| && x.fen == CurrentFen(db.moves)
    ensures x.end == MandatedEnd(lib, db.moves, MoveOf(lib, x.fen, x.uci).fenAfter)
    ensures x.MoverReady? ==> x.sans == Sans(db.moves)
  {
    PlyFreeIffCurrent(db.moves, x.count);
    assert db.moves[..|db.moves|] == db.moves;
    var k :| JudgedOn(lib, t, db, x.count, x.fen, x.uci, x.end, k);
    assert k == |db.moves|;
    JudgedOnWholeLog(lib, t, db, x.fen, x.uci, x.end);
  }

  lemma LogGrows(lib: Library, t: Tables, moves: seq<MoveRow>, uci: string, clock: TimesLeft)
    requires PliesInOrder(moves) && LegalLog(lib, t, moves) && lib.validate(CurrentFen(moves), uci).Some?
    ensures var row := RowOf(lib, t, |moves|, CurrentFen(moves), uci, clock);
            PliesInOrder(moves + [row]) && LegalLog(lib, t, moves + [row]) && CurrentFen(moves + [row]) == row.fenAfter
  {
    var row := RowOf(lib, t, |moves|, CurrentFen(moves), uci, clock);
    var longer := moves + [row];
    forall i | 0 <= i < |longer| ensures LegalAt(lib, t, longer, i) {
      assert Positions(longer)[i] == Positions(moves)[i];
      if i < |moves| {
        assert LegalAt(lib, t, moves, i);
      } else {
        assert Positions(moves)[i] == CurrentFen(moves);
        assert IsMove(lib, CurrentFen(moves), uci, row.san, row.fenAfter);
      }
    }
  }

  lemma EndsGrow(lib: Library, moves: seq<MoveRow>, row: MoveRow, upTo: int)
    requires 0 <= upTo <= |moves| && NoEndMissed(lib, moves, upTo)
    ensures NoEndMissed(lib, moves + [row], upTo)
    ensures EndAt(lib, moves + [row], |moves|) == MandatedEnd(lib, moves, row.fenAfter)
  {
    forall i | 0 <= i < upTo ensures EndAt(lib, moves + [row], i) == None {
      assert (moves + [row])[..i] == moves[..i];
      assert EndAt(lib, moves, i) == None;
    }
    assert (moves + [row])[..|moves|] == moves;
  }

  lemma SansSnoc(moves: seq<MoveRow>, row: MoveRow)
    ensures Sans(moves + [row]) == Sans(moves) + [row.san]
  {
  }

  lemma AppendKeepsLog(
    lib: Library, t: Tables, db: Db, uci: string, clock: TimesLeft, row: MoveRow, finish: Option<Finish>)
    requires PlaysChess(lib) && LogSound(lib, t, db) && lib.validate(CurrentFen(db.moves), uci).Some?
    requires row == RowOf(lib, t, |db.moves|, CurrentFen(db.moves), uci, clock) && Accepts(db, row)
    ensures LogSound(lib, t, Appended(db, row, finish))
  {
    LogGrows(lib, t, db.moves, uci, clock);
  }

  lemma AppendKeepsEnd(
    lib: Library, db: Db, row: MoveRow, end: Option<GameEnd>, finish: Option<Finish>, clock: TimesLeft)
    requires EndSound(lib, db) && Accepts(db, row) && end == MandatedEnd(lib, db.moves, row.fenAfter)
    requires row.clockAfterMs == Some(TimeOf(clock, SideToMove(CurrentFen(db.moves))))
    requires finish == if end.None? then None
        else Some(FinishOf(end.value, SideToMove(CurrentFen(db.moves)), Sans(db.moves) + [row.san], clock))
    ensures EndSound(lib, Appended(db, row, finish))
  {
    EndsGrow(lib, db.moves, row, |db.moves|);
    SansSnoc(db.moves, row);
    assert (db.moves + [row])[..|db.moves|] == db.moves;
  }

  lemma CommitKeepsDb(lib: Library, t: Tables, db: Db, x: Actor, clock: TimesLeft)
    requires PlaysChess(lib) && LogSound(lib, t, db) && EndSound(lib, db) && ActorSound(lib, t, db, x)
    requires MayCommit(lib, x)
    requires Accepts(db, RowOf(lib, t, x.count, x.fen, x.uci, clock))
    ensures var row := RowOf(lib, t, x.count, x.fen, x.uci, clock);
            var finish := if x.MoverReady?
                then Some(FinishOf(x.end.value, SideToMove(x.fen), x.sans + [row.san], clock)) else None;
            LogSound(lib, t, Appended(db, row, finish)) && EndSound(lib, Appended(db, row, finish))
  {
    var row := RowOf(lib, t, x.count, x.fen, x.uci, clock);
    var finish := if x.MoverReady?
        then Some(FinishOf(x.end.value, SideToMove(x.fen), x.sans + [row.san], clock)) else None;
    VerdictIsCurrent(lib, t, db, x);
    AppendKeepsLog(lib, t, db, x.uci, clock, row, finish);
    AppendKeepsEnd(lib, db, row, x.end, finish, clock);
  }

  lemma OthersSurvive(lib: Library, t: Tables, w: World, db': Db, a: nat, x: Actor, actors: map<nat, Actor>)
    requires actors == w.actors[a := x]
    requires forall b :: b in w.actors ==> ActorSound(lib, t, w.db, w.actors[b])
    requires |w.db.moves| <= |db'.moves| && w.db.moves == db'.moves[..|w.db.moves|]
    requires x.Done?
    ensures forall b :: b in actors ==> ActorSound(lib, t, db', actors[b])
  {
    forall b | b in actors ensures ActorSound(lib, t, db', actors[b]) {
      if b != a { ActorSurvivesGrowth(lib, t, w.db, db', w.actors[b]); }
    }
  }

  lemma CommittedKeepsInv(lib: Library, t: Tables, w: World, a: nat, x: Actor, clock: TimesLeft)
    requires PlaysChess(lib) && Inv(lib, t, w) && ActorSound(lib, t, w.db, x)
    requires MayCommit(lib, x)
    ensures Inv(lib, t, Committed(lib, t, w, a, x, clock))
  {
    var row := RowOf(lib, t, x.count, x.fen, x.uci, clock);
    var w' := Committed(lib, t, w, a, x, clock);
    if Accepts(w.db, row) {
      CommitKeepsDb(lib, t, w.db, x, clock);
      assert w'.db.moves == w.db.moves + [row];
      OthersSurvive(lib, t, w, w'.db, a, Done(true), w'.actors);
    } else {
      OthersSurvive(lib, t, w, w.db, a, Done(false), w'.actors);
    }
  }

  lemma CommitMoveIs(lib: Library, t: Tables, w: World, a: nat, clock: TimesLeft)
    ensures var x := ActorAt(w, a);
            Next(lib, t, w, CommitMove(a, clock)) == if MayCommit(lib, x) then Committed(lib, t, w, a, x, clock) else w
  {
  }

  lemma CommitMoveKeepsInv(lib: Library, t: Tables, w: World, a: nat, clock: TimesLeft)
    requires PlaysChess(lib) && Inv(lib, t, w)
    ensures Inv(lib, t, Next(lib, t, w, CommitMove(a, clock)))
  {
    CommitMoveIs(lib, t, w, a, clock);
    ActorAtSound(lib, t, w, a);
    if MayCommit(lib, ActorAt(w, a)) { CommittedKeepsInv(lib, t, w, a, ActorAt(w, a), clock); }
  }

  lemma ActorAtSound(lib: Library, t: Tables, w: World, a: nat)
    requires Inv(lib, t, w)
    ensures ActorSound(lib, t, w.db, ActorAt(w, a))
  {
  }

  lemma FinishKeepsDb(lib: Library, t: Tables, db: Db, x: Actor, times: TimesLeft)
    requires LogSound(lib, t, db) && EndSound(lib, db) && db.game.status == Active
    requires x.FinisherReady? && ActorSound(lib, t, db, x)
    ensures var db' := FinishedDb(db,
            Finish(x.status, x.winner, BuildPgn(x.sans, PgnResult(x.status, x.winner)), times));
            LogSound(lib, t, db') && EndSound(lib, db')
  {
    var db' := FinishedDb(db, Finish(x.status, x.winner, BuildPgn(x.sans, PgnResult(x.status, x.winner)), times));
    var k := |x.sans|;
    assert x.sans == Sans(db.moves[..k]);
    assert PrintsPrefix(db', k);
  }

  lemma CommitFinishKeepsInv(lib: Library, t: Tables, w: World, a: nat, times: TimesLeft)
    requires Inv(lib, t, w)
    ensures Inv(lib, t, Next(lib, t, w, CommitFinish(a, times)))
  {
    var x := ActorAt(w, a);
    var w' := Next(lib, t, w, CommitFinish(a, times));
    if x.FinisherReady? {
      if w.db.game.status == Active { FinishKeepsDb(lib, t, w.db, x, times); }
      OthersSurvive(lib, t, w, w'.db, a, w'.actors[a], w'.actors);
    }
  }

  lemma ActorStepKeepsInv(lib: Library, t: Tables, w: World, a: nat, x: Actor)
    requires Inv(lib, t, w) && ActorSound(lib, t, w.db, x)
    ensures Inv(lib, t, SetActor(w, a, x))
  {
  }

  lemma JudgeIsSound(lib: Library, t: Tables, db: Db, x: Actor)
    requires LogSound(lib, t, db) && x.MoverLoaded? && ActorSound(lib, t, db, x)
    ensures lib.validate(x.fen, x.uci).Some?
    ensures var m := MoveOf(lib, x.fen, x.uci);
            ActorSound(lib, t, db,
                MoverJudged(x.count, x.fen, x.uci, EndStatus(lib, m, Occurrences(db.moves, Hash(t, lib, m.fenAfter)))))
  {
    var m := MoveOf(lib, x.fen, x.uci);
    assert db.moves[..|db.moves|] == db.moves;
    assert JudgedOn(lib, t, db, x.count, x.fen, x.uci,
        EndStatus(lib, m, Occurrences(db.moves, Hash(t, lib, m.fenAfter))), |db.moves|);
  }

  lemma LoadIsSound(lib: Library, t: Tables, db: Db, uci: string)
    requires LogSound(lib, t, db) && lib.validate(db.game.fen, uci).Some?
    ensures ActorSound(lib, t, db, MoverLoaded(|db.moves|, db.game.fen, uci))
  {
    assert db.moves[..|db.moves|] == db.moves;
  }

  /** What each reading step leaves its actor with is true of the log it read. */
  lemma ReadIsSound(lib: Library, t: Tables, w: World, step: Step)
    requires Inv(lib, t, w) && !step.CommitMove? && !step.CommitFinish?
    ensures var w' := Next(lib, t, w, step);
            w' == w || (w' == SetActor(w, step.actor, ActorAt(w', step.actor))
                && ActorSound(lib, t, w.db, ActorAt(w', step.actor)))
  {
    ListIsLog(w.db);
    var x := ActorAt(w, step.actor);
    match step
    case LoadMove(a, side, uci) =>
      if lib.validate(w.db.game.fen, uci).Some? { LoadIsSound(lib, t, w.db, uci); }
    case Judge(a) =>
      if x.MoverLoaded? { JudgeIsSound(lib, t, w.db, x); }
    case ReadMoves(a) =>
    case FlagMover(a, status, winner) =>
    case LoadFinish(a, status, winner) =>
    case ReadMovesToFinish(a) =>
  }

  /** The reading steps change only the actor that reads. */
  lemma ReadKeepsInv(lib: Library, t: Tables, w: World, step: Step)
    requires Inv(lib, t, w) && !step.CommitMove? && !step.CommitFinish?
    ensures Inv(lib, t, Next(lib, t, w, step))
  {
    ReadIsSound(lib, t, w, step);
    var w' := Next(lib, t, w, step);
    if w' != w { ActorStepKeepsInv(lib, t, w, step.actor, ActorAt(w', step.actor)); }
  }

  lemma StepKeepsInv(lib: Library, t: Tables, w: World, step: Step)
    requires PlaysChess(lib) && Inv(lib, t, w)
    ensures Inv(lib, t, Next(lib, t, w, step))
  {
    match step
    case CommitMove(a, clock) => CommitMoveKeepsInv(lib, t, w, a, clock);
    case CommitFinish(a, times) => CommitFinishKeepsInv(lib, t, w, a, times);
    case _ => ReadKeepsInv(lib, t, w, step);
  }

  /**
   After any run of any number of movers and finishers: the stored half-moves are exactly 1..n,
   each a legal successor of the one before, and the row shows the last position; the game was
   ended by at most one actor, and exactly when the row says it ended; no end on the board was
   overlooked; a game ended by a move names the right end and winner and stores its full text.
   */
  lemma {:induction false} EveryRunIsSound(lib: Library, t: Tables, steps: seq<Step>)
    requires PlaysChess(lib)
    ensures Inv(lib, t, Run(lib, t, INITIAL_WORLD, steps))
  {
    if steps != [] {
      EveryRunIsSound(lib, t, steps[..|steps| - 1]);
      StepKeepsInv(lib, t, Run(lib, t, INITIAL_WORLD, steps[..|steps| - 1]), steps[|steps| - 1]);
    }
  }

  // ---------------------------------------------------------------------------------------
  //  An ended game never changes
  // ---------------------------------------------------------------------------------------

  lemma EndedStepFrozen(lib: Library, t: Tables, w: World, step: Step)
    requires w.db.game.status != Active
    ensures Next(lib, t, w, step).db == w.db && Next(lib, t, w, step).winners == w.winners
  {
  }

  /** The status leaves ACTIVE at most once: whatever runs afterwards changes neither row nor log. */
  lemma {:induction false} EndedForGood(lib: Library, t: Tables, w: World, steps: seq<Step>)
    requires w.db.game.status != Active
    ensures Run(lib, t, w, steps).db == w.db && Run(lib, t, w, steps).winners == w.winners
  {
    if steps != [] {
      EndedForGood(lib, t, w, steps[..|steps| - 1]);
      EndedStepFrozen(lib, t, Run(lib, t, w, steps[..|steps| - 1]), steps[|steps| - 1]);
    }
  }

  // ---------------------------------------------------------------------------------------
  //  The text of a game ended by a decision
  // ---------------------------------------------------------------------------------------

  /**
   A resignation, timeout or agreement prints the moves its actor read. That is the whole game
   exactly when no move was stored between that read and the decision.
   */
  lemma DecisionTextFullIffReadCurrent(lib: Library, t: Tables, w: World, a: nat, times: TimesLeft)
    requires Inv(lib, t, w) && w.db.game.status == Active && ActorAt(w, a).FinisherReady?
    ensures var x, db := ActorAt(w, a), Next(lib, t, w, CommitFinish(a, times)).db;
            && db.game.status == x.status && db.moves == w.db.moves
            && (db.game.pgn == Some(BuildPgn(Sans(db.moves), PgnResult(x.status, x.winner))) <==>
                |x.sans| == |db.moves|)
  {
    var x := ActorAt(w, a);
    if |x.sans| < |w.db.moves| {
      ShorterGameDiffers(x.sans, Sans(w.db.moves), PgnResult(x.status, x.winner));
    } else {
      assert x.sans == Sans(w.db.moves);
    }
  }

  const NO_TIME := TimesLeft(0, 0)

  /** A finisher reads an empty log while a mover is under way. */
  lemma LoadMoveAtStart(lib: Library, t: Tables, side: Side, uci: string)
    requires lib.validate(STARTING_FEN, uci).Some? && side == SideToMove(STARTING_FEN)
    ensures Next(lib, t, INITIAL_WORLD, LoadMove(1, side, uci)) ==
            SetActor(INITIAL_WORLD, 1, MoverLoaded(0, STARTING_FEN, uci))
  {
  }

  lemma ReadAtStart(lib: Library, t: Tables, w: World)
    requires w.db == INITIAL_DB && ActorAt(w, 2) == Idle
    ensures var w' := Next(lib, t, Next(lib, t, w, LoadFinish(2, Resignation, Some(W))), ReadMovesToFinish(2));
            w'.db == INITIAL_DB && ActorAt(w', 1) == ActorAt(w, 1)
                && ActorAt(w', 2) == FinisherReady(Resignation, Some(W), [])
  {
    assert ListMoves(INITIAL_DB) == [];
    assert Sans([]) == [];
  }

  lemma StaleReadSteps(lib: Library, t: Tables, side: Side, uci: string)
    requires lib.validate(STARTING_FEN, uci).Some? && side == SideToMove(STARTING_FEN)
    ensures var w := Next(lib, t, Next(lib, t, Next(lib, t, INITIAL_WORLD, LoadMove(1, side, uci)),
                                       LoadFinish(2, Resignation, Some(W))), ReadMovesToFinish(2));
            && w.db == INITIAL_DB && ActorAt(w, 1) == MoverLoaded(0, STARTING_FEN, uci)
            && ActorAt(w, 2) == FinisherReady(Resignation, Some(W), [])
  {
    LoadMoveAtStart(lib, t, side, uci);
    ReadAtStart(lib, t, SetActor(INITIAL_WORLD, 1, MoverLoaded(0, STARTING_FEN, uci)));
  }

  lemma StaleRead(lib: Library, t: Tables, uci: string) returns (steps: seq<Step>)
    requires lib.validate(STARTING_FEN, uci).Some?
    ensures var w := Run(lib, t, INITIAL_WORLD, steps);
            && w.db == INITIAL_DB && ActorAt(w, 1) == MoverLoaded(0, STARTING_FEN, uci)
            && ActorAt(w, 2) == FinisherReady(Resignation, Some(W), [])
  {
    var side := SideToMove(STARTING_FEN);
    StaleReadSteps(lib, t, side, uci);
    steps := RunThree(lib, t, INITIAL_WORLD, LoadMove(1, side, uci), LoadFinish(2, Resignation, Some(W)),
        ReadMovesToFinish(2));
  }

  lemma RunThree(lib: Library, t: Tables, w: World, s1: Step, s2: Step, s3: Step) returns (steps: seq<Step>)
    ensures Run(lib, t, w, steps) == Next(lib, t, Next(lib, t, Next(lib, t, w, s1), s2), s3)
  {
    RunSnoc(lib, t, w, [], s1);
    RunSnoc(lib, t, w, [] + [s1], s2);
    RunSnoc(lib, t, w, [] + [s1] + [s2], s3);
    steps := [] + [s1] + [s2] + [s3];
  }

  lemma FirstMoveGoesOn(lib: Library, t: Tables, uci: string)
    requires lib.validate(STARTING_FEN, uci).Some?
    requires lib.ending(MoveOf(lib, STARTING_FEN, uci).fenAfter).None?
    ensures var m := MoveOf(lib, STARTING_FEN, uci);
            EndStatus(lib, m, Occurrences([], Hash(t, lib, m.fenAfter))) == None
  {
    var m := MoveOf(lib, STARTING_FEN, uci);
    assert Occurrences([], Hash(t, lib, m.fenAfter)) == [];
    assert CountKey([], PositionKey(m.fenAfter)) == 0;
  }

  lemma StaleJudge(lib: Library, t: Tables, uci: string, w: World)
    requires lib.validate(STARTING_FEN, uci).Some?
    requires lib.ending(MoveOf(lib, STARTING_FEN, uci).fenAfter).None?
    requires w.db == INITIAL_DB && ActorAt(w, 1) == MoverLoaded(0, STARTING_FEN, uci)
    ensures Next(lib, t, w, Judge(1)) == SetActor(w, 1, MoverJudged(0, STARTING_FEN, uci, None))
  {
    FirstMoveGoesOn(lib, t, uci);
  }

  lemma FirstMoveCommits(lib: Library, t: Tables, fen: string, uci: string, w: World)
    requires lib.validate(fen, uci).Some?
    requires w.db.game.status == Active && w.db.moves == [] && ActorAt(w, 1) == MoverJudged(0, fen, uci, None)
    ensures var w' := Next(lib, t, w, CommitMove(1, NO_TIME));
            w'.db.game.status == Active && |w'.db.moves| == 1 && ActorAt(w', 2) == ActorAt(w, 2)
  {
    FirstRowAccepted(w.db, RowOf(lib, t, 0, fen, uci, NO_TIME));
    assert Next(lib, t, w, CommitMove(1, NO_TIME)) == Committed(lib, t, w, 1, ActorAt(w, 1), NO_TIME);
  }

  lemma FirstRowAccepted(db: Db, row: MoveRow)
    requires db.game.status == Active && db.moves == []
    ensures Accepts(db, row)
    ensures Appended(db, row, None).game.status == Active && Appended(db, row, None).moves == [row]
  {
  }

  /** The mover goes on and stores its move. */
  lemma StaleMove(lib: Library, t: Tables, uci: string, w: World)
    requires lib.validate(STARTING_FEN, uci).Some?
    requires lib.ending(MoveOf(lib, STARTING_FEN, uci).fenAfter).None?
    requires w.db == INITIAL_DB && ActorAt(w, 1) == MoverLoaded(0, STARTING_FEN, uci)
    ensures var w' := Next(lib, t, Next(lib, t, w, Judge(1)), CommitMove(1, NO_TIME));
            w'.db.game.status == Active && |w'.db.moves| == 1 && ActorAt(w', 2) == ActorAt(w, 2)
  {
    StaleJudge(lib, t, uci, w);
    FirstMoveCommits(lib, t, STARTING_FEN, uci, SetActor(w, 1, MoverJudged(0, STARTING_FEN, uci, None)));
  }

  /** The finisher then prints the empty game it read. */
  lemma StaleFinish(lib: Library, t: Tables, w: World)
    requires w.db.game.status == Active && |w.db.moves| == 1
    requires ActorAt(w, 2) == FinisherReady(Resignation, Some(W), [])
    ensures var db := Next(lib, t, w, CommitFinish(2, NO_TIME)).db;
            && db.game.status == Resignation && |db.moves| == 1
            && db.game.pgn == Some(BuildPgn([], "1-0"))
            && db.game.pgn != Some(BuildPgn(Sans(db.moves), "1-0"))
  {
    ShorterGameDiffers([], Sans(w.db.moves), "1-0");
  }

  lemma StaleFromCommit(lib: Library, t: Tables, w: World, steps: seq<Step>)
    requires w == Run(lib, t, INITIAL_WORLD, steps)
    requires w.db.game.status == Active && |w.db.moves| == 1
    requires ActorAt(w, 2) == FinisherReady(Resignation, Some(W), [])
    ensures LosesTheMove(Run(lib, t, INITIAL_WORLD, steps + [CommitFinish(2, NO_TIME)]).db)
  {
    RunSnoc(lib, t, INITIAL_WORLD, steps, CommitFinish(2, NO_TIME));
    StaleFinish(lib, t, w);
  }

  lemma StaleFromRead(lib: Library, t: Tables, uci: string, w: World, steps: seq<Step>)
    requires w == Run(lib, t, INITIAL_WORLD, steps)
    requires lib.validate(STARTING_FEN, uci).Some?
    requires lib.ending(MoveOf(lib, STARTING_FEN, uci).fenAfter).None?
    requires w.db == INITIAL_DB && ActorAt(w, 1) == MoverLoaded(0, STARTING_FEN, uci)
    requires ActorAt(w, 2) == FinisherReady(Resignation, Some(W), [])
    ensures LosesTheMove(Run(lib, t, INITIAL_WORLD, steps + [Judge(1)] + [CommitMove(1, NO_TIME)]
            + [CommitFinish(2, NO_TIME)]).db)
  {
    RunSnoc(lib, t, INITIAL_WORLD, steps, Judge(1));
    RunSnoc(lib, t, INITIAL_WORLD, steps + [Judge(1)], CommitMove(1, NO_TIME));
    StaleMove(lib, t, uci, w);
    StaleFromCommit(lib, t, Next(lib, t, Next(lib, t, w, Judge(1)), CommitMove(1, NO_TIME)),
                    steps + [Judge(1)] + [CommitMove(1, NO_TIME)]);
  }

  /** And such a move can slip in: with any legal first move there is a run that leaves it out. */
  lemma StaleTextHappens(lib: Library, t: Tables, uci: string)
    requires lib.validate(STARTING_FEN, uci).Some?
    requires lib.ending(MoveOf(lib, STARTING_FEN, uci).fenAfter).None?
    ensures exists steps :: LosesTheMove(Run(lib, t, INITIAL_WORLD, steps).db)
  {
    var steps := StaleRead(lib, t, uci);
    StaleFromRead(lib, t, uci, Run(lib, t, INITIAL_WORLD, steps), steps);
  }

  /** A resigned game of one move whose stored text shows none. */
  ghost predicate LosesTheMove(db: Db) {
    && db.game.status == Resignation && |db.moves| == 1
    && db.game.pgn == Some(BuildPgn([], "1-0")) && db.game.pgn != Some(BuildPgn(Sans(db.moves), "1-0"))
  }

  lemma RunSnoc(lib: Library, t: Tables, w: World, steps: seq<Step>, last: Step)
    ensures Run(lib, t, w, steps + [last]) == Next(lib, t, Run(lib, t, w, steps), last)
  {
    assert (steps + [last])[..|steps|] == steps;
  }
}
