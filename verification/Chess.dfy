/**
 Positions as FEN strings, the chess library behind them, and what every legal move does to the
 placement of the pieces.

 Move generation is a library and stays abstract; only the effect of a move on the board is
 spelled out, as far as the repetition rule depends on it.
 */
module Chess {
  import opened Text
  import opened Wrappers

  datatype Side = W | B

  datatype Kind = Pawn | Knight | Bishop | Rook | Queen | King

  datatype Piece = Piece(kind: Kind, colour: Side)

  const EMPTY_BOARD: seq<Option<Piece>> := seq(64, _ => None)

  /** 64 squares, rank 8 first, files a to h within a rank. */
  type Board = b: seq<Option<Piece>> | |b| == 64 witness EMPTY_BOARD

  datatype GameEnd = Checkmate | Stalemate | ThreefoldRepetition | FiftyMoveRule | InsufficientMaterial

  datatype LegalMove = LegalMove(san: string, fenAfter: string, irreversible: bool)

  /** The library: reading a placement field, validating a move, and the ends a position shows by itself. */
  datatype Library = Library(
    board: string -> Board,
    validate: (string, string) -> Option<LegalMove>,
    ending: string -> Option<GameEnd>)

  const STARTING_FEN := "rnbqkbnr/pppppppp/8/8/8/8/PPPPPPPP/RNBQKBNR w KQkq - 0 1"

  // ---------------------------------------------------------------------------------------
  //  FEN fields
  // ---------------------------------------------------------------------------------------

  function Fields(fen: string): seq<string> { Split(fen, ' ') }

  /** Field `i`, or the given default where the source's index is undefined. */
  function Field(fen: string, i: nat, default: string): string {
    if i < |Fields(fen)| then Fields(fen)[i] else default
  }

  function FirstFour(fields: seq<string>): seq<string> { if |fields| <= 4 then fields else fields[..4] }

  /** Placement, side to move, castling rights and en passant square: the position of FIDE article 9.2. */
  function PositionKey(fen: string): string { Join(FirstFour(Fields(fen)), " ") }

  function SideToMove(fen: string): Side { if Field(fen, 1, "") == "b" then B else W }

  function Placement(lib: Library, fen: string): Board { lib.board(Field(fen, 0, "")) }

  /** Positions with the same key agree on each of the four fields. */
  lemma KeyDeterminesFields(f: string, g: string)
    requires PositionKey(f) == PositionKey(g)
    ensures FirstFour(Fields(f)) == FirstFour(Fields(g))
    ensures forall i: nat, default: string :: i < 4 ==> Field(f, i, default) == Field(g, i, default)
  {
    SplitPartsFree(f, ' ');
    SplitPartsFree(g, ' ');
    SplitOfJoin(FirstFour(Fields(f)), ' ');
    SplitOfJoin(FirstFour(Fields(g)), ' ');
    forall i: nat, default: string | i < 4 ensures Field(f, i, default) == Field(g, i, default) {
      FieldOfFirstFour(f, i, default);
      FieldOfFirstFour(g, i, default);
    }
  }

  /** And positions that agree on them have the same key, whatever the move counters after them. */
  lemma FieldsDetermineKey(f: string, g: string)
    requires |Fields(f)| >= 4 && |Fields(g)| >= 4
    requires forall i :: 0 <= i < 4 ==> Fields(f)[i] == Fields(g)[i]
    ensures PositionKey(f) == PositionKey(g)
  {
    assert FirstFour(Fields(f)) == FirstFour(Fields(g));
  }

  lemma FieldOfFirstFour(f: string, i: nat, default: string)
    requires i < 4
    ensures Field(f, i, default) == if i < |FirstFour(Fields(f))| then FirstFour(Fields(f))[i] else default
  {
  }

  // ---------------------------------------------------------------------------------------
  //  What a move does to the board
  // ---------------------------------------------------------------------------------------

  function Rank(square: int): int { square / 8 }

  datatype Shade = Light | Dark

  function ShadeOf(square: int): Shade { if (square / 8 + square % 8) % 2 == 0 then Light else Dark }

  /** Bishops move diagonally. */
  predicate KeepsShade(mover: Piece, from: int, to: int) { mover.kind == Bishop ==> ShadeOf(from) == ShadeOf(to) }

  /** How far a pawn still has to go. */
  function RanksToGo(colour: Side, square: int): int { if colour == W then Rank(square) else 7 - Rank(square) }

  predicate OnBoard(square: int) { 0 <= square < 64 }

  /**
   The kinds of legal move. `victim` is the square of the captured piece, which differs from the
   target only when a pawn is taken in passing; `placed` is what stands on the target afterwards,
   the mover itself or the piece a pawn promotes to.
   */
  datatype Effect =
    | Quiet(from: int, to: int)
    | Castling(kingFrom: int, kingTo: int, rookFrom: int, rookTo: int)
    | Capture(from: int, to: int, victim: int, placed: Piece)
    | Advance(from: int, to: int, placed: Piece)

  predicate Irreversible(e: Effect) { e.Capture? || e.Advance? }

  /** A pawn moves on by at least a rank and stays a pawn or promotes; other pieces stay what they are. */
  predicate Lands(mover: Piece, from: int, to: int, placed: Piece) {
    && placed.colour == mover.colour && KeepsShade(mover, from, to)
    && (if mover.kind == Pawn
        then RanksToGo(mover.colour, to) < RanksToGo(mover.colour, from) && placed.kind != King
        else placed == mover)
  }

  predicate Possible(b: Board, e: Effect) {
    match e
    case Quiet(from, to) =>
      && OnBoard(from) && OnBoard(to) && from != to
      && b[from].Some? && b[from].value.kind != Pawn && b[to].None? && KeepsShade(b[from].value, from, to)
    case Castling(kf, kt, rf, rt) =>
      && OnBoard(kf) && OnBoard(kt) && OnBoard(rf) && OnBoard(rt)
      && kf != rf && kt != rt && (kt == rf || b[kt].None? || kt == kf) && (rt == kf || b[rt].None? || rt == rf)
      && b[kf].Some? && b[kf].value.kind == King && b[rf].Some? && b[rf].value.kind == Rook
    case Capture(from, to, victim, placed) =>
      && OnBoard(from) && OnBoard(to) && OnBoard(victim) && from != to && from != victim
      && b[from].Some? && b[victim].Some? && (victim == to || b[to].None?)
      && Lands(b[from].value, from, to, placed)
    case Advance(from, to, placed) =>
      && OnBoard(from) && OnBoard(to) && from != to
      && b[from].Some? && b[from].value.kind == Pawn && b[to].None?
      && Lands(b[from].value, from, to, placed)
  }

  function After(b: Board, e: Effect): Board
    requires Possible(b, e)
  {
    match e
    case Quiet(from, to) => b[from := None][to := b[from]]
    case Castling(kf, kt, rf, rt) => b[kf := None][rf := None][kt := b[kf]][rt := b[rf]]
    case Capture(from, to, victim, placed) => b[from := None][victim := None][to := Some(placed)]
    case Advance(from, to, placed) => b[from := None][to := Some(placed)]
  }

  /** The library plays chess: each legal move has one of the effects above, and says whether it can be undone. */
  ghost predicate PlaysChess(lib: Library) {
    forall fen, uci :: lib.validate(fen, uci).Some? ==>
      exists e :: Possible(Placement(lib, fen), e) && HasEffect(lib, fen, lib.validate(fen, uci).value, e)
  }

  ghost predicate HasEffect(lib: Library, fen: string, m: LegalMove, e: Effect)
    requires Possible(Placement(lib, fen), e)
  {
    Placement(lib, m.fenAfter) == After(Placement(lib, fen), e) && m.irreversible == Irreversible(e)
  }

  // ---------------------------------------------------------------------------------------
  //  The potential
  // ---------------------------------------------------------------------------------------

  /** Each piece weighs one; a pawn weighs more, the more ranks it still has to go. */
  function Weight(p: Option<Piece>, square: int): int {
    match p
    case None => 0
    case Some(piece) => if piece.kind == Pawn then 2 + RanksToGo(piece.colour, square) else 1
  }

  function PotentialUpTo(b: Board, k: nat): int
    requires k <= 64
  {
    if k == 0 then 0 else PotentialUpTo(b, k - 1) + Weight(b[k - 1], k - 1)
  }

  function Potential(b: Board): int { PotentialUpTo(b, 64) }

  lemma {:induction false} PotentialUpdate(b: Board, square: int, p: Option<Piece>, k: nat)
    requires OnBoard(square) && k <= 64
    ensures PotentialUpTo(b[square := p], k) ==
            PotentialUpTo(b, k) + if square < k then Weight(p, square) - Weight(b[square], square) else 0
  {
    if k > 0 {
      PotentialUpdate(b, square, p, k - 1);
    }
  }

  lemma WeightBounds(p: Piece, square: int)
    requires OnBoard(square)
    ensures Weight(Some(p), square) >= 1
    ensures p.kind == Pawn ==> Weight(Some(p), square) >= 2
  {
  }

  /** Captures and pawn moves strictly lower the potential; every other move leaves it alone. */
  lemma EffectOnPotential(b: Board, e: Effect)
    requires Possible(b, e)
    ensures Irreversible(e) ==> Potential(After(b, e)) < Potential(b)
    ensures !Irreversible(e) ==> Potential(After(b, e)) == Potential(b)
  {
    match e
    case Quiet(from, to) =>
      PotentialUpdate(b, from, None, 64);
      PotentialUpdate(b[from := None], to, b[from], 64);
    case Castling(kf, kt, rf, rt) =>
      var b1 := b[kf := None];
      var b2 := b1[rf := None];
      var b3 := b2[kt := b[kf]];
      PotentialUpdate(b, kf, None, 64);
      PotentialUpdate(b1, rf, None, 64);
      PotentialUpdate(b2, kt, b[kf], 64);
      PotentialUpdate(b3, rt, b[rf], 64);
    case Capture(from, to, victim, placed) =>
      var b1 := b[from := None];
      PotentialUpdate(b, from, None, 64);
      PotentialUpdate(b1, victim, None, 64);
      PotentialUpdate(b1[victim := None], to, Some(placed), 64);
      WeightBounds(b[victim].value, victim);
      WeightBounds(b[from].value, from);
      WeightBounds(placed, to);
    case Advance(from, to, placed) =>
      PotentialUpdate(b, from, None, 64);
      PotentialUpdate(b[from := None], to, Some(placed), 64);
      WeightBounds(b[from].value, from);
  }

  lemma MoveOnPotential(lib: Library, fen: string, uci: string)
    requires PlaysChess(lib) && lib.validate(fen, uci).Some?
    ensures var m := lib.validate(fen, uci).value;
            && (m.irreversible ==> Potential(Placement(lib, m.fenAfter)) < Potential(Placement(lib, fen)))
            && (!m.irreversible ==> Potential(Placement(lib, m.fenAfter)) == Potential(Placement(lib, fen)))
  {
    var m := lib.validate(fen, uci).value;
    var e :| Possible(Placement(lib, fen), e) && HasEffect(lib, fen, m, e);
    EffectOnPotential(Placement(lib, fen), e);
  }
}
