/**
 Material: dead positions (FIDE Laws, article 5.2.2), mating material when a flag falls (article
 6.9), and the ends of the game that a position shows.
 */
module Material {
  import opened Wrappers
  import opened Text
  import opened Chess
  import opened Zobrist
  import opened Repetition

  // ---------------------------------------------------------------------------------------
  //  Counting
  // ---------------------------------------------------------------------------------------

  datatype SidePieces = SidePieces(p: nat, n: nat, b: nat, r: nat, q: nat, bishopSquares: seq<Shade>)

  const NO_PIECES := SidePieces(0, 0, 0, 0, 0, [])

  function WithPiece(s: SidePieces, kind: Kind, square: int): SidePieces {
    match kind
    case Pawn => s.(p := s.p + 1)
    case Knight => s.(n := s.n + 1)
    case Bishop => s.(b := s.b + 1, bishopSquares := s.bishopSquares + [ShadeOf(square)])
    case Rook => s.(r := s.r + 1)
    case Queen => s.(q := s.q + 1)
    case King => s
  }

  function PiecesUpTo(b: Board, side: Side, k: nat): SidePieces
    requires k <= 64
  {
    if k == 0 then NO_PIECES
    else
      var before, square := PiecesUpTo(b, side, k - 1), b[k - 1];
      if square.Some? && square.value.colour == side then WithPiece(before, square.value.kind, k - 1) else before
  }

  function Pieces(b: Board, side: Side): SidePieces { PiecesUpTo(b, side, 64) }

  method CountPieces(board: Board) returns (white: SidePieces, black: SidePieces)
    ensures white == Pieces(board, W) && black == Pieces(board, B)
  {
    white, black := NO_PIECES, NO_PIECES;
    for rank := 0 to 8
      invariant white == PiecesUpTo(board, W, 8 * rank) && black == PiecesUpTo(board, B, 8 * rank)
    {
      for file := 0 to 8
        invariant white == PiecesUpTo(board, W, 8 * rank + file) && black == PiecesUpTo(board, B, 8 * rank + file)
      {
        var square := 8 * rank + file;
        if board[square].Some? {
          var piece := board[square].value;
          if piece.colour == W {
            white := WithPiece(white, piece.kind, square);
          } else {
            black := WithPiece(black, piece.kind, square);
          }
        }
      }
    }
  }

  function First(shades: seq<Shade>): Option<Shade> { if shades == [] then None else Some(shades[0]) }

  predicate IsDead(w: SidePieces, b: SidePieces) {
    var minorsW, minorsB := w.n + w.b, b.n + b.b;
    if w.p + b.p > 0 || w.r + b.r > 0 || w.q + b.q > 0 then false
    else if minorsW == 0 && minorsB == 0 then true
    else if (minorsW == 1 && minorsB == 0) || (minorsW == 0 && minorsB == 1) then true
    else if w.b == 1 && b.b == 1 && minorsW == 1 && minorsB == 1 then First(w.bishopSquares) == First(b.bishopSquares)
    else false
  }

  function HasMatingMaterialOf(c: SidePieces): bool {
    if c.p > 0 || c.r > 0 || c.q > 0 then true else c.n + c.b >= 2
  }

  predicate IsDeadPosition(b: Board) { IsDead(Pieces(b, W), Pieces(b, B)) }

  predicate HasMatingMaterial(b: Board, side: Side) { HasMatingMaterialOf(Pieces(b, side)) }

  // ---------------------------------------------------------------------------------------
  //  The same, as sums over the board
  // ---------------------------------------------------------------------------------------

  /** Strength: pawns, rooks and queens weigh two, bishops and knights one. */
  datatype Tally = Strength(side: Side) | Bishops(side: Side, shade: Shade)

  function Weigh(t: Tally, p: Option<Piece>, square: int): nat {
    if p.None? || p.value.colour != t.side then 0
    else match t
      case Strength(_) =>
        if p.value.kind == King then 0 else if p.value.kind == Knight || p.value.kind == Bishop then 1 else 2
      case Bishops(_, shade) => if p.value.kind == Bishop && ShadeOf(square) == shade then 1 else 0
  }

  function SumUpTo(b: Board, t: Tally, k: nat): nat
    requires k <= 64
  {
    if k == 0 then 0 else SumUpTo(b, t, k - 1) + Weigh(t, b[k - 1], k - 1)
  }

  function Total(b: Board, t: Tally): nat { SumUpTo(b, t, 64) }

  lemma {:induction false} SumUpdate(b: Board, t: Tally, square: int, p: Option<Piece>, k: nat)
    requires OnBoard(square) && k <= 64
    ensures SumUpTo(b[square := p], t, k) ==
            SumUpTo(b, t, k) + if square < k then Weigh(t, p, square) - Weigh(t, b[square], square) else 0
  {
    if k > 0 {
      SumUpdate(b, t, square, p, k - 1);
    }
  }

  lemma {:induction false} SumCovers(b: Board, t: Tally, square: int, k: nat)
    requires 0 <= square < k <= 64
    ensures SumUpTo(b, t, k) >= Weigh(t, b[square], square)
  {
    if square < k - 1 { SumCovers(b, t, square, k - 1); }
  }

  function CountShade(shades: seq<Shade>, shade: Shade): nat {
    if shades == [] then 0
    else CountShade(shades[..|shades| - 1], shade) + (if shades[|shades| - 1] == shade then 1 else 0)
  }

  lemma ShadeSnoc(shades: seq<Shade>, last: Shade, shade: Shade)
    ensures CountShade(shades + [last], shade) == CountShade(shades, shade) + if last == shade then 1 else 0
  {
    assert (shades + [last])[..|shades|] == shades;
  }

  predicate SumsMatch(s: SidePieces, strength: int, light: int, dark: int) {
    && strength == 2 * (s.p + s.r + s.q) + s.n + s.b
    && |s.bishopSquares| == s.b
    && light == CountShade(s.bishopSquares, Light)
    && dark == CountShade(s.bishopSquares, Dark)
  }

  lemma OneMorePiece(s: SidePieces, strength: int, light: int, dark: int, p: Piece, square: int)
    requires SumsMatch(s, strength, light, dark)
    ensures SumsMatch(WithPiece(s, p.kind, square), strength + Weigh(Strength(p.colour), Some(p), square),
                      light + Weigh(Bishops(p.colour, Light), Some(p), square),
                      dark + Weigh(Bishops(p.colour, Dark), Some(p), square))
  {
    ShadeSnoc(s.bishopSquares, ShadeOf(square), Light);
    ShadeSnoc(s.bishopSquares, ShadeOf(square), Dark);
  }

  lemma {:induction false} PiecesMatch(b: Board, side: Side, k: nat)
    requires k <= 64
    ensures SumsMatch(PiecesUpTo(b, side, k),
                      SumUpTo(b, Strength(side), k),
                      SumUpTo(b, Bishops(side, Light), k), SumUpTo(b, Bishops(side, Dark), k))
  {
    if k > 0 {
      PiecesMatch(b, side, k - 1);
      if b[k - 1].Some? && b[k - 1].value.colour == side {
        OneMorePiece(PiecesUpTo(b, side, k - 1), SumUpTo(b, Strength(side), k - 1),
                     SumUpTo(b, Bishops(side, Light), k - 1), SumUpTo(b, Bishops(side, Dark), k - 1),
                     b[k - 1].value, k - 1);
      }
    }
  }

  lemma PiecesAreSums(b: Board, side: Side)
    ensures SumsMatch(Pieces(b, side), Total(b, Strength(side)),
                      Total(b, Bishops(side, Light)), Total(b, Bishops(side, Dark)))
  {
    PiecesMatch(b, side, 64);
  }

  /** A side can mate if and only if its strength is at least two. */
  lemma MatingIsStrength(b: Board, side: Side)
    ensures HasMatingMaterial(b, side) <==> Total(b, Strength(side)) >= 2
  {
    PiecesAreSums(b, side);
  }

  /** At most one minor piece is left, or one bishop each, on squares of one shade. */
  predicate DeadBySums(b: Board) {
    var w, x := Total(b, Strength(W)), Total(b, Strength(B));
    || w + x <= 1
    || (w == 1 && x == 1 && Total(b, Bishops(W, Light)) + Total(b, Bishops(B, Light)) == 2)
    || (w == 1 && x == 1 && Total(b, Bishops(W, Dark)) + Total(b, Bishops(B, Dark)) == 2)
  }

  lemma OneBishop(shades: seq<Shade>)
    requires |shades| == 1
    ensures forall shade :: CountShade(shades, shade) == if shades[0] == shade then 1 else 0
  {
    assert shades[..0] == [];
  }

  lemma NoBishops(shades: seq<Shade>)
    requires |shades| == 0
    ensures forall shade :: CountShade(shades, shade) == 0
  {
  }

  lemma DeadIsBySums(b: Board)
    ensures IsDeadPosition(b) <==> DeadBySums(b)
  {
    PiecesAreSums(b, W);
    PiecesAreSums(b, B);
    var w, x := Pieces(b, W), Pieces(b, B);
    if |w.bishopSquares| == 1 { OneBishop(w.bishopSquares); }
    if |w.bishopSquares| == 0 { NoBishops(w.bishopSquares); }
    if |x.bishopSquares| == 1 { OneBishop(x.bishopSquares); }
    if |x.bishopSquares| == 0 { NoBishops(x.bishopSquares); }
  }

  // ---------------------------------------------------------------------------------------
  //  How the two questions relate
  // ---------------------------------------------------------------------------------------

  /** Where neither side can mate the position is dead, unless each side has exactly one minor
      piece and these are not bishops on one shade. */
  lemma DeadVersusMating(b: Board)
    ensures IsDeadPosition(b) ==> !HasMatingMaterial(b, W) && !HasMatingMaterial(b, B)
    ensures !HasMatingMaterial(b, W) && !HasMatingMaterial(b, B) ==>
              (IsDeadPosition(b) <==>
                 !(Total(b, Strength(W)) == 1 && Total(b, Strength(B)) == 1)
                 || exists shade :: Total(b, Bishops(W, shade)) == 1 && Total(b, Bishops(B, shade)) == 1)
  {
    DeadIsBySums(b);
    MatingIsStrength(b, W);
    MatingIsStrength(b, B);
    BishopsWithinStrength(b, W, Light, 64);
    BishopsWithinStrength(b, B, Light, 64);
    BishopsWithinStrength(b, W, Dark, 64);
    BishopsWithinStrength(b, B, Dark, 64);
    if exists shade :: Total(b, Bishops(W, shade)) == 1 && Total(b, Bishops(B, shade)) == 1 {
      var shade :| Total(b, Bishops(W, shade)) == 1 && Total(b, Bishops(B, shade)) == 1;
      assert shade == Light || shade == Dark;
    }
  }

  lemma {:induction false} BishopsWithinStrength(b: Board, side: Side, shade: Shade, k: nat)
    requires k <= 64
    ensures SumUpTo(b, Bishops(side, shade), k) <= SumUpTo(b, Strength(side), k)
  {
    if k > 0 { BishopsWithinStrength(b, side, shade, k - 1); }
  }

  // ---------------------------------------------------------------------------------------
  //  What a move does to the sums
  // ---------------------------------------------------------------------------------------

  /** The mover, and the weight it has before and after. */
  function MoverChange(b: Board, e: Effect, t: Tally): int
    requires Possible(b, e)
  {
    match e
    case Quiet(from, to) => Weigh(t, b[from], to) - Weigh(t, b[from], from)
    case Castling(kf, kt, rf, rt) =>
      Weigh(t, b[kf], kt) - Weigh(t, b[kf], kf) + Weigh(t, b[rf], rt) - Weigh(t, b[rf], rf)
    case Capture(from, to, _, placed) => Weigh(t, Some(placed), to) - Weigh(t, b[from], from)
    case Advance(from, to, placed) => Weigh(t, Some(placed), to) - Weigh(t, b[from], from)
  }

  function VictimWeight(b: Board, e: Effect, t: Tally): nat
    requires Possible(b, e)
  {
    if e.Capture? then Weigh(t, b[e.victim], e.victim) else 0
  }

  lemma TotalAfter(b: Board, e: Effect, t: Tally)
    requires Possible(b, e)
    ensures Total(After(b, e), t) == Total(b, t) + MoverChange(b, e, t) - VictimWeight(b, e, t)
  {
    SumAfter(b, e, t, 64);
  }

  lemma SumAfter(b: Board, e: Effect, t: Tally, k: nat)
    requires Possible(b, e) && k == 64
    ensures SumUpTo(After(b, e), t, k) == SumUpTo(b, t, k) + MoverChange(b, e, t) - VictimWeight(b, e, t)
  {
    match e
    case Quiet(from, to) =>
      SumUpdate(b, t, from, None, k);
      SumUpdate(b[from := None], t, to, b[from], k);
    case Castling(kf, kt, rf, rt) =>
      SumAfterCastling(b, kf, kt, rf, rt, t, k);
    case Capture(from, to, victim, placed) =>
      var b1 := b[from := None];
      SumUpdate(b, t, from, None, k);
      SumUpdate(b1, t, victim, None, k);
      SumUpdate(b1[victim := None], t, to, Some(placed), k);
    case Advance(from, to, placed) =>
      SumUpdate(b, t, from, None, k);
      SumUpdate(b[from := None], t, to, Some(placed), k);
  }

  lemma SumAfterCastling(b: Board, kf: int, kt: int, rf: int, rt: int, t: Tally, k: nat)
    requires Possible(b, Castling(kf, kt, rf, rt)) && k == 64
    ensures SumUpTo(After(b, Castling(kf, kt, rf, rt)), t, k) ==
            SumUpTo(b, t, k) + MoverChange(b, Castling(kf, kt, rf, rt), t)
  {
    var b1 := b[kf := None];
    var b2 := b1[rf := None];
    SumUpdate(b, t, kf, None, k);
    SumUpdate(b1, t, rf, None, k);
    SumUpdate(b2, t, kt, b[kf], k);
    SumUpdate(b2[kt := b[kf]], t, rt, b[rf], k);
  }

  /** Whoever cannot mate has no pawn to promote and nothing to gain by moving. */
  lemma WeakMoverGainsNothing(b: Board, e: Effect, side: Side)
    requires Possible(b, e) && Total(b, Strength(side)) < 2
    ensures MoverChange(b, e, Strength(side)) == 0
  {
    if e.Capture? || e.Advance? { SumCovers(b, Strength(side), e.from, 64); }
  }

  /** Mating material once lost does not come back. */
  lemma MatingMaterialNeverReturns(b: Board, e: Effect, side: Side)
    requires Possible(b, e) && !HasMatingMaterial(b, side)
    ensures !HasMatingMaterial(After(b, e), side)
  {
    MatingIsStrength(b, side);
    MatingIsStrength(After(b, e), side);
    WeakMoverGainsNothing(b, e, side);
    TotalAfter(b, e, Strength(side));
  }

  /** Where nobody has a pawn, every piece that moves stays what it is, and bishops on their shade. */
  lemma MoverUnchanged(b: Board, e: Effect, side: Side, shade: Shade)
    requires Possible(b, e) && Total(b, Strength(W)) < 2 && Total(b, Strength(B)) < 2
    ensures MoverChange(b, e, Bishops(side, shade)) == 0
  {
    if e.Capture? || e.Advance? { SumCovers(b, Strength(b[e.from].value.colour), e.from, 64); }
  }

  /** A captured piece of some strength, or none. */
  lemma VictimCounts(b: Board, e: Effect, side: Side, shade: Shade)
    requires Possible(b, e)
    ensures VictimWeight(b, e, Bishops(side, shade)) <= VictimWeight(b, e, Strength(side))
  {
  }

  lemma SumsAfterWeak(b: Board, e: Effect, side: Side, shade: Shade)
    requires Possible(b, e) && Total(b, Strength(W)) < 2 && Total(b, Strength(B)) < 2
    ensures Total(After(b, e), Strength(side)) == Total(b, Strength(side)) - VictimWeight(b, e, Strength(side))
    ensures Total(After(b, e), Bishops(side, shade)) ==
            Total(b, Bishops(side, shade)) - VictimWeight(b, e, Bishops(side, shade))
    ensures VictimWeight(b, e, Bishops(side, shade)) <= VictimWeight(b, e, Strength(side))
  {
    WeakMoverGainsNothing(b, e, side);
    TotalAfter(b, e, Strength(side));
    MoverUnchanged(b, e, side, shade);
    TotalAfter(b, e, Bishops(side, shade));
    VictimCounts(b, e, side, shade);
  }

  /** Every legal continuation of a dead position is dead. */
  lemma DeadForGood(b: Board, e: Effect)
    requires Possible(b, e) && IsDeadPosition(b)
    ensures IsDeadPosition(After(b, e))
  {
    DeadIsBySums(b);
    DeadIsBySums(After(b, e));
    SumsAfterWeak(b, e, W, Light);
    SumsAfterWeak(b, e, W, Dark);
    SumsAfterWeak(b, e, B, Light);
    SumsAfterWeak(b, e, B, Dark);
  }

  // ---------------------------------------------------------------------------------------
  //  Over a whole game
  // ---------------------------------------------------------------------------------------

  lemma NextPlacement(lib: Library, t: Tables, rows: seq<MoveRow>, i: nat) returns (e: Effect)
    requires PlaysChess(lib) && LegalLog(lib, t, rows) && i < |rows|
    ensures Possible(Placement(lib, Positions(rows)[i]), e)
    ensures Placement(lib, Positions(rows)[i + 1]) == After(Placement(lib, Positions(rows)[i]), e)
  {
    assert LegalAt(lib, t, rows, i);
    assert Positions(rows)[i + 1] == rows[i].fenAfter;
    e := SuccessorPlacement(lib, Positions(rows)[i], rows[i].san, rows[i].fenAfter);
  }

  lemma SuccessorPlacement(lib: Library, fen: string, san: string, fenAfter: string) returns (e: Effect)
    requires PlaysChess(lib) && LegalSuccessor(lib, fen, san, fenAfter)
    ensures Possible(Placement(lib, fen), e) && Placement(lib, fenAfter) == After(Placement(lib, fen), e)
  {
    var uci :| IsMove(lib, fen, uci, san, fenAfter);
    e :| Possible(Placement(lib, fen), e) && HasEffect(lib, fen, lib.validate(fen, uci).value, e);
  }

  /** Nothing that was lost on one board is back on the other. */
  predicate NothingRegained(before: Board, after: Board, side: Side) {
    && (!HasMatingMaterial(before, side) ==> !HasMatingMaterial(after, side))
    && (IsDeadPosition(before) ==> IsDeadPosition(after))
  }

  lemma NothingRegainedByMove(b: Board, e: Effect, side: Side)
    requires Possible(b, e)
    ensures NothingRegained(b, After(b, e), side)
  {
    if !HasMatingMaterial(b, side) { MatingMaterialNeverReturns(b, e, side); }
    if IsDeadPosition(b) { DeadForGood(b, e); }
  }

  lemma NothingRegainedTwice(a: Board, b: Board, c: Board, side: Side)
    requires NothingRegained(a, b, side) && NothingRegained(b, c, side)
    ensures NothingRegained(a, c, side)
  {
  }

  function BoardAt(lib: Library, rows: seq<MoveRow>, i: nat): Board
    requires i <= |rows|
  {
    Placement(lib, Positions(rows)[i])
  }

  function Relation(side: Side): (Board, Board) -> bool { (a: Board, b: Board) => NothingRegained(a, b, side) }

  /** What holds from each board to the next, and is transitive, holds from each to every later one. */
  lemma {:induction false} FromStepToRun(boards: seq<Board>, r: (Board, Board) -> bool, i: nat, j: nat)
    requires i <= j < |boards|
    requires forall a :: r(a, a)
    requires forall a, b, c :: r(a, b) && r(b, c) ==> r(a, c)
    requires forall k :: i <= k < j ==> r(boards[k], boards[k + 1])
    ensures r(boards[i], boards[j])
    decreases j
  {
    if i < j { FromStepToRun(boards, r, i, j - 1); }
  }

  lemma RelationIsPreorder(side: Side)
    ensures forall a :: Relation(side)(a, a)
    ensures forall a, b, c :: Relation(side)(a, b) && Relation(side)(b, c) ==> Relation(side)(a, c)
  {
    forall a, b, c | Relation(side)(a, b) && Relation(side)(b, c) ensures Relation(side)(a, c) {
      NothingRegainedTwice(a, b, c, side);
    }
  }

  function Boards(lib: Library, rows: seq<MoveRow>): (r: seq<Board>)
    ensures |r| == |rows| + 1
  {
    seq(|rows| + 1, i requires 0 <= i <= |rows| => BoardAt(lib, rows, i))
  }

  lemma StepRegainsNothing(lib: Library, t: Tables, rows: seq<MoveRow>, k: nat, side: Side)
    requires PlaysChess(lib) && LegalLog(lib, t, rows) && k < |rows|
    ensures Relation(side)(Boards(lib, rows)[k], Boards(lib, rows)[k + 1])
  {
    var e := NextPlacement(lib, t, rows, k);
    NothingRegainedByMove(BoardAt(lib, rows, k), e, side);
  }

  /** In any log of legal moves: from the position where a side can no longer mate it never can
      again, so no later flag can win for it; and from a dead position on all are dead. */
  lemma LostMaterialStaysLost(lib: Library, t: Tables, rows: seq<MoveRow>, i: nat, j: nat, side: Side)
    requires PlaysChess(lib) && LegalLog(lib, t, rows) && i <= j <= |rows|
    ensures NothingRegained(BoardAt(lib, rows, i), BoardAt(lib, rows, j), side)
  {
    var boards, r := Boards(lib, rows), Relation(side);
    RelationIsPreorder(side);
    forall k | i <= k < j ensures r(boards[k], boards[k + 1]) { StepRegainsNothing(lib, t, rows, k, side); }
    FromStepToRun(boards, r, i, j);
    assert r(boards[i], boards[j]);
  }

  // ---------------------------------------------------------------------------------------
  //  The end of the game from the position
  // ---------------------------------------------------------------------------------------

  /** What the library knows of a position, and the platform's reading of a number, if finite. */
  datatype Oracle = Oracle(checkmate: string -> bool, stalemate: string -> bool, number: string -> Option<real>)

  function HalfmoveClock(o: Oracle, fen: string): real {
    if |Fields(fen)| <= 4 then 0.0
    else
      var n := o.number(Fields(fen)[4]);
      if n.Some? then n.value else 0.0
  }

  /** The four ends that need no history, in the order in which they are looked for. */
  function EndWithoutHistory(o: Oracle, lib: Library, fen: string): Option<GameEnd> {
    if o.checkmate(fen) then Some(Checkmate)
    else if o.stalemate(fen) then Some(Stalemate)
    else if IsDeadPosition(Placement(lib, fen)) then Some(InsufficientMaterial)
    else if HalfmoveClock(o, fen) >= 100.0 then Some(FiftyMoveRule)
    else None
  }

  function GameEndFromPosition(o: Oracle, lib: Library, fen: string, priorFens: seq<string>): Option<GameEnd> {
    var end := EndWithoutHistory(o, lib, fen);
    if end.Some? then end
    else if 1 + CountKey(priorFens, PositionKey(fen)) >= 3 then Some(ThreefoldRepetition)
    else None
  }

  /** The ends a position shows by itself are found with an empty history. */
  ghost predicate EndsFrom(o: Oracle, lib: Library) {
    forall fen :: lib.ending(fen) == GameEndFromPosition(o, lib, fen, [])
  }

  /** The two stages of making a move, the position alone and then the index, come to what the
      one function says about the whole history, start position included. */
  lemma TwoStagesAreOne(o: Oracle, lib: Library, t: Tables, rows: seq<MoveRow>, uci: string)
    requires PlaysChess(lib) && EndsFrom(o, lib) && LegalLog(lib, t, rows)
    requires lib.validate(CurrentFen(rows), uci).Some?
    ensures var m := lib.validate(CurrentFen(rows), uci).value;
            EndStatus(lib, m, Occurrences(rows, Hash(t, lib, m.fenAfter))) ==
                GameEndFromPosition(o, lib, m.fenAfter, Positions(rows))
  {
    var m := lib.validate(CurrentFen(rows), uci).value;
    IndexedTestIsTheRule(lib, t, rows, uci);
    RuleIsGameEnd(o, lib, rows, m.fenAfter);
  }

  lemma RuleIsGameEnd(o: Oracle, lib: Library, rows: seq<MoveRow>, fen: string)
    requires lib.ending(fen) == GameEndFromPosition(o, lib, fen, [])
    ensures MandatedEnd(lib, rows, fen) == GameEndFromPosition(o, lib, fen, Positions(rows))
  {
    assert CountKey([], PositionKey(fen)) == 0;
  }

  /** A flag falls: who wins. */
  function TimeoutWinner(b: Board, loser: Side): Option<Side> {
    var winner := if loser == W then B else W;
    if HasMatingMaterial(b, winner) then Some(winner) else None
  }

  /** Whichever flag falls in a dead position or after it, nobody wins. */
  lemma NobodyWinsDeadOnTime(lib: Library, t: Tables, rows: seq<MoveRow>, i: nat, j: nat, loser: Side)
    requires PlaysChess(lib) && LegalLog(lib, t, rows) && i <= j <= |rows|
    requires IsDeadPosition(BoardAt(lib, rows, i))
    ensures TimeoutWinner(BoardAt(lib, rows, j), loser) == None
  {
    LostMaterialStaysLost(lib, t, rows, i, j, loser);
    DeadVersusMating(BoardAt(lib, rows, j));
  }

  /** A flag gives the game to the other side exactly if that side has the strength to mate, else to nobody. */
  lemma FlagIsWonByTheOther(b: Board, loser: Side)
    ensures var other := if loser == W then B else W;
            TimeoutWinner(b, loser) == if Total(b, Strength(other)) >= 2 then Some(other) else None
  {
    MatingIsStrength(b, if loser == W then B else W);
  }

  /**
   The game goes on exactly if the side to move is neither mated nor stalemated, the position is not dead,
   fewer than fifty moves have passed since the last capture or pawn move, and it has not occurred twice.
   */
  lemma GameGoesOnIff(o: Oracle, lib: Library, fen: string, priorFens: seq<string>)
    ensures GameEndFromPosition(o, lib, fen, priorFens) == None <==>
            && !o.checkmate(fen) && !o.stalemate(fen) && !DeadBySums(Placement(lib, fen))
            && HalfmoveClock(o, fen) < 100.0 && !OccursTwice(priorFens, PositionKey(fen))
  {
    DeadIsBySums(Placement(lib, fen));
    CountKeyMeans(priorFens, PositionKey(fen));
  }

  /** Mate comes before every other end, stalemate next, and repetition last. */
  lemma EndsInOrder(o: Oracle, lib: Library, fen: string, priorFens: seq<string>)
    ensures var end := GameEndFromPosition(o, lib, fen, priorFens);
            && (end == Some(Checkmate) <==> o.checkmate(fen))
            && (end == Some(Stalemate) <==> !o.checkmate(fen) && o.stalemate(fen))
            && (end == Some(InsufficientMaterial) ==> DeadBySums(Placement(lib, fen)))
            && (end == Some(FiftyMoveRule) ==> HalfmoveClock(o, fen) >= 100.0)
            && (end == Some(ThreefoldRepetition) ==>
                OccursTwice(priorFens, PositionKey(fen)) && HalfmoveClock(o, fen) < 100.0)
  {
    DeadIsBySums(Placement(lib, fen));
    CountKeyMeans(priorFens, PositionKey(fen));
  }

  /** The clock of moves without capture or pawn move is the fifth of the six fields of a position. */
  lemma HalfmoveClockIsFifthField(o: Oracle, fields: seq<string>)
    requires |fields| == 6 && forall f :: f in fields ==> ' ' !in f
    ensures HalfmoveClock(o, Join(fields, [' '])) ==
            if o.number(fields[4]).Some? then o.number(fields[4]).value else 0.0
  {
    SplitOfJoin(fields, ' ');
  }
}
