/**
 The 64-bit position hash stored with every move: a table of pseudo-random keys drawn once from a
 xorshift generator, combined by exclusive or over the parts of the position.
 */
module Zobrist {
  import opened Wrappers
  import opened Chess

  const ZOBRIST_SEED: bv64 := 0x5152_79f3_84d1_c0de

  // ---------------------------------------------------------------------------------------
  //  The generator
  // ---------------------------------------------------------------------------------------

  function Seeded(seed: bv64): bv64 { if seed == 0 then 0x9e37_79b9_7f4a_7c15 else seed }

  function Shift1(x: bv64): bv64 { x ^ (x << 13) }

  function Shift2(x: bv64): bv64 { x ^ (x >> 7) }

  function Shift3(x: bv64): bv64 { x ^ (x << 17) }

  function NextState(x: bv64): bv64 { Shift3(Shift2(Shift1(x))) }

  lemma Shift1NonZero(x: bv64)
    requires x != 0
    ensures Shift1(x) != 0
  {
  }

  lemma Shift2NonZero(x: bv64)
    requires x != 0
    ensures Shift2(x) != 0
  {
  }

  lemma Shift3NonZero(x: bv64)
    requires x != 0
    ensures Shift3(x) != 0
  {
  }

  lemma NextNonZero(x: bv64)
    requires x != 0
    ensures NextState(x) != 0
  {
    Shift1NonZero(x);
    Shift2NonZero(Shift1(x));
    Shift3NonZero(Shift2(Shift1(x)));
  }

  /** Output number `n` of a generator, counted from 1; output 0 is its starting state. */
  function Output(seed: bv64, n: nat): bv64 {
    if n == 0 then Seeded(seed) else NextState(Output(seed, n - 1))
  }

  lemma {:induction false} OutputsNonZero(seed: bv64, n: nat)
    ensures Output(seed, n) != 0
  {
    if n > 0 {
      OutputsNonZero(seed, n - 1);
      NextNonZero(Output(seed, n - 1));
    }
  }

  /** The first number drawn from the platform's seed. */
  lemma FirstOutput()
    ensures Output(ZOBRIST_SEED, 1) == 0xbca6_0e1c_460d_94df
  {
    assert Output(ZOBRIST_SEED, 0) == ZOBRIST_SEED;
  }

  class Xorshift64 {
    var s: bv64
    ghost const seed: bv64
    ghost var drawn: nat

    ghost predicate Valid() reads this { s == Output(seed, drawn) }

    constructor (seed: bv64)
      ensures Valid() && this.seed == seed && drawn == 0
    {
      this.seed := seed;
      s := if seed == 0 then 0x9e37_79b9_7f4a_7c15 else seed;
      drawn := 0;
    }

    method Next() returns (x: bv64)
      requires Valid()
      modifies this
      ensures Valid() && drawn == old(drawn) + 1 && x == Output(seed, drawn)
    {
      x := s;
      x := Shift1(x);
      x := Shift2(x);
      x := Shift3(x);
      s := x;
      drawn := drawn + 1;
    }
  }

  // ---------------------------------------------------------------------------------------
  //  The key tables
  // ---------------------------------------------------------------------------------------

  datatype Tables = Tables(pieceKeys: seq<seq<bv64>>, sideKey: bv64, castlingKeys: seq<bv64>, epFileKeys: seq<bv64>)

  function Row(seed: bv64, first: nat, length: nat): (row: seq<bv64>)
    ensures |row| == length
  {
    seq(length, i requires 0 <= i < length => Output(seed, first + i + 1))
  }

  /** Piece keys, then the side key, the castling keys and the en passant keys, in drawing order. */
  function TablesOf(seed: bv64): Tables {
    Tables(seq(12, p requires 0 <= p < 12 => Row(seed, 64 * p, 64)), Output(seed, 769), Row(seed, 769, 16),
        Row(seed, 785, 8))
  }

  method DrawRow(rng: Xorshift64, length: nat) returns (row: seq<bv64>)
    requires rng.Valid()
    modifies rng
    ensures rng.Valid() && rng.drawn == old(rng.drawn) + length
    ensures row == Row(rng.seed, old(rng.drawn), length)
  {
    row := [];
    for i := 0 to length
      invariant rng.Valid() && rng.drawn == old(rng.drawn) + i && |row| == i
      invariant forall j :: 0 <= j < i ==> row[j] == Output(rng.seed, old(rng.drawn) + j + 1)
    {
      var x := rng.Next();
      row := row + [x];
    }
  }

  method BuildTables(seed: bv64) returns (tables: Tables)
    ensures tables == TablesOf(seed)
  {
    var rng := new Xorshift64(seed);
    var pieceKeys: seq<seq<bv64>> := [];
    for p := 0 to 12
      invariant rng.Valid() && rng.seed == seed && rng.drawn == 64 * p && |pieceKeys| == p
      invariant forall q :: 0 <= q < p ==> pieceKeys[q] == Row(seed, 64 * q, 64)
    {
      var row := DrawRow(rng, 64);
      pieceKeys := pieceKeys + [row];
    }
    var sideKey := rng.Next();
    var castlingKeys := DrawRow(rng, 16);
    var epFileKeys := DrawRow(rng, 8);
    tables := Tables(pieceKeys, sideKey, castlingKeys, epFileKeys);
    assert pieceKeys == TablesOf(seed).pieceKeys;
  }

  // ---------------------------------------------------------------------------------------
  //  The hash
  // ---------------------------------------------------------------------------------------

  function KindIndex(k: Kind): nat {
    match k
    case Pawn => 0
    case Knight => 1
    case Bishop => 2
    case Rook => 3
    case Queen => 4
    case King => 5
  }

  function PieceIndex(p: Piece): nat { KindIndex(p.kind) + if p.colour == W then 0 else 6 }

  /** A missing table entry contributes nothing. */
  function Lookup(row: seq<bv64>, i: int): bv64 { if 0 <= i < |row| then row[i] else 0 }

  function SquareKey(t: Tables, square: Option<Piece>, index: int): bv64 {
    match square
    case None => 0
    case Some(p) => if PieceIndex(p) < |t.pieceKeys| then Lookup(t.pieceKeys[PieceIndex(p)], index) else 0
  }

  function BoardHash(t: Tables, b: Board, k: nat): bv64
    requires k <= 64
  {
    if k == 0 then 0 else BoardHash(t, b, k - 1) ^ SquareKey(t, b[k - 1], k - 1)
  }

  function CastlingMask(field: string): int {
    (if 'K' in field then 1 else 0) + (if 'Q' in field then 2 else 0)
    + (if 'k' in field then 4 else 0) + (if 'q' in field then 8 else 0)
  }

  /** No key for "-"; otherwise the file of the square, by the field's first character. */
  function EnPassantKey(t: Tables, field: string): bv64 {
    if field == "-" || field == "" then 0 else Lookup(t.epFileKeys, field[0] as int - 'a' as int)
  }

  function SideKeyFor(t: Tables, side: Side): bv64 { if side == W then t.sideKey else 0 }

  /** The four contributions to a hash. */
  datatype Parts = Parts(board: bv64, side: bv64, castling: bv64, ep: bv64)

  function PartsOf(t: Tables, lib: Library, fen: string): Parts {
    Parts(BoardHash(t, Placement(lib, fen), 64),
          SideKeyFor(t, SideToMove(fen)),
          Lookup(t.castlingKeys, CastlingMask(Field(fen, 2, "-"))),
          EnPassantKey(t, Field(fen, 3, "-")))
  }

  function Xor(x: bv64, y: bv64): bv64 { x ^ y }

  function Combined(p: Parts): bv64 { Xor(Xor(Xor(p.board, p.side), p.castling), p.ep) }

  function Hash(t: Tables, lib: Library, fen: string): bv64 { Combined(PartsOf(t, lib, fen)) }

  /** The nested loop over ranks and files. */
  method HashBoard(t: Tables, board: Board) returns (h: bv64)
    ensures h == BoardHash(t, board, 64)
  {
    h := 0;
    for rank := 0 to 8
      invariant h == BoardHash(t, board, 8 * rank)
    {
      for file := 0 to 8
        invariant h == BoardHash(t, board, 8 * rank + file)
      {
        var square := rank * 8 + file;
        var key := SquareKey(t, board[square], square);
        h := h ^ key;
      }
    }
  }

  method ComputeHash(t: Tables, lib: Library, fen: string) returns (h: bv64)
    ensures h == Hash(t, lib, fen)
  {
    var board := HashBoard(t, Placement(lib, fen));
    var side := SideKeyFor(t, SideToMove(fen));
    var castling := Lookup(t.castlingKeys, CastlingMask(Field(fen, 2, "-")));
    var ep := EnPassantKey(t, Field(fen, 3, "-"));
    assert Parts(board, side, castling, ep) == PartsOf(t, lib, fen);
    h := Combined(Parts(board, side, castling, ep));
  }

  lemma EqualKeysEqualParts(t: Tables, lib: Library, f: string, g: string)
    requires PositionKey(f) == PositionKey(g)
    ensures PartsOf(t, lib, f) == PartsOf(t, lib, g)
  {
    KeyDeterminesFields(f, g);
    assert Field(f, 0, "") == Field(g, 0, "");
    assert Field(f, 1, "") == Field(g, 1, "");
    assert Field(f, 2, "-") == Field(g, 2, "-");
    assert Field(f, 3, "-") == Field(g, 3, "-");
  }

  /** Equal position keys force equal hashes: the index can never hide a repetition. */
  lemma EqualKeysEqualHashes(t: Tables, lib: Library, f: string, g: string)
    requires PositionKey(f) == PositionKey(g)
    ensures Hash(t, lib, f) == Hash(t, lib, g)
  {
    EqualKeysEqualParts(t, lib, f, g);
  }

  lemma SameRight(x: bv64, y: bv64, z: bv64)
    ensures Xor(x, z) == Xor(y, z) <==> x == y
  {
    assert (x ^ z) ^ z == x && (y ^ z) ^ z == y;
  }

  lemma SameLeft(x: bv64, y: bv64, z: bv64)
    ensures Xor(x, y) == Xor(x, z) <==> y == z
  {
    assert x ^ (x ^ y) == y && x ^ (x ^ z) == z;
  }

  lemma SidePartShows(p: Parts, q: Parts)
    requires p.board == q.board && p.castling == q.castling && p.ep == q.ep
    requires (p.side != 0 && q.side == 0) || (p.side == 0 && q.side != 0)
    ensures Combined(p) != Combined(q)
  {
    SameLeft(p.board, p.side, q.side);
    SameRight(Xor(p.board, p.side), Xor(p.board, q.side), p.castling);
    SameRight(Xor(Xor(p.board, p.side), p.castling), Xor(Xor(p.board, q.side), p.castling), p.ep);
  }

  /** Two positions that differ only in whose move it is never share a hash. */
  lemma SideAlwaysShows(lib: Library, f: string, g: string)
    requires Field(f, 0, "") == Field(g, 0, "")
    requires Field(f, 2, "-") == Field(g, 2, "-") && Field(f, 3, "-") == Field(g, 3, "-")
    requires SideToMove(f) != SideToMove(g)
    ensures Hash(TablesOf(ZOBRIST_SEED), lib, f) != Hash(TablesOf(ZOBRIST_SEED), lib, g)
  {
    var t := TablesOf(ZOBRIST_SEED);
    OutputsNonZero(ZOBRIST_SEED, 769);
    SidePartShows(PartsOf(t, lib, f), PartsOf(t, lib, g));
  }

  // ---------------------------------------------------------------------------------------
  //  Every part of the position shows
  // ---------------------------------------------------------------------------------------

  /** Of positions that agree in all parts but one, the hashes are equal exactly if that part's keys are. */
  lemma BoardDecides(p: Parts, q: Parts)
    requires p.side == q.side && p.castling == q.castling && p.ep == q.ep
    ensures Combined(p) == Combined(q) <==> p.board == q.board
  {
    SameRight(p.board, q.board, p.side);
    SameRight(Xor(p.board, p.side), Xor(q.board, p.side), p.castling);
    SameRight(Xor(Xor(p.board, p.side), p.castling), Xor(Xor(q.board, p.side), p.castling), p.ep);
  }

  lemma CastlingDecides(p: Parts, q: Parts)
    requires p.board == q.board && p.side == q.side && p.ep == q.ep
    ensures Combined(p) == Combined(q) <==> p.castling == q.castling
  {
    var x := Xor(p.board, p.side);
    SameLeft(x, p.castling, q.castling);
    SameRight(Xor(x, p.castling), Xor(x, q.castling), p.ep);
  }

  lemma EnPassantDecides(p: Parts, q: Parts)
    requires p.board == q.board && p.side == q.side && p.castling == q.castling
    ensures Combined(p) == Combined(q) <==> p.ep == q.ep
  {
    SameLeft(Xor(Xor(p.board, p.side), p.castling), p.ep, q.ep);
  }

  /** The sixteen castling keys stand for the sixteen sets of rights. */
  lemma CastlingMaskTellsRights(f: string, g: string)
    ensures 0 <= CastlingMask(f) < 16
    ensures CastlingMask(f) == CastlingMask(g) <==>
            ('K' in f <==> 'K' in g) && ('Q' in f <==> 'Q' in g) && ('k' in f <==> 'k' in g) && ('q' in f <==> 'q' in g)
  {
  }

  /** The twelve rows of piece keys stand for the twelve pieces. */
  lemma PieceIndexTellsPiece(p: Piece, q: Piece)
    ensures 0 <= PieceIndex(p) < 12
    ensures PieceIndex(p) == PieceIndex(q) <==> p == q
  {
  }

  lemma PieceKeyNonZero(p: Piece, index: int)
    requires OnBoard(index)
    ensures SquareKey(TablesOf(ZOBRIST_SEED), Some(p), index) ==
            Output(ZOBRIST_SEED, 64 * PieceIndex(p) + index + 1) != 0
  {
    PieceIndexTellsPiece(p, p);
    OutputsNonZero(ZOBRIST_SEED, 64 * PieceIndex(p) + index + 1);
  }

  /** An en passant square always shows, and on each file by that file's own key. */
  lemma EnPassantShows(field: string)
    requires field != "" && 'a' <= field[0] <= 'h'
    ensures EnPassantKey(TablesOf(ZOBRIST_SEED), field) ==
            Output(ZOBRIST_SEED, 786 + (field[0] as int - 'a' as int)) != EnPassantKey(TablesOf(ZOBRIST_SEED), "-")
  {
    OutputsNonZero(ZOBRIST_SEED, 786 + (field[0] as int - 'a' as int));
  }
}
