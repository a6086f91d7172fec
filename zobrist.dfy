/**
 * Zobrist hashing of a game position: a table of 64-bit keys, one per piece
 * type, colour and square plus keys for the side to move, the sixteen castling
 * states and the nine en-passant files, XORed together for the features the
 * position has. The table lives in a hasher object that fills it once from a
 * random source; the random draws are a parameter here. Keys and hashes are
 * non-negative integers, as the engine's big integers are, and `Xor` is their
 * bitwise exclusive or.
 */
module Zobrist {
  import opened Wrappers
  import opened ChessTypes
  import opened BoardUtils

  const NumSquares: nat := 64
  const NumPieceTypes: nat := 6
  const NumColors: nat := 2
  const NoEnPassantIndex: nat := 8

  const TwoTo32: nat := 0x1_0000_0000
  const TwoTo64: nat := 0x1_0000_0000_0000_0000

  /** The key table: `pieceSquare[type][colour][square]`, the black-to-move key, and the castling and en-passant keys. */
  datatype ZobristKeys = ZobristKeys(
    pieceSquare: seq<seq<seq<nat>>>,
    sideToMove: nat,
    castlingRights: seq<nat>,
    enPassantFile: seq<nat>)

  /** The table's shape: 6 x 2 x 64 piece keys, 16 castling keys and 9 en-passant keys. */
  predicate WellShaped(k: ZobristKeys) {
    && |k.pieceSquare| == NumPieceTypes
    && (forall t :: 0 <= t < NumPieceTypes ==> |k.pieceSquare[t]| == NumColors)
    && (forall t, c :: 0 <= t < NumPieceTypes && 0 <= c < NumColors ==> |k.pieceSquare[t][c]| == NumSquares)
    && |k.castlingRights| == 16
    && |k.enPassantFile| == NoEnPassantIndex + 1
  }

  /** Every key of a well-shaped table is a 64-bit value. */
  predicate KeysFit(k: ZobristKeys)
    requires WellShaped(k)
  {
    && (forall t, c, s :: 0 <= t < NumPieceTypes && 0 <= c < NumColors && 0 <= s < NumSquares ==>
         k.pieceSquare[t][c][s] < TwoTo64)
    && k.sideToMove < TwoTo64
    && (forall i :: 0 <= i < 16 ==> k.castlingRights[i] < TwoTo64)
    && (forall i :: 0 <= i <= NoEnPassantIndex ==> k.enPassantFile[i] < TwoTo64)
  }

  // ---------------------------------------------------------------------------
  // Exclusive or on non-negative integers

  function Pow2(n: nat): (r: nat)
    ensures r >= 1
  {
    if n == 0 then 1 else 2 * Pow2(n - 1)
  }

  /** Bitwise exclusive or, from the lowest bit up. */
  function Xor(a: nat, b: nat): nat
    decreases a + b
  {
    if a == 0 && b == 0 then 0
    else 2 * Xor(a / 2, b / 2) + (if a % 2 == b % 2 then 0 else 1)
  }

  /** The lowest bit of `Xor(a, b)` is the exclusive or of the lowest bits, and the higher bits are the exclusive or of the higher bits. */
  lemma XorDigits(a: nat, b: nat)
    ensures Xor(a, b) % 2 == (if a % 2 == b % 2 then 0 else 1)
    ensures Xor(a, b) / 2 == Xor(a / 2, b / 2)
  {
  }

  lemma {:induction false} XorZero(a: nat)
    ensures Xor(a, 0) == a && Xor(0, a) == a
    decreases a
  {
    if a > 0 {
      XorZero(a / 2);
    }
  }

  lemma {:induction false} XorSelf(a: nat)
    ensures Xor(a, a) == 0
    decreases a
  {
    if a > 0 {
      XorSelf(a / 2);
    }
  }

  lemma {:induction false} XorCommutes(a: nat, b: nat)
    ensures Xor(a, b) == Xor(b, a)
    decreases a + b
  {
    if a + b > 0 {
      XorCommutes(a / 2, b / 2);
    }
  }

  lemma {:induction false} XorAssociates(a: nat, b: nat, c: nat)
    ensures Xor(Xor(a, b), c) == Xor(a, Xor(b, c))
    decreases a + b + c
  {
    if a + b + c > 0 {
      XorAssociates(a / 2, b / 2, c / 2);
      XorDigits(a, b);
      XorDigits(Xor(a, b), c);
      XorDigits(b, c);
      XorDigits(a, Xor(b, c));
      var l := Xor(Xor(a, b), c);
      var r := Xor(a, Xor(b, c));
      assert l / 2 == r / 2 && l % 2 == r % 2;
    }
  }

  /** The exclusive or of two n-bit values is an n-bit value. */
  lemma {:induction false} XorFits(a: nat, b: nat, n: nat)
    requires a < Pow2(n) && b < Pow2(n)
    ensures Xor(a, b) < Pow2(n)
  {
    if n > 0 && a + b > 0 {
      XorFits(a / 2, b / 2, n - 1);
    }
  }

  lemma {:induction false} Pow2Adds(a: nat, b: nat)
    ensures Pow2(a + b) == Pow2(a) * Pow2(b)
    decreases a
  {
    if a > 0 {
      Pow2Adds(a - 1, b);
    }
  }

  lemma Pow2Of64()
    ensures Pow2(64) == TwoTo64
  {
    assert Pow2(8) == 0x100;
    Pow2Adds(8, 8);
    assert Pow2(16) == 0x1_0000;
    Pow2Adds(16, 16);
    assert Pow2(32) == TwoTo32;
    Pow2Adds(32, 32);
  }

  // ---------------------------------------------------------------------------
  // Index maps

  /** `pieceTypeToIndex`. */
  function TypeIndex(t: PieceType): (i: nat)
    ensures i < NumPieceTypes
  {
    match t
    case Pawn => 0
    case Knight => 1
    case Bishop => 2
    case Rook => 3
    case Queen => 4
    case King => 5
  }

  /** `colorToIndex`. */
  function ColorIndex(c: PieceColor): (i: nat)
    ensures i < NumColors
  {
    match c
    case White => 0
    case Black => 1
  }

  /** Distinct piece types and colours have distinct indices. */
  lemma IndicesInjective(t1: PieceType, t2: PieceType, c1: PieceColor, c2: PieceColor)
    ensures TypeIndex(t1) == TypeIndex(t2) ==> t1 == t2
    ensures ColorIndex(c1) == ColorIndex(c2) ==> c1 == c2
  {
  }

  /** The square index of (r, c), row-major. */
  function SquareIndex(r: int, c: int): (i: int)
    ensures 0 <= r < 8 && 0 <= c < 8 ==> 0 <= i < NumSquares
  {
    r * 8 + c
  }

  /** The square indices number the board's squares one to one: each on-board square's index leads back to it, and each index in [0, 64) is the index of its square. */
  lemma SquareIndexBijective()
    ensures forall r, c :: 0 <= r < 8 && 0 <= c < 8 ==> SquareAt(SquareIndex(r, c)) == Position(r, c)
    ensures forall i :: 0 <= i < NumSquares ==> IsValidPosition(SquareAt(i)) && SquareIndex(SquareAt(i).row, SquareAt(i).col) == i
  {
    forall r, c | 0 <= r < 8 && 0 <= c < 8
      ensures SquareAt(SquareIndex(r, c)) == Position(r, c)
    {
      assert (r * 8 + c) / 8 == r && (r * 8 + c) % 8 == c;
    }
  }

  /** Distinct squares of the board have distinct indices. */
  lemma SquareIndexInjective(r1: int, c1: int, r2: int, c2: int)
    requires 0 <= r1 < 8 && 0 <= c1 < 8 && 0 <= r2 < 8 && 0 <= c2 < 8
    requires SquareIndex(r1, c1) == SquareIndex(r2, c2)
    ensures r1 == r2 && c1 == c2
  {
  }

  /** The castling state as four bits: 1, 2, 4 and 8 for white king side, white queen side, black king side and black queen side. */
  function CastlingIndex(cr: CastlingRights): (i: nat)
    ensures i < 16
    ensures (i % 2 == 1) == cr.whiteKingSide
    ensures ((i / 2) % 2 == 1) == cr.whiteQueenSide
    ensures ((i / 4) % 2 == 1) == cr.blackKingSide
    ensures (i / 8 == 1) == cr.blackQueenSide
  {
    (if cr.whiteKingSide then 1 else 0) + (if cr.whiteQueenSide then 2 else 0) +
    (if cr.blackKingSide then 4 else 0) + (if cr.blackQueenSide then 8 else 0)
  }

  /** The castling index determines the castling state: distinct states use distinct keys. */
  lemma CastlingIndexInjective(a: CastlingRights, b: CastlingRights)
    requires CastlingIndex(a) == CastlingIndex(b)
    ensures a == b
  {
  }

  /**
   * The en-passant index: the target's column, or 8 when there is no target.
   * A target's column outside the table gives no index (the engine's lookup
   * yields no key there).
   */
  function EnPassantIndex(target: Option<Position>): (r: Option<nat>)
    ensures target.None? ==> r == Some(NoEnPassantIndex)
    ensures target.Some? && 0 <= target.value.col < 8 ==> r == Some(target.value.col as nat)
    ensures r.Some? ==> r.value <= NoEnPassantIndex
  {
    var ep := if target.Some? then target.value.col else NoEnPassantIndex;
    if 0 <= ep <= NoEnPassantIndex then Some(ep as nat) else None
  }

  // ---------------------------------------------------------------------------
  // The key table

  /**
   * `randomBigInt`: the high half shifted up by 32 bits and ORed with the low
   * half, which (the low half being below 2^32) is `high * 2^32 + low`.
   */
  function RandomBigInt(low: nat, high: nat): (r: nat)
    requires low < TwoTo32 && high < TwoTo32
    ensures r < TwoTo64
    ensures r / TwoTo32 == high && r % TwoTo32 == low
  {
    high * TwoTo32 + low
  }

  /** One random 32-bit half: `Math.floor(u * 2^32)` for a draw `u` in [0, 1). */
  function Half(u: real): (r: nat)
    requires 0.0 <= u < 1.0
    ensures r < TwoTo32
  {
    (u * TwoTo32 as real).Floor
  }

  predicate DrawsInRange(draws: seq<real>) {
    forall i :: 0 <= i < |draws| ==> 0.0 <= draws[i] < 1.0
  }

  /** The number of keys in a table: 6 * 2 * 64 piece keys, one side key, 16 castling keys and 9 en-passant keys. */
  const NumKeys: nat := 6 * 2 * 64 + 1 + 16 + 9

  /** The `n`-th key drawn: two draws, the low half first. */
  function NthKey(draws: seq<real>, n: nat): (r: nat)
    requires DrawsInRange(draws) && 2 * n + 1 < |draws|
    ensures r < TwoTo64
  {
    RandomBigInt(Half(draws[2 * n]), Half(draws[2 * n + 1]))
  }

  /** The 64 square keys of a piece type and colour, drawn square by square. */
  function SquareKeys(draws: seq<real>, t: nat, c: nat): (r: seq<nat>)
    requires DrawsInRange(draws) && |draws| >= 2 * NumKeys && t < 6 && c < 2
    ensures |r| == NumSquares
    ensures forall s :: 0 <= s < NumSquares ==> r[s] == NthKey(draws, t * 128 + c * 64 + s) && r[s] < TwoTo64
  {
    seq<nat>(NumSquares, s requires 0 <= s < NumSquares => NthKey(draws, t * 128 + c * 64 + s))
  }

  /** The keys of a piece type, white's 64 before black's. */
  function ColorKeys(draws: seq<real>, t: nat): (r: seq<seq<nat>>)
    requires DrawsInRange(draws) && |draws| >= 2 * NumKeys && t < 6
    ensures |r| == NumColors
    ensures forall c :: 0 <= c < NumColors ==> r[c] == SquareKeys(draws, t, c)
  {
    [SquareKeys(draws, t, 0), SquareKeys(draws, t, 1)]
  }

  /** `count` consecutive keys from the `first`-th on. */
  function KeyRun(draws: seq<real>, first: nat, count: nat): (r: seq<nat>)
    requires DrawsInRange(draws) && 2 * (first + count) <= |draws|
    ensures |r| == count
    ensures forall i :: 0 <= i < count ==> r[i] == NthKey(draws, first + i) && r[i] < TwoTo64
  {
    seq<nat>(count, i requires 0 <= i < count => NthKey(draws, first + i))
  }

  /**
   * `initializeZobristKeys`'s table from the draws, in the order the engine
   * draws them: the piece keys by type, colour and square, then the side key,
   * the castling keys and the en-passant keys.
   */
  function BuildKeys(draws: seq<real>): (k: ZobristKeys)
    requires DrawsInRange(draws) && |draws| >= 2 * NumKeys
    ensures WellShaped(k) && KeysFit(k)
    ensures forall t, c, s :: 0 <= t < 6 && 0 <= c < 2 && 0 <= s < 64 ==>
      k.pieceSquare[t][c][s] == NthKey(draws, t * 128 + c * 64 + s)
    ensures k.sideToMove == NthKey(draws, 768)
    ensures forall i :: 0 <= i < 16 ==> k.castlingRights[i] == NthKey(draws, 769 + i)
    ensures forall i :: 0 <= i < 9 ==> k.enPassantFile[i] == NthKey(draws, 785 + i)
  {
    var pieceSquare := seq(NumPieceTypes, t requires 0 <= t < NumPieceTypes => ColorKeys(draws, t));
    ZobristKeys(pieceSquare, NthKey(draws, 768), KeyRun(draws, 769, 16), KeyRun(draws, 785, 9))
  }

  // ---------------------------------------------------------------------------
  // The hash

  /** The key a square contributes: the key of its piece on it, or nothing when it is empty. */
  function SquareKey(k: ZobristKeys, b: Board, r: int, c: int): nat
    requires WellShaped(k) && ValidBoard(b) && 0 <= r < 8 && 0 <= c < 8
  {
    match b[r][c]
    case None => 0
    case Some(piece) => k.pieceSquare[TypeIndex(piece.kind)][ColorIndex(piece.color)][SquareIndex(r, c)]
  }

  /** The exclusive or of the square keys of the first `cols` squares of row `r`. */
  function RowHash(k: ZobristKeys, b: Board, r: int, cols: int): nat
    requires WellShaped(k) && ValidBoard(b) && 0 <= r < 8 && 0 <= cols <= |b[r]|
    decreases cols
  {
    if cols == 0 then 0 else Xor(RowHash(k, b, r, cols - 1), SquareKey(k, b, r, cols - 1))
  }

  /** The exclusive or of the square keys of the first `rows` rows. */
  function RowsHash(k: ZobristKeys, b: Board, rows: int): nat
    requires WellShaped(k) && ValidBoard(b) && 0 <= rows <= |b|
    decreases rows
  {
    if rows == 0 then 0 else Xor(RowsHash(k, b, rows - 1), RowHash(k, b, rows - 1, |b[rows - 1]|))
  }

  /**
   * The hash of a position: the board's pieces, the side key when black is to
   * move, the key of the castling state and the en-passant key. There is none
   * when the position has no castling rights or its en-passant column has no
   * key, where the engine cannot compute one.
   */
  function Hash(k: ZobristKeys, s: GameState): (h: Option<nat>)
    requires WellShaped(k) && ValidBoard(s.board)
    ensures h.Some? <==> s.castlingRights.Some? && EnPassantIndex(s.enPassantTarget).Some?
  {
    match (s.castlingRights, EnPassantIndex(s.enPassantTarget))
    case (Some(cr), Some(ep)) =>
      var side := if s.currentPlayer == Black then k.sideToMove else 0;
      Some(Xor(Xor(Xor(RowsHash(k, s.board, |s.board|), side), k.castlingRights[CastlingIndex(cr)]), k.enPassantFile[ep]))
    case _ => None
  }

  /** Every prefix of a row's keys fits in 64 bits when the keys do. */
  lemma {:induction false} RowHashFits(k: ZobristKeys, b: Board, r: int, cols: int)
    requires WellShaped(k) && KeysFit(k) && ValidBoard(b) && 0 <= r < 8 && 0 <= cols <= |b[r]|
    ensures RowHash(k, b, r, cols) < TwoTo64
    decreases cols
  {
    if cols > 0 {
      RowHashFits(k, b, r, cols - 1);
      Pow2Of64();
      XorFits(RowHash(k, b, r, cols - 1), SquareKey(k, b, r, cols - 1), 64);
    }
  }

  /** Every prefix of the board's rows fits in 64 bits when the keys do. */
  lemma {:induction false} RowsHashFits(k: ZobristKeys, b: Board, rows: int)
    requires WellShaped(k) && KeysFit(k) && ValidBoard(b) && 0 <= rows <= |b|
    ensures RowsHash(k, b, rows) < TwoTo64
    decreases rows
  {
    if rows > 0 {
      RowsHashFits(k, b, rows - 1);
      RowHashFits(k, b, rows - 1, |b[rows - 1]|);
      Pow2Of64();
      XorFits(RowsHash(k, b, rows - 1), RowHash(k, b, rows - 1, |b[rows - 1]|), 64);
    }
  }

  /** With 64-bit keys the hash is a 64-bit value. */
  lemma HashFits(k: ZobristKeys, s: GameState)
    requires WellShaped(k) && KeysFit(k) && ValidBoard(s.board) && Hash(k, s).Some?
    ensures Hash(k, s).value < TwoTo64
  {
    var cr := s.castlingRights.value;
    var ep := EnPassantIndex(s.enPassantTarget).value;
    var board := RowsHash(k, s.board, |s.board|);
    var side := if s.currentPlayer == Black then k.sideToMove else 0;
    RowsHashFits(k, s.board, |s.board|);
    Pow2Of64();
    XorFits(board, side, 64);
    XorFits(Xor(board, side), k.castlingRights[CastlingIndex(cr)], 64);
    XorFits(Xor(Xor(board, side), k.castlingRights[CastlingIndex(cr)]), k.enPassantFile[ep], 64);
  }

  /** The hash reads only the board, the side to move, the castling rights and the en-passant target. */
  lemma HashDependsOnlyOnPosition(k: ZobristKeys, s: GameState, t: GameState)
    requires WellShaped(k) && ValidBoard(s.board)
    requires s.board == t.board && s.currentPlayer == t.currentPlayer
    requires s.castlingRights == t.castlingRights && s.enPassantTarget == t.enPassantTarget
    ensures Hash(k, s) == Hash(k, t)
  {
  }

  /** Handing the move to black XORs the side key into the hash. */
  lemma SideToMoveToggles(k: ZobristKeys, s: GameState)
    requires WellShaped(k) && ValidBoard(s.board) && Hash(k, s).Some?
    ensures Hash(k, s.(currentPlayer := Black)) == Some(Xor(Hash(k, s.(currentPlayer := White)).value, k.sideToMove))
  {
    var cr := s.castlingRights.value;
    var ep := EnPassantIndex(s.enPassantTarget).value;
    var board := RowsHash(k, s.board, |s.board|);
    var side := k.sideToMove;
    var c := k.castlingRights[CastlingIndex(cr)];
    var e := k.enPassantFile[ep];
    XorZero(board);
    // move the side key past the castling key, then past the en-passant key
    XorAssociates(board, side, c);
    XorCommutes(side, c);
    XorAssociates(board, c, side);
    XorAssociates(Xor(board, c), side, e);
    XorCommutes(side, e);
    XorAssociates(Xor(board, c), e, side);
  }

  /** The board loops of `computeZobristHash`: the key of every piece XORed in, row by row. */
  method HashPieces(k: ZobristKeys, board: Board) returns (hash: nat)
    requires WellShaped(k) && ValidBoard(board)
    ensures hash == RowsHash(k, board, |board|)
  {
    hash := 0;
    for r := 0 to 8
      invariant hash == RowsHash(k, board, r)
    {
      XorZero(hash);
      for c := 0 to 8
        invariant hash == Xor(RowsHash(k, board, r), RowHash(k, board, r, c))
      {
        var piece := board[r][c];
        ghost var before := hash;
        if piece.Some? {
          var pieceIndex := TypeIndex(piece.value.kind);
          var colorIndex := ColorIndex(piece.value.color);
          var squareIndex := r * 8 + c;
          hash := Xor(hash, k.pieceSquare[pieceIndex][colorIndex][squareIndex]);
        }
        assert hash == Xor(before, SquareKey(k, board, r, c)) by {
          if piece.None? {
            XorZero(before);
          }
        }
        XorAssociates(RowsHash(k, board, r), RowHash(k, board, r, c), SquareKey(k, board, r, c));
      }
    }
  }

  /**
   * `computeZobristHash` once the table exists: the board's pieces, then the
   * side, castling and en-passant keys; no hash where the engine fails on a
   * missing castling state or an en-passant column without a key.
   */
  method HashWithKeys(k: ZobristKeys, s: GameState) returns (h: Option<nat>)
    requires WellShaped(k) && ValidBoard(s.board)
    ensures h == Hash(k, s)
  {
    var hash := HashPieces(k, s.board);
    if s.currentPlayer == Black {
      hash := Xor(hash, k.sideToMove);
    } else {
      XorZero(hash);
    }
    if s.castlingRights.None? {
      return None;
    }
    var castlingRights := s.castlingRights.value;
    var castlingIndex: bv8 := 0;
    if castlingRights.whiteKingSide { castlingIndex := castlingIndex | 1; }
    if castlingRights.whiteQueenSide { castlingIndex := castlingIndex | 2; }
    if castlingRights.blackKingSide { castlingIndex := castlingIndex | 4; }
    if castlingRights.blackQueenSide { castlingIndex := castlingIndex | 8; }
    assert castlingIndex as int == CastlingIndex(castlingRights);
    hash := Xor(hash, k.castlingRights[castlingIndex]);
    var epIndex := if s.enPassantTarget.Some? then s.enPassantTarget.value.col else NoEnPassantIndex;
    if !(0 <= epIndex < |k.enPassantFile|) {
      return None;
    }
    hash := Xor(hash, k.enPassantFile[epIndex]);
    return Some(hash);
  }

  /** The hasher: the key table is filled once, on first use, and kept from then on. */
  class ZobristHasher {
    var keys: Option<ZobristKeys>

    ghost predicate Valid()
      reads this
    {
      keys.Some? ==> WellShaped(keys.value) && KeysFit(keys.value)
    }

    /** A hasher without keys yet. */
    constructor()
      ensures Valid() && keys == None
    {
      keys := None;
    }

    /** `initializeZobristKeys`: fills the table from the draws unless it exists; once filled it never changes. */
    method InitializeKeys(draws: seq<real>)
      requires Valid() && DrawsInRange(draws) && |draws| >= 2 * NumKeys
      modifies this
      ensures Valid() && keys.Some?
      ensures old(keys).Some? ==> keys == old(keys)
      ensures old(keys).None? ==> keys == Some(BuildKeys(draws))
    {
      if keys.Some? {
        return;
      }
      keys := Some(BuildKeys(draws));
    }

    /** `computeZobristHash`: makes sure the table exists, then hashes the position with it. */
    method ComputeZobristHash(s: GameState, draws: seq<real>) returns (h: Option<nat>)
      requires Valid() && DrawsInRange(draws) && |draws| >= 2 * NumKeys && ValidBoard(s.board)
      modifies this
      ensures Valid() && keys.Some?
      ensures old(keys).Some? ==> keys == old(keys)
      ensures old(keys).None? ==> keys == Some(BuildKeys(draws))
      ensures h == Hash(keys.value, s)
      ensures h.Some? ==> h.value < TwoTo64
    {
      if keys.None? {
        InitializeKeys(draws);
      }
      h := HashWithKeys(keys.value, s);
      if h.Some? {
        HashFits(keys.value, s);
      }
    }
  }
}
