/**
 * The value types of the chess engine: pieces, squares, the 8x8 board, positions,
 * moves, castling rights, the game state and the AI difficulty tiers.
 */
module ChessTypes {
  import opened Wrappers

  datatype PieceType = Pawn | Knight | Bishop | Rook | Queen | King
  datatype PieceColor = White | Black

  datatype ChessPiece = ChessPiece(kind: PieceType, color: PieceColor)

  /** A square is empty (the source's `null`) or holds a piece. */
  type Square = Option<ChessPiece>

  /** Rows are indexed first: `board[row][col]`; row 0 is black's back rank. */
  type Board = seq<seq<Square>>

  datatype Position = Position(row: int, col: int)

  /** A move; every field after `piece` is optional, as in the source. */
  datatype Move = Move(
    from: Position,
    to: Position,
    piece: ChessPiece,
    capturedPiece: Option<ChessPiece>,
    isCheck: Option<bool>,
    isCheckmate: Option<bool>,
    isPromotion: Option<bool>,
    promotionPiece: Option<PieceType>,
    isCastling: Option<bool>,
    isEnPassant: Option<bool>)

  datatype CastlingRights = CastlingRights(
    whiteKingSide: bool,
    whiteQueenSide: bool,
    blackKingSide: bool,
    blackQueenSide: bool)

  datatype AIDifficulty = Beginner | Intermediate | Advanced | Expert

  /**
   * The game state. `castlingRights` and `enPassantTarget` are declared by the
   * source but a new game never sets them, so both are optional here: `None`
   * stands for the absent (undefined) field and, for the target, also for `null`.
   */
  datatype GameState = GameState(
    board: Board,
    currentPlayer: PieceColor,
    moveHistory: seq<Move>,
    isCheck: bool,
    isCheckmate: bool,
    isStalemate: bool,
    whiteKingPosition: Position,
    blackKingPosition: Position,
    aiDifficulty: AIDifficulty,
    castlingRights: Option<CastlingRights>,
    enPassantTarget: Option<Position>)

  function Opponent(c: PieceColor): (r: PieceColor)
    ensures r != c
  {
    if c == White then Black else White
  }

  /** An 8x8 grid: eight rows of eight squares. */
  predicate ValidBoard(b: Board) {
    |b| == 8 && forall r :: 0 <= r < 8 ==> |b[r]| == 8
  }

  /** `board[p.row][p.col]`, reading an off-board position as an empty square. */
  function At(b: Board, p: Position): Square {
    if 0 <= p.row < |b| && 0 <= p.col < |b[p.row]| then b[p.row][p.col] else None
  }

  /** The square holds a piece of colour `c`. */
  predicate HasColor(sq: Square, c: PieceColor) {
    sq.Some? && sq.value.color == c
  }
}
