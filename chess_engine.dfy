/**
 * The rules engine: the start position, pseudo-legal move generation per piece,
 * check detection on the cached king squares, the legality filter, the move
 * transition with its check / checkmate / stalemate flags, undo by replay and
 * square notation.
 *
 * Each operation is given twice where the engine computes it with loops: a
 * function that states what it computes, and a method with the loops of the
 * engine that is proved to compute exactly that function. Move generation reads
 * only the board, so the generators take the board rather than the whole state.
 * Castling, en passant and promotion are not implemented by the engine and so
 * are not part of this model.
 */
module ChessEngine {
  import opened Wrappers
  import opened Sequences
  import opened ChessTypes
  import opened BoardUtils

  // ---------------------------------------------------------------------------
  // The start position

  const SetupOrder: seq<PieceType> := [Rook, Knight, Bishop, Queen, King, Bishop, Knight, Rook]

  /** What the start position holds on square (r, c). */
  function InitialSquare(r: int, c: int): Square
    requires 0 <= c < 8
  {
    if r == 0 then Some(ChessPiece(SetupOrder[c], Black))
    else if r == 1 then Some(ChessPiece(Pawn, Black))
    else if r == 6 then Some(ChessPiece(Pawn, White))
    else if r == 7 then Some(ChessPiece(SetupOrder[c], White))
    else None
  }

  /** The square holds a king of colour `c`. */
  predicate IsKingOf(sq: Square, c: PieceColor) {
    sq == Some(ChessPiece(King, c))
  }

  /**
   * The start position: black's pieces on rows 0 and 1, white's on rows 6 and 7,
   * the back ranks in the order rook, knight, bishop, queen, king, bishop,
   * knight, rook, and exactly one king of each colour, on e8 and on e1.
   */
  function InitialBoard(): (b: Board)
    ensures ValidBoard(b)
    ensures forall c :: 0 <= c < 8 ==>
      b[1][c] == Some(ChessPiece(Pawn, Black)) && b[6][c] == Some(ChessPiece(Pawn, White))
    ensures forall c :: 0 <= c < 8 ==>
      b[0][c] == Some(ChessPiece(SetupOrder[c], Black)) && b[7][c] == Some(ChessPiece(SetupOrder[c], White))
    ensures forall r, c :: 2 <= r < 6 && 0 <= c < 8 ==> b[r][c] == None
    ensures forall p :: IsKingOf(At(b, p), White) <==> p == Position(7, 4)
    ensures forall p :: IsKingOf(At(b, p), Black) <==> p == Position(0, 4)
  {
    seq(8, r => seq(8, c requires 0 <= c < 8 => InitialSquare(r, c)))
  }

  /** `createInitialBoard`: fills an empty 8x8 grid with the pawn rows, then the back ranks. */
  method CreateInitialBoard() returns (board: Board)
    ensures board == InitialBoard()
  {
    var emptyRow: seq<Square> := seq(8, _ => None);
    board := seq(8, _ => emptyRow);
    for col := 0 to 8
      invariant ValidBoard(board)
      invariant forall r, c :: 0 <= r < 8 && 0 <= c < 8 ==>
        board[r][c] == if (r == 1 || r == 6) && c < col then InitialSquare(r, c) else None
    {
      board := board[1 := board[1][col := Some(ChessPiece(Pawn, Black))]];
      board := board[6 := board[6][col := Some(ChessPiece(Pawn, White))]];
    }
    for col := 0 to 8
      invariant ValidBoard(board)
      invariant forall r, c :: 0 <= r < 8 && 0 <= c < 8 ==>
        board[r][c] == if r == 1 || r == 6 || ((r == 0 || r == 7) && c < col) then InitialSquare(r, c) else None
    {
      board := board[0 := board[0][col := Some(ChessPiece(SetupOrder[col], Black))]];
      board := board[7 := board[7][col := Some(ChessPiece(SetupOrder[col], White))]];
    }
    forall r | 0 <= r < 8
      ensures board[r] == InitialBoard()[r]
    {
    }
  }

  /** The cached king squares hold kings of the right colour. */
  predicate KingCacheValid(s: GameState) {
    IsKingOf(At(s.board, s.whiteKingPosition), White) && IsKingOf(At(s.board, s.blackKingPosition), Black)
  }

  /**
   * A new game: the start position, white to move, no history, no flag set and
   * the king cache on e1 and e8. Castling rights and the en-passant target are
   * left absent, exactly as the engine leaves them.
   */
  function NewGame(aiDifficulty: AIDifficulty): (s: GameState)
    ensures s.board == InitialBoard() && s.currentPlayer == White && s.moveHistory == []
    ensures !s.isCheck && !s.isCheckmate && !s.isStalemate
    ensures s.whiteKingPosition == Position(7, 4) && s.blackKingPosition == Position(0, 4)
    ensures KingCacheValid(s)
    ensures s.aiDifficulty == aiDifficulty && s.castlingRights == None && s.enPassantTarget == None
  {
    GameState(InitialBoard(), White, [], false, false, false,
      Position(7, 4), Position(0, 4), aiDifficulty, None, None)
  }

  /** `createNewGame`. */
  method CreateNewGame(aiDifficulty: AIDifficulty) returns (s: GameState)
    ensures s == NewGame(aiDifficulty)
  {
    var board := CreateInitialBoard();
    s := GameState(board, White, [], false, false, false,
      Position(7, 4), Position(0, 4), aiDifficulty, None, None);
  }

  // ---------------------------------------------------------------------------
  // Pseudo-legal move generation

  /** A step of a piece: a row delta and a column delta. */
  datatype Offset = Offset(dr: int, dc: int)

  const KnightOffsets: seq<Offset> := [
    Offset(-2, -1), Offset(-2, 1), Offset(-1, -2), Offset(-1, 2),
    Offset(1, -2), Offset(1, 2), Offset(2, -1), Offset(2, 1)]

  const KingOffsets: seq<Offset> := [
    Offset(-1, -1), Offset(-1, 0), Offset(-1, 1), Offset(0, -1),
    Offset(0, 1), Offset(1, -1), Offset(1, 0), Offset(1, 1)]

  const BishopDirections: seq<Offset> := [Offset(-1, -1), Offset(-1, 1), Offset(1, -1), Offset(1, 1)]

  const RookDirections: seq<Offset> := [Offset(-1, 0), Offset(0, 1), Offset(1, 0), Offset(0, -1)]

  function Shift(p: Position, d: Offset): Position {
    Position(p.row + d.dr, p.col + d.dc)
  }

  /** A mover of colour `color` may land on `q`: on the board and not held by its own side. */
  predicate Reachable(b: Board, q: Position, color: PieceColor) {
    IsValidPosition(q) && !HasColor(At(b, q), color)
  }

  /**
   * The single-step destinations of a knight or a king on `p`: the offsets, in
   * order, that land on the board on a square not held by the mover's colour.
   */
  function StepMoves(b: Board, p: Position, color: PieceColor, offsets: seq<Offset>): seq<Position> {
    if offsets == [] then []
    else
      var q := Shift(p, offsets[|offsets| - 1]);
      StepMoves(b, p, color, offsets[..|offsets| - 1]) + (if Reachable(b, q, color) then [q] else [])
  }

  /** A step destination is exactly an offset's landing square that the mover may reach. */
  lemma {:induction false} StepMovesSpec(b: Board, p: Position, color: PieceColor, offsets: seq<Offset>)
    ensures forall q :: q in StepMoves(b, p, color, offsets) <==>
      Reachable(b, q, color) && exists i :: 0 <= i < |offsets| && q == Shift(p, offsets[i])
  {
    if offsets != [] {
      var init := offsets[..|offsets| - 1];
      StepMovesSpec(b, p, color, init);
      assert forall i :: 0 <= i < |init| ==> init[i] == offsets[i];
      forall q | Reachable(b, q, color) && exists i :: 0 <= i < |offsets| && q == Shift(p, offsets[i])
        ensures q in StepMoves(b, p, color, offsets)
      {
        var i :| 0 <= i < |offsets| && q == Shift(p, offsets[i]);
        if i < |init| {
          assert q == Shift(p, init[i]);
        }
      }
    }
  }

  function KnightMoves(b: Board, p: Position): (r: seq<Position>)
    requires At(b, p).Some?
  {
    StepMoves(b, p, At(b, p).value.color, KnightOffsets)
  }

  function KingMoves(b: Board, p: Position): (r: seq<Position>)
    requires At(b, p).Some?
  {
    StepMoves(b, p, At(b, p).value.color, KingOffsets)
  }

  /** `getKnightMoves` / `getKingMoves`: one pass over the offsets, pushing each destination. */
  method GetStepMoves(b: Board, p: Position, offsets: seq<Offset>) returns (moves: seq<Position>)
    requires ValidBoard(b) && At(b, p).Some?
    ensures moves == StepMoves(b, p, At(b, p).value.color, offsets)
  {
    var piece := At(b, p).value;
    moves := [];
    for i := 0 to |offsets|
      invariant moves == StepMoves(b, p, piece.color, offsets[..i])
    {
      var newRow, newCol := p.row + offsets[i].dr, p.col + offsets[i].dc;
      if 0 <= newRow < 8 && 0 <= newCol < 8 &&
        (b[newRow][newCol].None? || b[newRow][newCol].value.color != piece.color)
      {
        moves := moves + [Position(newRow, newCol)];
      }
      assert offsets[..i + 1][..i] == offsets[..i];
    }
    assert offsets[..|offsets|] == offsets;
  }

  method GetKnightMoves(b: Board, p: Position) returns (moves: seq<Position>)
    requires ValidBoard(b) && At(b, p).Some?
    ensures moves == KnightMoves(b, p)
  {
    moves := GetStepMoves(b, p, KnightOffsets);
  }

  method GetKingMoves(b: Board, p: Position) returns (moves: seq<Position>)
    requires ValidBoard(b) && At(b, p).Some?
    ensures moves == KingMoves(b, p)
  {
    moves := GetStepMoves(b, p, KingOffsets);
  }

  /** The pawn's diagonal captures: the offsets that land on the board on an enemy piece. */
  function PawnCaptures(b: Board, p: Position, color: PieceColor, dirs: seq<Offset>): seq<Position> {
    if dirs == [] then []
    else
      var q := Shift(p, dirs[|dirs| - 1]);
      PawnCaptures(b, p, color, dirs[..|dirs| - 1]) +
      (if IsValidPosition(q) && At(b, q).Some? && At(b, q).value.color != color then [q] else [])
  }

  /** A capture destination is exactly a diagonal's landing square on the board that holds an enemy piece. */
  lemma {:induction false} PawnCapturesSpec(b: Board, p: Position, color: PieceColor, dirs: seq<Offset>)
    ensures forall q :: q in PawnCaptures(b, p, color, dirs) <==>
      IsValidPosition(q) && HasColor(At(b, q), Opponent(color)) && exists i :: 0 <= i < |dirs| && q == Shift(p, dirs[i])
  {
    if dirs != [] {
      var init := dirs[..|dirs| - 1];
      PawnCapturesSpec(b, p, color, init);
      assert forall i :: 0 <= i < |init| ==> init[i] == dirs[i];
      forall q | IsValidPosition(q) && HasColor(At(b, q), Opponent(color)) && exists i :: 0 <= i < |dirs| && q == Shift(p, dirs[i])
        ensures q in PawnCaptures(b, p, color, dirs)
      {
        var i :| 0 <= i < |dirs| && q == Shift(p, dirs[i]);
        if i < |init| {
          assert q == Shift(p, init[i]);
        }
      }
    }
  }

  /** The row a pawn of colour `c` advances towards: up the board (-1) for white. */
  function PawnDirection(c: PieceColor): int {
    if c == White then -1 else 1
  }

  function PawnStartingRow(c: PieceColor): int {
    if c == White then 6 else 1
  }

  /** The pawn's forward pushes: one square if it is empty, then two from the starting row if that one is empty too. */
  function PawnPushes(b: Board, p: Position, color: PieceColor): seq<Position> {
    var dir := PawnDirection(color);
    var one := Position(p.row + dir, p.col);
    var two := Position(p.row + 2 * dir, p.col);
    if 0 <= one.row < 8 && At(b, one).None? then
      [one] + (if p.row == PawnStartingRow(color) && At(b, two).None? then [two] else [])
    else []
  }

  function PawnMoves(b: Board, p: Position): seq<Position>
    requires ValidBoard(b) && At(b, p).Some?
  {
    var color := At(b, p).value.color;
    var dir := PawnDirection(color);
    PawnPushes(b, p, color) + PawnCaptures(b, p, color, [Offset(dir, -1), Offset(dir, 1)])
  }

  /**
   * A pawn's destinations: straight ahead onto an empty square, or two ahead from
   * its starting row when both squares are empty, or one diagonal step ahead onto
   * an enemy piece. Every one is on the board and none holds its own colour.
   */
  lemma PawnMovesShape(b: Board, p: Position)
    requires ValidBoard(b) && At(b, p).Some?
    ensures var color := At(b, p).value.color;
      var dir := PawnDirection(color);
      forall q :: q in PawnMoves(b, p) <==>
        || (IsValidPosition(q) && q.col == p.col && At(b, q).None? &&
            (q.row == p.row + dir ||
             (p.row == PawnStartingRow(color) && q.row == p.row + 2 * dir && At(b, Position(p.row + dir, p.col)).None?)))
        || (IsValidPosition(q) && q.row == p.row + dir && (q.col == p.col - 1 || q.col == p.col + 1) &&
            HasColor(At(b, q), Opponent(color)))
    ensures forall q :: q in PawnMoves(b, p) ==> Reachable(b, q, At(b, p).value.color)
  {
    var color := At(b, p).value.color;
    var dir := PawnDirection(color);
    var dirs := [Offset(dir, -1), Offset(dir, 1)];
    PawnCapturesSpec(b, p, color, dirs);
    assert Shift(p, dirs[0]) == Position(p.row + dir, p.col - 1);
    assert Shift(p, dirs[1]) == Position(p.row + dir, p.col + 1);
  }

  /** The first half of `getPawnMoves`: the single push, and the double push from the starting row. */
  method GetPawnPushes(b: Board, p: Position, color: PieceColor) returns (moves: seq<Position>)
    requires ValidBoard(b) && IsValidPosition(p)
    ensures moves == PawnPushes(b, p, color)
  {
    var direction := if color == White then -1 else 1;
    var startingRow := if color == White then 6 else 1;
    moves := [];
    if 0 <= p.row + direction < 8 && b[p.row + direction][p.col].None? {
      moves := moves + [Position(p.row + direction, p.col)];
      if p.row == startingRow && b[p.row + 2 * direction][p.col].None? {
        moves := moves + [Position(p.row + 2 * direction, p.col)];
      }
    }
  }

  /** `getPawnMoves`: the pushes, then a pass over the two capture diagonals. */
  method GetPawnMoves(b: Board, p: Position) returns (moves: seq<Position>)
    requires ValidBoard(b) && At(b, p).Some?
    ensures moves == PawnMoves(b, p)
  {
    var piece := At(b, p).value;
    var direction := if piece.color == White then -1 else 1;
    moves := GetPawnPushes(b, p, piece.color);
    ghost var pushes := moves;
    var captureDirections := [Offset(direction, -1), Offset(direction, 1)];
    for i := 0 to 2
      invariant moves == pushes + PawnCaptures(b, p, piece.color, captureDirections[..i])
    {
      var newRow, newCol := p.row + captureDirections[i].dr, p.col + captureDirections[i].dc;
      if 0 <= newRow < 8 && 0 <= newCol < 8 && b[newRow][newCol].Some? && b[newRow][newCol].value.color != piece.color {
        moves := moves + [Position(newRow, newCol)];
      }
      assert captureDirections[..i + 1][..i] == captureDirections[..i];
    }
    assert captureDirections[..2] == captureDirections;
  }


  /** A king-line direction: each delta in -1..1 and not both zero. */
  predicate UnitOffset(d: Offset) {
    -1 <= d.dr <= 1 && -1 <= d.dc <= 1 && (d.dr != 0 || d.dc != 0)
  }

  function Clamp(x: int): nat {
    if x < 0 then 0 else x
  }

  /** How many steps along `d` may still stay on the board, summed over both axes; it drops at every on-board step. */
  function RayMeasure(r: int, c: int, d: Offset): nat {
    (if d.dr > 0 then Clamp(8 - r) else if d.dr < 0 then Clamp(r + 1) else 0) +
    (if d.dc > 0 then Clamp(8 - c) else if d.dc < 0 then Clamp(c + 1) else 0)
  }

  /**
   * The squares a slider of colour `color` reaches along `d`, starting at (r, c):
   * every empty square, up to and including the first occupied square when it
   * holds an enemy piece.
   */
  function Ray(b: Board, color: PieceColor, r: int, c: int, d: Offset): seq<Position>
    requires UnitOffset(d)
    decreases RayMeasure(r, c, d)
  {
    var q := Position(r, c);
    if !IsValidPosition(q) then []
    else if At(b, q).None? then [q] + Ray(b, color, r + d.dr, c + d.dc, d)
    else if At(b, q).value.color != color then [q]
    else []
  }

  /** The square after the last one of a ray: where the ray ran out, or its start when it is empty. */
  function RayEnd(ray: seq<Position>, r: int, c: int, d: Offset): Position {
    if ray == [] then Position(r, c) else Shift(ray[|ray| - 1], d)
  }

  /**
   * A ray is a run of consecutive squares along `d` from (r, c): all but possibly
   * the last are empty, the last is empty or holds an enemy piece, and a ray that
   * ends on an empty square (or is empty) stops only at the board's edge or at a
   * piece of the mover's own colour. Every square of it is reachable.
   */
  lemma {:induction false} RayShape(b: Board, color: PieceColor, r: int, c: int, d: Offset)
    requires UnitOffset(d)
    ensures var ray := Ray(b, color, r, c, d);
      && (|ray| > 0 ==> ray[0] == Position(r, c))
      && (forall k :: 0 <= k < |ray| - 1 ==> ray[k + 1] == Shift(ray[k], d) && At(b, ray[k]).None?)
      && (forall q :: q in ray ==> Reachable(b, q, color))
      && (|ray| > 0 ==> At(b, ray[|ray| - 1]).None? || HasColor(At(b, ray[|ray| - 1]), Opponent(color)))
      && (ray == [] || At(b, ray[|ray| - 1]).None? ==>
           !IsValidPosition(RayEnd(ray, r, c, d)) || HasColor(At(b, RayEnd(ray, r, c, d)), color))
    decreases RayMeasure(r, c, d)
  {
    var q := Position(r, c);
    if IsValidPosition(q) && At(b, q).None? {
      RayShape(b, color, r + d.dr, c + d.dc, d);
      var rest := Ray(b, color, r + d.dr, c + d.dc, d);
      var ray := Ray(b, color, r, c, d);
      assert ray == [q] + rest;
      forall k | 0 <= k < |ray| - 1
        ensures ray[k + 1] == Shift(ray[k], d) && At(b, ray[k]).None?
      {
        if k > 0 {
          assert ray[k] == rest[k - 1] && ray[k + 1] == rest[k];
        }
      }
      if rest != [] {
        assert ray[|ray| - 1] == rest[|rest| - 1];
      }
    }
  }

  predicate UnitOffsets(dirs: seq<Offset>) {
    forall i :: 0 <= i < |dirs| ==> UnitOffset(dirs[i])
  }

  /** The slider's destinations: the rays for the directions, in order, concatenated. */
  function SlidingMoves(b: Board, p: Position, dirs: seq<Offset>): seq<Position>
    requires At(b, p).Some? && UnitOffsets(dirs)
  {
    if dirs == [] then []
    else
      var d := dirs[|dirs| - 1];
      SlidingMoves(b, p, dirs[..|dirs| - 1]) + Ray(b, At(b, p).value.color, p.row + d.dr, p.col + d.dc, d)
  }

  /** Every sliding destination is reachable for the slider's colour. */
  lemma {:induction false} SlidingMovesReachable(b: Board, p: Position, dirs: seq<Offset>)
    requires At(b, p).Some? && UnitOffsets(dirs)
    ensures forall q :: q in SlidingMoves(b, p, dirs) ==> Reachable(b, q, At(b, p).value.color)
  {
    if dirs != [] {
      var d := dirs[|dirs| - 1];
      SlidingMovesReachable(b, p, dirs[..|dirs| - 1]);
      RayShape(b, At(b, p).value.color, p.row + d.dr, p.col + d.dc, d);
    }
  }

  /** Sliding along two lists of directions is sliding along the first, then along the second. */
  lemma {:induction false} SlidingMovesAppend(b: Board, p: Position, dirs1: seq<Offset>, dirs2: seq<Offset>)
    requires At(b, p).Some? && UnitOffsets(dirs1) && UnitOffsets(dirs2)
    ensures UnitOffsets(dirs1 + dirs2)
    ensures SlidingMoves(b, p, dirs1 + dirs2) == SlidingMoves(b, p, dirs1) + SlidingMoves(b, p, dirs2)
    decreases |dirs2|
  {
    if dirs2 == [] {
      assert dirs1 + dirs2 == dirs1;
    } else {
      var init := dirs2[..|dirs2| - 1];
      var d := dirs2[|dirs2| - 1];
      var ray := Ray(b, At(b, p).value.color, p.row + d.dr, p.col + d.dc, d);
      SlidingMovesAppend(b, p, dirs1, init);
      assert (dirs1 + dirs2)[..|dirs1 + dirs2| - 1] == dirs1 + init;
      assert (dirs1 + dirs2)[|dirs1 + dirs2| - 1] == d;
      assert SlidingMoves(b, p, dirs1 + dirs2) == SlidingMoves(b, p, dirs1 + init) + ray;
      assert SlidingMoves(b, p, dirs2) == SlidingMoves(b, p, init) + ray;
      AppendAssociates(SlidingMoves(b, p, dirs1), SlidingMoves(b, p, init), ray);
    }
  }

  function BishopMoves(b: Board, p: Position): seq<Position>
    requires At(b, p).Some?
  {
    SlidingMoves(b, p, BishopDirections)
  }

  function RookMoves(b: Board, p: Position): seq<Position>
    requires At(b, p).Some?
  {
    SlidingMoves(b, p, RookDirections)
  }

  function QueenMoves(b: Board, p: Position): seq<Position>
    requires At(b, p).Some?
  {
    BishopMoves(b, p) + RookMoves(b, p)
  }

  /** The queen slides along all eight king-line directions: the four diagonals, then the four files and ranks. */
  lemma QueenSlidesEightWays(b: Board, p: Position)
    requires At(b, p).Some?
    ensures QueenMoves(b, p) == SlidingMoves(b, p, BishopDirections + RookDirections)
  {
    SlidingMovesAppend(b, p, BishopDirections, RookDirections);
  }

  /** The `while` loop of `getSlidingMoves`: walks from (r, c) along `dir`, appending each square until the ray stops. */
  method WalkRay(b: Board, color: PieceColor, r: int, c: int, dir: Offset, start: seq<Position>)
    returns (moves: seq<Position>)
    requires ValidBoard(b) && UnitOffset(dir)
    ensures moves == start + Ray(b, color, r, c, dir)
  {
    moves := start;
    var newRow, newCol := r, c;
    while 0 <= newRow < 8 && 0 <= newCol < 8
      invariant moves + Ray(b, color, newRow, newCol, dir) == start + Ray(b, color, r, c, dir)
      decreases RayMeasure(newRow, newCol, dir)
    {
      if b[newRow][newCol].None? {
        moves := moves + [Position(newRow, newCol)];
      } else {
        if b[newRow][newCol].value.color != color {
          moves := moves + [Position(newRow, newCol)];
        }
        break;
      }
      newRow, newCol := newRow + dir.dr, newCol + dir.dc;
    }
  }

  /** `getSlidingMoves`: for each direction, step while on the board; stop at the first piece, taking it if it is an enemy. */
  method GetSlidingMoves(b: Board, p: Position, directions: seq<Offset>) returns (moves: seq<Position>)
    requires ValidBoard(b) && At(b, p).Some? && UnitOffsets(directions)
    ensures moves == SlidingMoves(b, p, directions)
  {
    var piece := At(b, p).value;
    moves := [];
    for i := 0 to |directions|
      invariant moves == SlidingMoves(b, p, directions[..i])
    {
      var dir := directions[i];
      moves := WalkRay(b, piece.color, p.row + dir.dr, p.col + dir.dc, dir, moves);
      assert directions[..i + 1][..i] == directions[..i];
    }
    assert directions[..|directions|] == directions;
  }


  method GetBishopMoves(b: Board, p: Position) returns (moves: seq<Position>)
    requires ValidBoard(b) && At(b, p).Some?
    ensures moves == BishopMoves(b, p)
  {
    moves := GetSlidingMoves(b, p, BishopDirections);
  }

  method GetRookMoves(b: Board, p: Position) returns (moves: seq<Position>)
    requires ValidBoard(b) && At(b, p).Some?
    ensures moves == RookMoves(b, p)
  {
    moves := GetSlidingMoves(b, p, RookDirections);
  }

  method GetQueenMoves(b: Board, p: Position) returns (moves: seq<Position>)
    requires ValidBoard(b) && At(b, p).Some?
    ensures moves == QueenMoves(b, p)
  {
    var bishop := GetBishopMoves(b, p);
    var rook := GetRookMoves(b, p);
    moves := bishop + rook;
  }

  /**
   * The pseudo-legal destinations from `p`: none from an empty square, otherwise
   * those of the piece standing there. Every one is on the board and none holds
   * a piece of the mover's colour.
   */
  function PotentialMoves(b: Board, p: Position): (r: seq<Position>)
    requires ValidBoard(b)
    ensures At(b, p).None? ==> r == []
    ensures forall q :: q in r ==> Reachable(b, q, At(b, p).value.color)
  {
    match At(b, p)
    case None => []
    case Some(piece) =>
      match piece.kind
      case Pawn => PawnMovesShape(b, p); PawnMoves(b, p)
      case Knight => StepMovesSpec(b, p, piece.color, KnightOffsets); KnightMoves(b, p)
      case Bishop => SlidingMovesReachable(b, p, BishopDirections); BishopMoves(b, p)
      case Rook => SlidingMovesReachable(b, p, RookDirections); RookMoves(b, p)
      case Queen =>
        SlidingMovesReachable(b, p, BishopDirections);
        SlidingMovesReachable(b, p, RookDirections);
        QueenMoves(b, p)
      case King => StepMovesSpec(b, p, piece.color, KingOffsets); KingMoves(b, p)
  }

  /** `getPotentialMoves`: dispatch on the piece type. */
  method GetPotentialMoves(b: Board, p: Position) returns (moves: seq<Position>)
    requires ValidBoard(b)
    ensures moves == PotentialMoves(b, p)
  {
    var piece := At(b, p);
    if piece.None? {
      return [];
    }
    match piece.value.kind
    case Pawn => moves := GetPawnMoves(b, p);
    case Knight => moves := GetKnightMoves(b, p);
    case Bishop => moves := GetBishopMoves(b, p);
    case Rook => moves := GetRookMoves(b, p);
    case Queen => moves := GetQueenMoves(b, p);
    case King => moves := GetKingMoves(b, p);
  }

  // ---------------------------------------------------------------------------
  // Check detection

  /** The cached king square of `color`. */
  function KingPosition(s: GameState, color: PieceColor): Position {
    if color == White then s.whiteKingPosition else s.blackKingPosition
  }

  /**
   * The piece on (r, c) belongs to the other side and reaches the cached king
   * square of `color`. (The engine hands the generator a copy of the state with
   * that piece's side to move; the generators read only the board.)
   */
  predicate AttacksKing(s: GameState, color: PieceColor, r: int, c: int)
    requires ValidBoard(s.board)
  {
    var sq := At(s.board, Position(r, c));
    sq.Some? && sq.value.color != color && KingPosition(s, color) in PotentialMoves(s.board, Position(r, c))
  }

  /** The king of `color` is in check: some enemy piece has its cached square among its pseudo-legal destinations. */
  predicate InCheck(s: GameState, color: PieceColor)
    requires ValidBoard(s.board)
  {
    exists r, c | 0 <= r < 8 && 0 <= c < 8 :: AttacksKing(s, color, r, c)
  }

  /** `isKingInCheck`: scans the board row by row and returns as soon as an enemy piece reaches the king square. */
  method IsKingInCheck(s: GameState, color: PieceColor) returns (inCheck: bool)
    requires ValidBoard(s.board)
    ensures inCheck == InCheck(s, color)
  {
    var kingPosition := if color == White then s.whiteKingPosition else s.blackKingPosition;
    for row := 0 to 8
      invariant forall r, c :: 0 <= r < row && 0 <= c < 8 ==> !AttacksKing(s, color, r, c)
    {
      for col := 0 to 8
        invariant forall r, c :: 0 <= r < row && 0 <= c < 8 ==> !AttacksKing(s, color, r, c)
        invariant forall c :: 0 <= c < col ==> !AttacksKing(s, color, row, c)
      {
        var piece := s.board[row][col];
        if piece.Some? && piece.value.color != color {
          var moves := GetPotentialMoves(s.board, Position(row, col));
          for i := 0 to |moves|
            invariant forall j :: 0 <= j < i ==> moves[j] != kingPosition
          {
            if moves[i] == kingPosition {
              assert AttacksKing(s, color, row, col);
              return true;
            }
          }
          assert !AttacksKing(s, color, row, col);
        } else {
          assert !AttacksKing(s, color, row, col);
        }
      }
    }
    return false;
  }

  /** Which board and cache the check test reads: two states agreeing on them agree on check. */
  lemma InCheckFrame(s: GameState, t: GameState, color: PieceColor)
    requires ValidBoard(s.board)
    requires s.board == t.board && s.whiteKingPosition == t.whiteKingPosition && s.blackKingPosition == t.blackKingPosition
    ensures InCheck(s, color) == InCheck(t, color)
  {
    forall r, c | 0 <= r < 8 && 0 <= c < 8
      ensures AttacksKing(s, color, r, c) == AttacksKing(t, color, r, c)
    {
    }
  }

  // ---------------------------------------------------------------------------
  // Simulating a move and the legality filter

  /** The board after `piece` moves from `from` to `to`: `to` holds the piece, `from` is empty, nothing else changes. */
  ghost predicate MovedOnBoard(before: Board, after: Board, from: Position, to: Position, piece: ChessPiece) {
    && At(after, to) == Some(piece)
    && (from != to ==> At(after, from) == None)
    && forall q :: q != from && q != to ==> At(after, q) == At(before, q)
  }

  /** A copy of the board with `from` cleared and then `to` set to `piece`. */
  function PlacePiece(b: Board, from: Position, to: Position, piece: ChessPiece): (r: Board)
    requires ValidBoard(b) && IsValidPosition(from) && IsValidPosition(to)
    ensures ValidBoard(r)
    ensures MovedOnBoard(b, r, from, to, piece)
  {
    var cleared := b[from.row := b[from.row][from.col := None]];
    cleared[to.row := cleared[to.row][to.col := Some(piece)]]
  }

  /**
   * `simulateMove`: the state with the piece moved on a copy of the board and the
   * king cache following a moving king; everything else is carried over.
   */
  function SimulateMove(s: GameState, from: Position, to: Position, piece: ChessPiece): (r: GameState)
    requires ValidBoard(s.board) && IsValidPosition(from) && IsValidPosition(to)
    ensures ValidBoard(r.board) && MovedOnBoard(s.board, r.board, from, to, piece)
    ensures r.whiteKingPosition == if piece == ChessPiece(King, White) then to else s.whiteKingPosition
    ensures r.blackKingPosition == if piece == ChessPiece(King, Black) then to else s.blackKingPosition
    ensures r == s.(board := r.board, whiteKingPosition := r.whiteKingPosition, blackKingPosition := r.blackKingPosition)
  {
    var newWhiteKingPosition := if piece.kind == King && piece.color == White then to else s.whiteKingPosition;
    var newBlackKingPosition := if piece.kind == King && piece.color == Black then to else s.blackKingPosition;
    s.(board := PlacePiece(s.board, from, to, piece),
       whiteKingPosition := newWhiteKingPosition,
       blackKingPosition := newBlackKingPosition)
  }

  predicate HoldsKing(sq: Square) {
    sq.Some? && sq.value.kind == King
  }

  /**
   * Moving the piece that stands on `from` keeps the king cache right, unless the
   * move lands on a king.
   */
  lemma SimulateMoveKeepsKingCache(s: GameState, from: Position, to: Position, piece: ChessPiece)
    requires ValidBoard(s.board) && IsValidPosition(from) && IsValidPosition(to)
    requires KingCacheValid(s) && At(s.board, from) == Some(piece) && !HoldsKing(At(s.board, to))
    ensures KingCacheValid(SimulateMove(s, from, to, piece))
  {
  }

  /** The destinations among `moves` after which the mover's king is not in check. */
  function KeepSafe(s: GameState, from: Position, piece: ChessPiece, moves: seq<Position>): (r: seq<Position>)
    requires ValidBoard(s.board) && IsValidPosition(from)
    requires forall q :: q in moves ==> IsValidPosition(q)
    ensures forall q :: q in r <==> q in moves && !InCheck(SimulateMove(s, from, q, piece), s.currentPlayer)
  {
    if moves == [] then []
    else
      var q := moves[|moves| - 1];
      var known := KeepSafe(s, from, piece, moves[..|moves| - 1]);
      assert moves == moves[..|moves| - 1] + [q];
      known + (if InCheck(SimulateMove(s, from, q, piece), s.currentPlayer) then [] else [q])
  }

  /**
   * `getLegalMoves`: nothing unless `p` holds a piece of the side to move;
   * otherwise exactly the pseudo-legal destinations after which the mover's king
   * is not in check.
   */
  function LegalMoves(s: GameState, p: Position): (r: seq<Position>)
    requires ValidBoard(s.board)
    ensures !HasColor(At(s.board, p), s.currentPlayer) ==> r == []
    ensures HasColor(At(s.board, p), s.currentPlayer) ==>
      forall q :: q in r <==>
        q in PotentialMoves(s.board, p) && !InCheck(SimulateMove(s, p, q, At(s.board, p).value), s.currentPlayer)
  {
    var piece := At(s.board, p);
    if piece.None? || piece.value.color != s.currentPlayer then []
    else KeepSafe(s, p, piece.value, PotentialMoves(s.board, p))
  }

  /** Square (r, c) holds a piece of the side to move with at least one legal destination. */
  predicate CanMoveFrom(s: GameState, r: int, c: int)
    requires ValidBoard(s.board)
  {
    HasColor(At(s.board, Position(r, c)), s.currentPlayer) && |LegalMoves(s, Position(r, c))| > 0
  }

  /** Some piece of the side to move has a legal move. */
  predicate HasAnyLegalMove(s: GameState)
    requires ValidBoard(s.board)
  {
    exists r, c | 0 <= r < 8 && 0 <= c < 8 :: CanMoveFrom(s, r, c)
  }

  /** `hasLegalMoves`: scans the board and returns as soon as a piece of the side to move has a legal move. */
  method HasLegalMoves(s: GameState) returns (has: bool)
    requires ValidBoard(s.board)
    ensures has == HasAnyLegalMove(s)
  {
    for row := 0 to 8
      invariant forall r, c :: 0 <= r < row && 0 <= c < 8 ==> !CanMoveFrom(s, r, c)
    {
      for col := 0 to 8
        invariant forall r, c :: 0 <= r < row && 0 <= c < 8 ==> !CanMoveFrom(s, r, c)
        invariant forall c :: 0 <= c < col ==> !CanMoveFrom(s, row, c)
      {
        var piece := s.board[row][col];
        if piece.Some? && piece.value.color == s.currentPlayer {
          var legalMoves := LegalMoves(s, Position(row, col));
          if |legalMoves| > 0 {
            assert CanMoveFrom(s, row, col);
            return true;
          }
        }
      }
    }
    return false;
  }

  /** `isCheckmate`: the side to move has no legal move (the caller has found it in check). */
  method IsCheckmate(s: GameState) returns (mate: bool)
    requires ValidBoard(s.board)
    ensures mate == !HasAnyLegalMove(s)
  {
    var has := HasLegalMoves(s);
    mate := !has;
  }

  /** `isStalemate`: the side to move has no legal move (the caller has found it not in check). */
  method IsStalemate(s: GameState) returns (stale: bool)
    requires ValidBoard(s.board)
    ensures stale == !HasAnyLegalMove(s)
  {
    var has := HasLegalMoves(s);
    stale := !has;
  }

  /** The legal destinations read only the board, the side to move and the king cache. */
  lemma {:induction false} KeepSafeFrame(s: GameState, t: GameState, from: Position, piece: ChessPiece, moves: seq<Position>)
    requires ValidBoard(s.board) && IsValidPosition(from)
    requires forall q :: q in moves ==> IsValidPosition(q)
    requires s.board == t.board && s.currentPlayer == t.currentPlayer
    requires s.whiteKingPosition == t.whiteKingPosition && s.blackKingPosition == t.blackKingPosition
    ensures KeepSafe(s, from, piece, moves) == KeepSafe(t, from, piece, moves)
  {
    if moves != [] {
      var q := moves[|moves| - 1];
      KeepSafeFrame(s, t, from, piece, moves[..|moves| - 1]);
      InCheckFrame(SimulateMove(s, from, q, piece), SimulateMove(t, from, q, piece), s.currentPlayer);
    }
  }

  lemma LegalMovesFrame(s: GameState, t: GameState, p: Position)
    requires ValidBoard(s.board)
    requires s.board == t.board && s.currentPlayer == t.currentPlayer
    requires s.whiteKingPosition == t.whiteKingPosition && s.blackKingPosition == t.blackKingPosition
    ensures LegalMoves(s, p) == LegalMoves(t, p)
  {
    var piece := At(s.board, p);
    if piece.Some? && piece.value.color == s.currentPlayer {
      KeepSafeFrame(s, t, p, piece.value, PotentialMoves(s.board, p));
    }
  }

  lemma HasAnyLegalMoveFrame(s: GameState, t: GameState)
    requires ValidBoard(s.board)
    requires s.board == t.board && s.currentPlayer == t.currentPlayer
    requires s.whiteKingPosition == t.whiteKingPosition && s.blackKingPosition == t.blackKingPosition
    ensures HasAnyLegalMove(s) == HasAnyLegalMove(t)
  {
    forall r, c | 0 <= r < 8 && 0 <= c < 8
      ensures CanMoveFrom(s, r, c) == CanMoveFrom(t, r, c)
    {
      LegalMovesFrame(s, t, Position(r, c));
    }
  }

  /** A move a legal destination admits leaves the mover's own king out of check. */
  lemma LegalMoveKeepsKingSafe(s: GameState, p: Position, q: Position)
    requires ValidBoard(s.board) && q in LegalMoves(s, p)
    ensures HasColor(At(s.board, p), s.currentPlayer) && IsValidPosition(p) && IsValidPosition(q)
    ensures !InCheck(SimulateMove(s, p, q, At(s.board, p).value), s.currentPlayer)
  {
  }

  /** Every legal destination lies on the board, and only a piece of the side to move has any. */
  lemma LegalMovesOnBoard(s: GameState, p: Position)
    requires ValidBoard(s.board)
    ensures forall q :: q in LegalMoves(s, p) ==> IsValidPosition(q)
    ensures |LegalMoves(s, p)| > 0 ==> HasColor(At(s.board, p), s.currentPlayer)
  {
    forall q | q in LegalMoves(s, p)
      ensures IsValidPosition(q)
    {
      LegalMoveKeepsKingSafe(s, p, q);
    }
  }

  // ---------------------------------------------------------------------------
  // Making a move

  /** The squares of the move lie on the board (the engine indexes its rows with them). */
  predicate MoveOnBoard(m: Move) {
    IsValidPosition(m.from) && IsValidPosition(m.to)
  }

  /** The position after the move, before its flags are set: the simulated move, the other side to move and the longer history. */
  function Moved(s: GameState, m: Move): GameState
    requires ValidBoard(s.board) && MoveOnBoard(m)
  {
    var nextPlayer := if s.currentPlayer == White then Black else White;
    SimulateMove(s, m.from, m.to, m.piece).(currentPlayer := nextPlayer, moveHistory := s.moveHistory + [m])
  }

  /**
   * The flags of `makeMove`: check for the side to move, then either the
   * checkmate flag (in check) or the stalemate flag (not in check) from the
   * mobility scan; the other of the two is carried over.
   */
  function WithFlags(t: GameState): GameState
    requires ValidBoard(t.board)
  {
    var flagged := t.(isCheck := InCheck(t, t.currentPlayer));
    if flagged.isCheck then flagged.(isCheckmate := !HasAnyLegalMove(flagged))
    else flagged.(isStalemate := !HasAnyLegalMove(flagged))
  }

  /**
   * `makeMove`: the piece moved on a copy of the board, the king cache following
   * a king, the other side to move, the move appended to the history and
   * nothing else changed but the flags (see `ApplyMoveFlags`).
   */
  function ApplyMove(s: GameState, m: Move): (r: GameState)
    requires ValidBoard(s.board) && MoveOnBoard(m)
    ensures ValidBoard(r.board) && MovedOnBoard(s.board, r.board, m.from, m.to, m.piece)
    ensures r.currentPlayer == Opponent(s.currentPlayer)
    ensures r.moveHistory == s.moveHistory + [m]
    ensures r.whiteKingPosition == if m.piece == ChessPiece(King, White) then m.to else s.whiteKingPosition
    ensures r.blackKingPosition == if m.piece == ChessPiece(King, Black) then m.to else s.blackKingPosition
    ensures r.aiDifficulty == s.aiDifficulty && r.castlingRights == s.castlingRights
    ensures r.enPassantTarget == s.enPassantTarget
  {
    WithFlags(Moved(s, m))
  }

  /**
   * The flags after a move describe the new position: `isCheck` is whether the
   * side now to move is in check; in check, `isCheckmate` is whether that side
   * has no legal move, and out of check `isStalemate` is; the other flag keeps
   * its old value.
   */
  lemma ApplyMoveFlags(s: GameState, m: Move)
    requires ValidBoard(s.board) && MoveOnBoard(m)
    ensures var r := ApplyMove(s, m);
      && r.isCheck == InCheck(r, r.currentPlayer)
      && (r.isCheck ==> r.isCheckmate == !HasAnyLegalMove(r) && r.isStalemate == s.isStalemate)
      && (!r.isCheck ==> r.isStalemate == !HasAnyLegalMove(r) && r.isCheckmate == s.isCheckmate)
  {
    var t := Moved(s, m);
    var flagged := t.(isCheck := InCheck(t, t.currentPlayer));
    var r := ApplyMove(s, m);
    InCheckFrame(t, r, t.currentPlayer);
    HasAnyLegalMoveFrame(flagged, r);
  }

  /** `makeMove`: copies the board, moves the piece, then sets the flags through the check and mobility scans. */
  method MakeMove(s: GameState, m: Move) returns (r: GameState)
    requires ValidBoard(s.board) && MoveOnBoard(m)
    ensures r == ApplyMove(s, m)
  {
    var newBoard := s.board;
    newBoard := newBoard[m.from.row := newBoard[m.from.row][m.from.col := None]];
    newBoard := newBoard[m.to.row := newBoard[m.to.row][m.to.col := Some(m.piece)]];
    var newWhiteKingPosition := s.whiteKingPosition;
    var newBlackKingPosition := s.blackKingPosition;
    if m.piece.kind == King {
      if m.piece.color == White {
        newWhiteKingPosition := m.to;
      } else {
        newBlackKingPosition := m.to;
      }
    }
    var nextPlayer := if s.currentPlayer == White then Black else White;
    r := s.(board := newBoard, currentPlayer := nextPlayer, moveHistory := s.moveHistory + [m],
            whiteKingPosition := newWhiteKingPosition, blackKingPosition := newBlackKingPosition);
    assert r == Moved(s, m);
    ghost var moved := r;
    var inCheck := IsKingInCheck(r, nextPlayer);
    r := r.(isCheck := inCheck);
    if inCheck {
      var mate := IsCheckmate(r);
      r := r.(isCheckmate := mate);
      assert r == WithFlags(moved);
    } else {
      var stale := IsStalemate(r);
      r := r.(isStalemate := stale);
      assert r == WithFlags(moved);
    }
  }

  /**
   * Making a move whose piece stands on `from` keeps the king cache right, unless
   * the move lands on a king; a king's move carries the cache with it.
   */
  lemma ApplyMoveKeepsKingCache(s: GameState, m: Move)
    requires ValidBoard(s.board) && MoveOnBoard(m)
    requires KingCacheValid(s) && At(s.board, m.from) == Some(m.piece) && !HoldsKing(At(s.board, m.to))
    ensures KingCacheValid(ApplyMove(s, m))
  {
    SimulateMoveKeepsKingCache(s, m.from, m.to, m.piece);
  }

  /** The move the legality filter admits leaves the side that made it out of check. */
  lemma LegalMoveLeavesMoverSafe(s: GameState, m: Move)
    requires ValidBoard(s.board) && m.to in LegalMoves(s, m.from) && m.piece == At(s.board, m.from).value
    ensures MoveOnBoard(m)
    ensures !InCheck(ApplyMove(s, m), s.currentPlayer)
  {
    LegalMoveKeepsKingSafe(s, m.from, m.to);
    InCheckFrame(SimulateMove(s, m.from, m.to, m.piece), ApplyMove(s, m), s.currentPlayer);
  }

  // ---------------------------------------------------------------------------
  // Undo by replay

  /** Every move of the history lies on the board. */
  predicate HistoryOnBoard(h: seq<Move>) {
    forall i :: 0 <= i < |h| ==> MoveOnBoard(h[i])
  }

  /** The side to move after `n` moves starting with `c`. */
  function PlayerAfter(c: PieceColor, n: nat): PieceColor {
    if n == 0 then c else Opponent(PlayerAfter(c, n - 1))
  }

  /** The sides alternate: after an even number of moves the starting side is to move again. */
  lemma {:induction false} PlayerAfterParity(c: PieceColor, n: nat)
    ensures PlayerAfter(c, n) == if n % 2 == 0 then c else Opponent(c)
  {
    if n > 0 {
      PlayerAfterParity(c, n - 1);
    }
  }

  /** The state reached by making the moves of `h` in order from `s`. */
  function Replay(s: GameState, h: seq<Move>): (r: GameState)
    requires ValidBoard(s.board) && HistoryOnBoard(h)
    ensures ValidBoard(r.board)
    ensures r.moveHistory == s.moveHistory + h
    ensures r.currentPlayer == PlayerAfter(s.currentPlayer, |h|)
    ensures r.aiDifficulty == s.aiDifficulty
    decreases |h|
  {
    if h == [] then s
    else
      var prior := Replay(s, h[..|h| - 1]);
      assert s.moveHistory + h == s.moveHistory + h[..|h| - 1] + [h[|h| - 1]];
      ApplyMove(prior, h[|h| - 1])
  }

  /**
   * `undoMove`: a state without history comes back unchanged; otherwise a new
   * game at the same difficulty replays every move but the last.
   */
  function Undo(s: GameState): (r: GameState)
    requires |s.moveHistory| > 0 ==> HistoryOnBoard(s.moveHistory[..|s.moveHistory| - 1])
    ensures |s.moveHistory| == 0 ==> r == s
    ensures |s.moveHistory| > 0 ==> r.moveHistory == s.moveHistory[..|s.moveHistory| - 1]
    ensures |s.moveHistory| > 0 ==> r.aiDifficulty == s.aiDifficulty
    ensures |s.moveHistory| > 0 ==> r.currentPlayer == PlayerAfter(White, |s.moveHistory| - 1)
  {
    var h := s.moveHistory;
    if |h| == 0 then s
    else Replay(NewGame(s.aiDifficulty), h[..|h| - 1])
  }

  /** `undoMove`: the replay loop over all moves but the last. */
  method UndoMove(s: GameState) returns (r: GameState)
    requires |s.moveHistory| > 0 ==> HistoryOnBoard(s.moveHistory[..|s.moveHistory| - 1])
    ensures r == Undo(s)
  {
    var moveHistory := s.moveHistory;
    if |moveHistory| == 0 {
      return s;
    }
    r := CreateNewGame(s.aiDifficulty);
    for i := 0 to |moveHistory| - 1
      invariant r == Replay(NewGame(s.aiDifficulty), moveHistory[..i])
    {
      assert moveHistory[..i + 1][..i] == moveHistory[..i];
      assert moveHistory[..|moveHistory| - 1][i] == moveHistory[i];
      r := MakeMove(r, moveHistory[i]);
    }
  }

  /**
   * Undo takes back a move: for a game played from the start, making a move and
   * then undoing it gives back the state before the move.
   */
  lemma UndoAfterMove(d: AIDifficulty, h: seq<Move>, m: Move)
    requires HistoryOnBoard(h) && MoveOnBoard(m)
    ensures HistoryOnBoard(ApplyMove(Replay(NewGame(d), h), m).moveHistory)
    ensures Undo(ApplyMove(Replay(NewGame(d), h), m)) == Replay(NewGame(d), h)
  {
    var s := Replay(NewGame(d), h);
    var t := ApplyMove(s, m);
    assert t.moveHistory == h + [m];
    assert t.moveHistory[..|t.moveHistory| - 1] == h;
  }

  // ---------------------------------------------------------------------------
  // Notation

  /** The character at index `i` of `s`, absent outside the string (the engine's index lookup). */
  function CharAt(s: string, i: int): (r: Option<char>)
    ensures r.Some? <==> 0 <= i < |s|
    ensures r.Some? ==> r.value == s[i]
  {
    if 0 <= i < |s| then Some(s[i]) else None
  }

  /**
   * `toAlgebraic`: file letter then rank digit. An index outside the eight files
   * or ranks yields no character, and concatenating that absent value prints it
   * as "undefined"; two absent values add up to the number NaN, written here as it prints.
   */
  function ToAlgebraic(p: Position): (r: string)
    ensures IsValidPosition(p) ==> r == PositionToString(p)
    ensures |r| == 2 <==> IsValidPosition(p)
    ensures |r| >= 2
  {
    match (CharAt(Files, p.col), CharAt(Ranks, p.row))
    case (Some(f), Some(k)) => [f, k]
    case (Some(f), None) => [f] + "undefined"
    case (None, Some(k)) => "undefined" + [k]
    case (None, None) => "NaN"
  }

  /** `moveToAlgebraic`: the origin's name followed by the destination's. */
  function MoveToAlgebraic(m: Move): (r: string)
    ensures |r| == 4 <==> MoveOnBoard(m)
    ensures MoveOnBoard(m) ==> StringToPosition(r[..2]) == Some(m.from) && StringToPosition(r[2..]) == Some(m.to)
  {
    var from := ToAlgebraic(m.from);
    var to := ToAlgebraic(m.to);
    if MoveOnBoard(m) then
      ParseNameRoundTrip(m.from);
      ParseNameRoundTrip(m.to);
      assert (from + to)[..2] == from && (from + to)[2..] == to;
      from + to
    else from + to
  }
}
