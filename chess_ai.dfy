/**
 * The computer opponent. Every difficulty plays the beginner strategy: collect
 * every legal move of the side to move, split them into captures and quiet
 * moves, and pick uniformly from a pool holding the quiet moves once and the
 * captures three times. The random draw is a parameter `u` in [0, 1).
 */
module ChessAI {
  import opened Wrappers
  import opened Sequences
  import opened ChessTypes
  import opened BoardUtils
  import opened ChessEngine

  /** A move the beginner may pick: an origin and a destination. */
  datatype Candidate = Candidate(from: Position, to: Position)

  // ---------------------------------------------------------------------------
  // The candidates, in the order the board scan finds them

  /** The candidates from `from` to each of `tos`, in order. */
  function Pairs(from: Position, tos: seq<Position>): seq<Candidate>
    decreases |tos|
  {
    if tos == [] then []
    else Pairs(from, tos[..|tos| - 1]) + [Candidate(from, tos[|tos| - 1])]
  }

  lemma {:induction false} PairsSpec(from: Position, tos: seq<Position>)
    ensures |Pairs(from, tos)| == |tos|
    ensures forall m :: m in Pairs(from, tos) <==> m.from == from && m.to in tos
    decreases |tos|
  {
    if tos != [] {
      PairsSpec(from, tos[..|tos| - 1]);
      assert tos == tos[..|tos| - 1] + [tos[|tos| - 1]];
    }
  }

  /**
   * The scan below is written over any table `legal` of destinations per
   * square; `Destinations(s)` plugs in the engine's legal moves.
   */
  function Destinations(s: GameState): Position -> seq<Position>
    requires ValidBoard(s.board)
  {
    p => LegalMoves(s, p)
  }

  /** The candidates of square (r, c): its destinations when it holds a piece of `color`. */
  function FromSquare(b: Board, color: PieceColor, legal: Position -> seq<Position>, r: int, c: int): seq<Candidate> {
    var p := Position(r, c);
    if HasColor(At(b, p), color) then Pairs(p, legal(p)) else []
  }

  /** The candidates of the first `cols` squares of row `r`. */
  function RowScan(b: Board, color: PieceColor, legal: Position -> seq<Position>, r: int, cols: int): seq<Candidate>
    requires ValidBoard(b) && 0 <= r < 8 && 0 <= cols <= |b[r]|
    decreases cols
  {
    if cols == 0 then [] else RowScan(b, color, legal, r, cols - 1) + FromSquare(b, color, legal, r, cols - 1)
  }

  /** The candidates of the first `rows` rows. */
  function ScanRows(b: Board, color: PieceColor, legal: Position -> seq<Position>, rows: int): seq<Candidate>
    requires ValidBoard(b) && 0 <= rows <= |b|
    decreases rows
  {
    if rows == 0 then [] else ScanRows(b, color, legal, rows - 1) + RowScan(b, color, legal, rows - 1, |b[rows - 1]|)
  }

  /** A destination of a piece of `color` listed by `legal`. */
  predicate Listed(b: Board, color: PieceColor, legal: Position -> seq<Position>, m: Candidate) {
    IsValidPosition(m.from) && HasColor(At(b, m.from), color) && m.to in legal(m.from)
  }

  lemma FromSquareSpec(b: Board, color: PieceColor, legal: Position -> seq<Position>, r: int, c: int)
    requires 0 <= r < 8 && 0 <= c < 8
    ensures forall m :: m in FromSquare(b, color, legal, r, c) <==> m.from == Position(r, c) && Listed(b, color, legal, m)
  {
    var p := Position(r, c);
    if HasColor(At(b, p), color) {
      PairsSpec(p, legal(p));
    }
  }

  lemma {:induction false} RowScanSpec(b: Board, color: PieceColor, legal: Position -> seq<Position>, r: int, cols: int)
    requires ValidBoard(b) && 0 <= r < 8 && 0 <= cols <= |b[r]|
    ensures forall m :: m in RowScan(b, color, legal, r, cols) <==> m.from.row == r && m.from.col < cols && Listed(b, color, legal, m)
    decreases cols
  {
    if cols > 0 {
      RowScanSpec(b, color, legal, r, cols - 1);
      FromSquareSpec(b, color, legal, r, cols - 1);
    }
  }

  lemma {:induction false} ScanRowsSpec(b: Board, color: PieceColor, legal: Position -> seq<Position>, rows: int)
    requires ValidBoard(b) && 0 <= rows <= |b|
    ensures forall m :: m in ScanRows(b, color, legal, rows) <==> m.from.row < rows && Listed(b, color, legal, m)
    decreases rows
  {
    if rows > 0 {
      ScanRowsSpec(b, color, legal, rows - 1);
      RowScanSpec(b, color, legal, rows - 1, |b[rows - 1]|);
    }
  }

  /** Every candidate of the position, row by row and square by square. */
  function Candidates(s: GameState): seq<Candidate>
    requires ValidBoard(s.board)
  {
    ScanRows(s.board, s.currentPlayer, Destinations(s), |s.board|)
  }

  /** What a candidate is: a legal destination of a piece of the side to move. */
  predicate IsLegalCandidate(s: GameState, m: Candidate)
    requires ValidBoard(s.board)
  {
    IsValidPosition(m.from) && HasColor(At(s.board, m.from), s.currentPlayer) && m.to in LegalMoves(s, m.from)
  }

  /** The candidates are exactly the legal moves of the side to move. */
  lemma CandidatesSpec(s: GameState)
    requires ValidBoard(s.board)
    ensures forall m :: m in Candidates(s) <==> IsLegalCandidate(s, m)
  {
    ScanRowsSpec(s.board, s.currentPlayer, Destinations(s), |s.board|);
    forall m
      ensures Listed(s.board, s.currentPlayer, Destinations(s), m) <==> IsLegalCandidate(s, m)
    {
      assert Destinations(s)(m.from) == LegalMoves(s, m.from);
    }
  }

  /** A legal move of the side to move makes a candidate. */
  lemma LegalMoveIsCandidate(s: GameState, m: Candidate)
    requires ValidBoard(s.board) && IsLegalCandidate(s, m)
    ensures m in Candidates(s)
  {
    CandidatesSpec(s);
  }

  /** A side with a legal move has a candidate. */
  lemma CandidatesCoverMoves(s: GameState)
    requires ValidBoard(s.board) && HasAnyLegalMove(s)
    ensures |Candidates(s)| > 0
  {
    var r, c :| 0 <= r < 8 && 0 <= c < 8 && CanMoveFrom(s, r, c);
    var p := Position(r, c);
    var moves := LegalMoves(s, p);
    var q := moves[0];
    assert q in moves;
    LegalMoveIsCandidate(s, Candidate(p, q));
  }

  /** A candidate is a legal move of the side to move. */
  lemma CandidatesNeedMoves(s: GameState)
    requires ValidBoard(s.board) && |Candidates(s)| > 0
    ensures HasAnyLegalMove(s)
  {
    var m := Candidates(s)[0];
    CandidatesSpec(s);
    assert IsLegalCandidate(s, m);
    assert m.to in LegalMoves(s, m.from);
    assert CanMoveFrom(s, m.from.row, m.from.col);
  }

  /** There is a candidate exactly when the side to move has a legal move. */
  lemma CandidatesEmptyIff(s: GameState)
    requires ValidBoard(s.board)
    ensures |Candidates(s)| == 0 <==> !HasAnyLegalMove(s)
  {
    if HasAnyLegalMove(s) {
      CandidatesCoverMoves(s);
    }
    if |Candidates(s)| > 0 {
      CandidatesNeedMoves(s);
    }
  }

  // ---------------------------------------------------------------------------
  // Captures and quiet moves

  /** A candidate whose destination is occupied. */
  predicate IsCapture(b: Board, m: Candidate) {
    At(b, m.to).Some?
  }

  /** The captures among `ms`, in order. */
  function Captures(b: Board, ms: seq<Candidate>): seq<Candidate>
    decreases |ms|
  {
    if ms == [] then []
    else Captures(b, ms[..|ms| - 1]) + (if IsCapture(b, ms[|ms| - 1]) then [ms[|ms| - 1]] else [])
  }

  /** The quiet moves among `ms`, in order. */
  function Quiet(b: Board, ms: seq<Candidate>): seq<Candidate>
    decreases |ms|
  {
    if ms == [] then []
    else Quiet(b, ms[..|ms| - 1]) + (if IsCapture(b, ms[|ms| - 1]) then [] else [ms[|ms| - 1]])
  }

  /** Scanning one more candidate adds it to exactly one of the two lists. */
  lemma SplitSnoc(b: Board, ms: seq<Candidate>, m: Candidate)
    ensures Captures(b, ms + [m]) == Captures(b, ms) + (if IsCapture(b, m) then [m] else [])
    ensures Quiet(b, ms + [m]) == Quiet(b, ms) + (if IsCapture(b, m) then [] else [m])
  {
    assert (ms + [m])[..|ms|] == ms;
  }

  /** The captures and the quiet moves split the candidates: membership both ways, and the counts add up. */
  lemma {:induction false} CapturePartition(b: Board, ms: seq<Candidate>)
    ensures forall m :: m in Captures(b, ms) <==> m in ms && IsCapture(b, m)
    ensures forall m :: m in Quiet(b, ms) <==> m in ms && !IsCapture(b, m)
    ensures |Captures(b, ms)| + |Quiet(b, ms)| == |ms|
    decreases |ms|
  {
    if ms != [] {
      CapturePartition(b, ms[..|ms| - 1]);
      assert ms == ms[..|ms| - 1] + [ms[|ms| - 1]];
    }
  }

  /** Every capture of `ms` occurs among the captures as often as in `ms`, every quiet move among the quiet moves. */
  lemma {:induction false} CaptureCounts(b: Board, ms: seq<Candidate>)
    ensures forall m :: multiset(Captures(b, ms))[m] == if IsCapture(b, m) then multiset(ms)[m] else 0
    ensures forall m :: multiset(Quiet(b, ms))[m] == if IsCapture(b, m) then 0 else multiset(ms)[m]
    decreases |ms|
  {
    if ms != [] {
      var init, last := ms[..|ms| - 1], ms[|ms| - 1];
      CaptureCounts(b, init);
      assert ms == init + [last];
      assert multiset(ms) == multiset(init) + multiset{last};
    }
  }

  /**
   * The quiet moves among `ms`, then their captures three times over, so a
   * capture is three times as likely to be drawn as a quiet move.
   */
  function Weighted(b: Board, ms: seq<Candidate>): (pool: seq<Candidate>)
    ensures |pool| == |ms| + 2 * |Captures(b, ms)|
    ensures forall m :: m in pool <==> m in ms
  {
    var captures := Captures(b, ms);
    CapturePartition(b, ms);
    Quiet(b, ms) + captures + captures + captures
  }

  /** The weighted pool holds each capture of `ms` three times as often as `ms` does, and each quiet move as often. */
  lemma WeightedCounts(b: Board, ms: seq<Candidate>)
    ensures forall m :: multiset(Weighted(b, ms))[m] == (if IsCapture(b, m) then 3 else 1) * multiset(ms)[m]
  {
    var quiet, captures := Quiet(b, ms), Captures(b, ms);
    CaptureCounts(b, ms);
    assert Weighted(b, ms) == quiet + captures + captures + captures;
    assert multiset(Weighted(b, ms)) == multiset(quiet) + multiset(captures) + multiset(captures) + multiset(captures);
  }

  /** The weighted pool lists the quiet moves first: a draw below their count picks a quiet move, any other a capture. */
  lemma WeightedLayout(b: Board, ms: seq<Candidate>)
    ensures forall i :: 0 <= i < |Weighted(b, ms)| ==> (IsCapture(b, Weighted(b, ms)[i]) <==> i >= |Quiet(b, ms)|)
  {
    var quiet := Quiet(b, ms);
    var captures := Captures(b, ms);
    CapturePartition(b, ms);
    var pool := Weighted(b, ms);
    assert forall i :: 0 <= i < |pool| ==> pool[i] in (if i < |quiet| then quiet else captures);
  }

  /** The pool the beginner draws from: the weighted candidates, which are exactly the legal moves of the side to move. */
  function Pool(s: GameState): (pool: seq<Candidate>)
    requires ValidBoard(s.board)
    ensures forall m :: m in pool <==> IsLegalCandidate(s, m)
  {
    CandidatesSpec(s);
    Weighted(s.board, Candidates(s))
  }

  /** The pool holds every collected capture three times and every collected quiet move once per collection. */
  lemma PoolCounts(s: GameState)
    requires ValidBoard(s.board)
    ensures forall m :: multiset(Pool(s))[m] == (if IsCapture(s.board, m) then 3 else 1) * multiset(Candidates(s))[m]
  {
    WeightedCounts(s.board, Candidates(s));
  }

  // ---------------------------------------------------------------------------
  // The pick

  /**
   * The index drawn from a sequence of length `n` by `u` in [0, 1): the floor
   * of the exact product `u * n` (the engine floors the rounded floating-point
   * product).
   */
  function PickIndex(u: real, n: nat): (i: nat)
    requires 0.0 <= u < 1.0 && n > 0
    ensures i < n
  {
    assert u * n as real < n as real;
    (u * n as real).Floor
  }

  /**
   * `getBeginnerMove`: no move when the side to move has none; otherwise the
   * candidate at the drawn index of the pool, with the moving piece and the
   * piece on the destination, if any, recorded.
   */
  function BeginnerMove(s: GameState, u: real): (r: Option<Move>)
    requires ValidBoard(s.board) && 0.0 <= u < 1.0
    ensures r.None? <==> !HasAnyLegalMove(s)
    ensures r.Some? ==>
      && IsValidPosition(r.value.from) && HasColor(At(s.board, r.value.from), s.currentPlayer)
      && r.value.to in LegalMoves(s, r.value.from)
      && r.value.piece == At(s.board, r.value.from).value
      && r.value.capturedPiece == At(s.board, r.value.to)
    ensures r.Some? ==>
      |Pool(s)| > 0 && Candidate(r.value.from, r.value.to) == Pool(s)[PickIndex(u, |Pool(s)|)]
  {
    var pool := Pool(s);
    CandidatesEmptyIff(s);
    if |pool| == 0 then None
    else
      var m := pool[PickIndex(u, |pool|)];
      assert m in pool;
      assert IsLegalCandidate(s, m);
      Some(Move(m.from, m.to, At(s.board, m.from).value, At(s.board, m.to), None, None, None, None, None, None))
  }

  /**
   * The innermost loop of `getBeginnerMove`: each destination of the piece on
   * `from` goes to the captures when it is occupied, to the quiet moves otherwise.
   */
  method SortDestinations(board: Board, from: Position, tos: seq<Position>,
                          ghost seen: seq<Candidate>, possible: seq<Candidate>, captures: seq<Candidate>)
    returns (possibleMoves: seq<Candidate>, captureMoves: seq<Candidate>)
    requires ValidBoard(board) && forall q :: q in tos ==> IsValidPosition(q)
    requires possible == Quiet(board, seen) && captures == Captures(board, seen)
    ensures possibleMoves == Quiet(board, seen + Pairs(from, tos))
    ensures captureMoves == Captures(board, seen + Pairs(from, tos))
  {
    possibleMoves, captureMoves := possible, captures;
    assert seen + Pairs(from, tos[..0]) == seen;
    for i := 0 to |tos|
      invariant possibleMoves == Quiet(board, seen + Pairs(from, tos[..i]))
      invariant captureMoves == Captures(board, seen + Pairs(from, tos[..i]))
    {
      var toPosition := tos[i];
      assert toPosition in tos;
      var move := Candidate(from, toPosition);
      ghost var now := seen + Pairs(from, tos[..i]);
      assert tos[..i + 1][..i] == tos[..i];
      AppendAssociates(seen, Pairs(from, tos[..i]), [move]);
      SplitSnoc(board, now, move);
      if board[toPosition.row][toPosition.col].Some? {
        captureMoves := captureMoves + [move];
      } else {
        possibleMoves := possibleMoves + [move];
      }
    }
    assert tos[..|tos|] == tos;
  }

  /** The body of the square loop of `getBeginnerMove`: a piece of the side to move has its legal destinations sorted. */
  method CollectSquare(s: GameState, row: int, col: int,
                       ghost seen: seq<Candidate>, possible: seq<Candidate>, captures: seq<Candidate>)
    returns (possibleMoves: seq<Candidate>, captureMoves: seq<Candidate>)
    requires ValidBoard(s.board) && 0 <= row < 8 && 0 <= col < 8
    requires possible == Quiet(s.board, seen) && captures == Captures(s.board, seen)
    ensures possibleMoves == Quiet(s.board, seen + FromSquare(s.board, s.currentPlayer, Destinations(s), row, col))
    ensures captureMoves == Captures(s.board, seen + FromSquare(s.board, s.currentPlayer, Destinations(s), row, col))
  {
    var board: Board := s.board;
    var piece := board[row][col];
    ghost var found := FromSquare(board, s.currentPlayer, Destinations(s), row, col);
    if piece.Some? && piece.value.color == s.currentPlayer {
      var fromPosition := Position(row, col);
      var legalMoves := LegalMoves(s, fromPosition);
      LegalMovesOnBoard(s, fromPosition);
      assert found == Pairs(fromPosition, legalMoves);
      possibleMoves, captureMoves := SortDestinations(board, fromPosition, legalMoves, seen, possible, captures);
    } else {
      assert found == [];
      AppendEmpty(seen);
      possibleMoves, captureMoves := possible, captures;
    }
  }

  /** The two nested loops of `getBeginnerMove` over the rows and the squares of each row. */
  method ScanBoard(s: GameState) returns (possibleMoves: seq<Candidate>, captureMoves: seq<Candidate>)
    requires ValidBoard(s.board)
    ensures possibleMoves == Quiet(s.board, Candidates(s))
    ensures captureMoves == Captures(s.board, Candidates(s))
  {
    var board := s.board;
    var aiColor := s.currentPlayer;
    ghost var legal := Destinations(s);
    possibleMoves, captureMoves := [], [];
    for row := 0 to 8
      invariant possibleMoves == Quiet(board, ScanRows(board, aiColor, legal, row))
      invariant captureMoves == Captures(board, ScanRows(board, aiColor, legal, row))
    {
      ghost var done := ScanRows(board, aiColor, legal, row);
      AppendEmpty(done);
      for col := 0 to 8
        invariant possibleMoves == Quiet(board, done + RowScan(board, aiColor, legal, row, col))
        invariant captureMoves == Captures(board, done + RowScan(board, aiColor, legal, row, col))
      {
        ghost var scanned := RowScan(board, aiColor, legal, row, col);
        ghost var found := FromSquare(board, aiColor, legal, row, col);
        possibleMoves, captureMoves := CollectSquare(s, row, col, done + scanned, possibleMoves, captureMoves);
        assert RowScan(board, aiColor, legal, row, col + 1) == scanned + found;
        AppendAssociates(done, scanned, found);
      }
    }
  }

  /** The beginner's move lies on the board and, once made, does not leave its own king in check. */
  lemma BeginnerMoveIsSafe(s: GameState, u: real)
    requires ValidBoard(s.board) && 0.0 <= u < 1.0 && BeginnerMove(s, u).Some?
    ensures MoveOnBoard(BeginnerMove(s, u).value)
    ensures !InCheck(ApplyMove(s, BeginnerMove(s, u).value), s.currentPlayer)
  {
    LegalMoveLeavesMoverSafe(s, BeginnerMove(s, u).value);
  }

  /** `getBeginnerMove`: the board scan, the pool, and the pick. */
  method GetBeginnerMove(s: GameState, u: real) returns (r: Option<Move>)
    requires ValidBoard(s.board) && 0.0 <= u < 1.0
    ensures r == BeginnerMove(s, u)
  {
    var board: Board := s.board;
    var possibleMoves, captureMoves := ScanBoard(s);
    var allMoves := possibleMoves + captureMoves + captureMoves + captureMoves;
    assert allMoves == Pool(s);
    if |allMoves| == 0 {
      return None;
    }
    var randomMove := allMoves[PickIndex(u, |allMoves|)];
    var from := randomMove.from;
    var to := randomMove.to;
    assert IsLegalCandidate(s, randomMove);
    LegalMoveKeepsKingSafe(s, from, to);
    r := Some(Move(from, to, board[from.row][from.col].value, board[to.row][to.col], None, None, None, None, None, None));
  }

  /** `getAIMove`: every difficulty, the stronger ones not being written yet, plays the beginner move. */
  method GetAIMove(s: GameState, u: real) returns (r: Option<Move>)
    requires ValidBoard(s.board) && 0.0 <= u < 1.0
    ensures r == BeginnerMove(s, u)
  {
    match s.aiDifficulty
    case Beginner => r := GetBeginnerMove(s, u);
    case Intermediate => r := GetBeginnerMove(s, u);
    case Advanced => r := GetBeginnerMove(s, u);
    case Expert => r := GetBeginnerMove(s, u);
  }
}
