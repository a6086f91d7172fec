# A verified model of a browser chess engine

This project models, in Dafny, the core of a TypeScript chess application:

- the rules engine (`src/utils/chessEngine.ts`): the start position, pseudo-legal
  move generation for each piece, check detection on the cached king squares,
  the legality filter, the move transition with its check / checkmate /
  stalemate flags, undo by replaying the history, and square notation;
- the Zobrist position hasher (`src/utils/zobrist.ts`);
- the coordinate helpers (`src/utils/boardUtils.ts`);
- the computer opponent (`src/utils/chessAI.ts`), whose every difficulty plays
  the "beginner" strategy.

The data types come from `src/types/chess.ts`. Each file has its own module:

| file | module | models |
|---|---|---|
| `wrappers.dfy` | `Wrappers`, `Sequences` | `Option`, plus two facts about sequence concatenation |
| `chess_types.dfy` | `ChessTypes` | pieces, squares, boards, positions, moves, castling rights, game states |
| `board_utils.dfy` | `BoardUtils` | bounds check, safe lookup, square name printing and parsing |
| `chess_engine.dfy` | `ChessEngine` | the rules engine |
| `zobrist.dfy` | `Zobrist` | the key table, the hasher object and the hash |
| `chess_ai.dfy` | `ChessAI` | the beginner move picker and the difficulty dispatch |

Wherever the source computes something with loops, the model gives it twice:

- a function that states what is computed, with lemmas proving its properties;
- a method with the source's own loops, proved to return exactly that function.

For example, `GetSlidingMoves` is proved equal to `SlidingMoves`. `MakeMove` is
proved equal to `ApplyMove`. `HashWithKeys` is proved equal to `Hash`, and
`GetBeginnerMove` to `BeginnerMove`.

Game states are immutable values. A board is a sequence of rows, and updating a
square builds a new board. This matches the engine, which copies a board before
changing it.

Conventions:

- `At(board, p)` reads a square and gives `None` off the board.
- Optional fields of the source's records are `Option` values.
- A random draw becomes a parameter: a real `u` in [0, 1) for the move pick, and
  a sequence of draws for the key table.
- Keys and hashes are natural numbers, as JavaScript's `BigInt` values are.
  `Xor` is bitwise exclusive or on naturals, with its algebra proved as lemmas:
  zero is its identity, every value is its own inverse, and it is commutative
  and associative.

## Model

| member | source | states |
|---|---|---|
| ChessTypes.Opponent | src/utils/chessEngine.ts:361 | the side to move after a move is the other colour, never the same one |
| BoardUtils.ValidPositionsAreSquares | src/utils/boardUtils.ts:9-14 | `IsValidPosition` holds exactly when 0 <= row < 8 and 0 <= col < 8, that is, exactly for the 64 squares numbered row by row from (0, 0) to (7, 7) |
| BoardUtils.SafeGetPosition | src/utils/boardUtils.ts:20-25 | for any grid (an on-board position's row must exist): undefined for an off-board position; otherwise the grid cell, or undefined past the end of a short row |
| BoardUtils.PositionToString | src/utils/boardUtils.ts:30-37 | "invalid" exactly for off-board positions; otherwise two characters, the file letter 'a'+col then the rank digit '8'-row |
| BoardUtils.IndexOf | src/utils/boardUtils.ts:50-51 | -1 exactly when the character is absent; otherwise the index of its first occurrence |
| BoardUtils.ToLower | src/utils/boardUtils.ts:50 | upper-case ASCII letters map to their lower-case letter and every other character to itself; the result is a file letter exactly when the character is a file letter in either case |
| BoardUtils.StringToPosition | src/utils/boardUtils.ts:42-58 | a result exactly when the string has length 2, its lower-cased first character is a file letter and its second is a rank digit; every result is on the board |
| BoardUtils.ParseNameRoundTrip | src/utils/boardUtils.ts:30-58 | parsing the printed name of any on-board square gives back that square |
| BoardUtils.PrintParsedName | src/utils/boardUtils.ts:30-58 | printing a parsed square gives the input with its file letter lower-cased |
| BoardUtils.FileCaseInsensitive | src/utils/boardUtils.ts:50 | an upper-case file letter parses like its lower-case letter ("E2" like "e2") |
| BoardUtils.RankNotFolded | src/utils/boardUtils.ts:51 | a second character outside '1'..'8' is always refused |
| ChessEngine.InitialBoard | src/utils/chessEngine.ts:22-40 | 8x8 board: pawns on rows 1 and 6, the setup order on rows 0 and 7 (black above, white below), rows 2-5 empty; the only white king is on (7,4), the only black king on (0,4) |
| ChessEngine.CreateInitialBoard | src/utils/chessEngine.ts:22-40 | the two fill loops build exactly the start position |
| ChessEngine.NewGame | src/utils/chessEngine.ts:5-19 | start board, white to move, empty history, no flag set, king cache (7,4)/(0,4) holding the right kings, castling rights and en-passant target absent |
| ChessEngine.CreateNewGame | src/utils/chessEngine.ts:5-19 | returns exactly the new game of the given difficulty |
| ChessEngine.StepMovesSpec | src/utils/chessEngine.ts:152-163 | a knight or king destination is exactly an offset's landing square that is on the board and not held by the mover's colour |
| ChessEngine.GetStepMoves | src/utils/chessEngine.ts:152-163 | the offset loop pushes exactly the step destinations, in offset order |
| ChessEngine.GetKnightMoves | src/utils/chessEngine.ts:136-166 | the eight knight offsets through the step loop |
| ChessEngine.GetKingMoves | src/utils/chessEngine.ts:202-234 | the eight king offsets through the step loop |
| ChessEngine.PawnCapturesSpec | src/utils/chessEngine.ts:116-128 | a diagonal destination is exactly a diagonal landing square on the board holding an enemy piece |
| ChessEngine.PawnMovesShape | src/utils/chessEngine.ts:94-128 | a pawn destination is exactly: one ahead onto an empty square, two ahead from the starting row over two empty squares, or one diagonal ahead onto an enemy; each is on the board and not held by the mover's colour |
| ChessEngine.GetPawnPushes | src/utils/chessEngine.ts:94-108 | the forward-push branch computes the single and double pushes |
| ChessEngine.GetPawnMoves | src/utils/chessEngine.ts:86-133 | the pushes, then the capture loop, give exactly the pawn destinations |
| ChessEngine.RayShape | src/utils/chessEngine.ts:250-268 | a ray starts next to the slider and runs over consecutive squares; all but the last are empty; the last is empty or an enemy; an empty or empty-ended ray stops only at the edge or at an own piece; every square is on the board and not own-held |
| ChessEngine.SlidingMovesReachable | src/utils/chessEngine.ts:237-272 | every sliding destination is on the board and not held by the slider's colour |
| ChessEngine.SlidingMovesAppend | src/utils/chessEngine.ts:246-269 | sliding over two direction lists is sliding over the first, then over the second |
| ChessEngine.QueenSlidesEightWays | src/utils/chessEngine.ts:193-199 | queen moves, the bishop moves followed by the rook moves, are the rays of all eight directions in that order |
| ChessEngine.WalkRay | src/utils/chessEngine.ts:250-268 | the while loop appends exactly one ray |
| ChessEngine.GetSlidingMoves | src/utils/chessEngine.ts:237-272 | returns exactly the rays of the directions, concatenated in order |
| ChessEngine.GetBishopMoves | src/utils/chessEngine.ts:169-178 | sliding along the four diagonals |
| ChessEngine.GetRookMoves | src/utils/chessEngine.ts:181-190 | sliding along the four files and ranks |
| ChessEngine.GetQueenMoves | src/utils/chessEngine.ts:193-199 | bishop moves followed by rook moves |
| ChessEngine.PotentialMoves | src/utils/chessEngine.ts:61-83 | nothing from an empty square; otherwise every destination is on the board and not held by the mover's colour |
| ChessEngine.GetPotentialMoves | src/utils/chessEngine.ts:61-83 | the dispatch on the piece type returns exactly the pseudo-legal destinations |
| ChessEngine.IsKingInCheck | src/utils/chessEngine.ts:275-300 | true exactly when some enemy piece has the cached king square among its pseudo-legal destinations |
| ChessEngine.InCheckFrame | src/utils/chessEngine.ts:275-300 | check depends only on the board and the king cache |
| ChessEngine.PlacePiece | src/utils/chessEngine.ts:308-312 | on the copied board `to` holds the piece, `from` is empty when it differs from `to`, and every other square is unchanged |
| ChessEngine.SimulateMove | src/utils/chessEngine.ts:303-332 | the moved board; the king cache moves with a king of that colour; every other field is carried over |
| ChessEngine.SimulateMoveKeepsKingCache | src/utils/chessEngine.ts:314-324 | a valid king cache stays valid when the moved piece is the one on `from` and the destination holds no king |
| ChessEngine.KeepSafe | src/utils/chessEngine.ts:54-57 | the filter keeps exactly the destinations whose simulated move leaves the mover's king out of check |
| ChessEngine.LegalMoves | src/utils/chessEngine.ts:43-58 | nothing unless the square holds a piece of the side to move; otherwise exactly the pseudo-legal destinations whose simulated move leaves the mover out of check |
| ChessEngine.LegalMoveKeepsKingSafe | src/utils/chessEngine.ts:43-58 | a legal destination comes from a piece of the side to move, both squares are on the board, and the simulated move leaves the mover out of check |
| ChessEngine.LegalMovesOnBoard | src/utils/chessEngine.ts:43-58 | legal destinations lie on the board, and only a piece of the side to move has any |
| ChessEngine.KeepSafeFrame | src/utils/chessEngine.ts:54-57 | the filter depends only on the board, the side to move and the king cache |
| ChessEngine.LegalMovesFrame | src/utils/chessEngine.ts:43-58 | legal moves depend only on the board, the side to move and the king cache |
| ChessEngine.HasAnyLegalMoveFrame | src/utils/chessEngine.ts:397-415 | mobility depends only on the board, the side to move and the king cache |
| ChessEngine.HasLegalMoves | src/utils/chessEngine.ts:397-415 | the early-return scan is true exactly when some piece of the side to move has a legal move |
| ChessEngine.IsCheckmate | src/utils/chessEngine.ts:387-389 | true exactly when the side to move has no legal move |
| ChessEngine.IsStalemate | src/utils/chessEngine.ts:392-394 | true exactly when the side to move has no legal move |
| ChessEngine.ApplyMove | src/utils/chessEngine.ts:335-371 | `to` holds the piece, `from` is empty when it differs from `to`, and every other square is unchanged; the other side moves; the history is extended by the move; the king cache follows a king; difficulty, castling rights and en-passant target are kept |
| ChessEngine.ApplyMoveFlags | src/utils/chessEngine.ts:373-381 | `isCheck` is whether the side now to move is in check. In check, `isCheckmate` is "no legal move" and `isStalemate` keeps its old value. Out of check, the reverse. |
| ChessEngine.MakeMove | src/utils/chessEngine.ts:335-384 | the copy, the two cell writes, the cache update and the flag scans compute exactly this transition |
| ChessEngine.ApplyMoveKeepsKingCache | src/utils/chessEngine.ts:349-359 | a valid king cache stays valid after a move of the piece on `from` onto a square without a king |
| ChessEngine.LegalMoveLeavesMoverSafe | src/utils/chessEngine.ts:335-384 | a move along a legal destination lies on the board and, once made, leaves the side that made it out of check |
| ChessEngine.PlayerAfterParity | src/utils/chessEngine.ts:361 | after an even number of moves the starting side is to move again, after an odd number the other side |
| ChessEngine.Replay | src/utils/chessEngine.ts:446-448 | replaying moves appends them to the history, alternates the side to move once per move and keeps the difficulty |
| ChessEngine.Undo | src/utils/chessEngine.ts:434-451 | needs only the replayed moves, all but the last, to lie on the board; unchanged without history; otherwise the history loses its last move, the difficulty is kept, and the side to move follows from the remaining length |
| ChessEngine.UndoMove | src/utils/chessEngine.ts:434-451 | the replay loop computes exactly the undo |
| ChessEngine.UndoAfterMove | src/utils/chessEngine.ts:434-451 | for a game replayed from the start, undoing a move just made returns the state before it |
| ChessEngine.ToAlgebraic | src/utils/chessEngine.ts:418-423 | for on-board squares, the same name as `positionToString`; a two-character result exactly for on-board squares |
| ChessEngine.MoveToAlgebraic | src/utils/chessEngine.ts:426-431 | four characters exactly when both squares are on the board, and then the two halves parse back to the origin and the destination |
| Zobrist.XorDigits | src/utils/zobrist.ts:79-99 | `Xor`, the model of BigInt `^` on non-negative values, works bit by bit: its lowest bit is the exclusive or of the lowest bits and its higher bits are the `Xor` of the higher bits |
| Zobrist.XorZero | src/utils/zobrist.ts:79-99 | 0 is the identity of `Xor` on either side |
| Zobrist.XorSelf | src/utils/zobrist.ts:79-99 | every value is its own `Xor` inverse |
| Zobrist.XorCommutes | src/utils/zobrist.ts:79-99 | `Xor` is commutative |
| Zobrist.XorAssociates | src/utils/zobrist.ts:79-99 | `Xor` is associative |
| Zobrist.XorFits | src/utils/zobrist.ts:79-99 | the `Xor` of two values below 2^n is below 2^n |
| Zobrist.TypeIndex | src/utils/zobrist.ts:17-24 | piece type index in [0, 6) |
| Zobrist.ColorIndex | src/utils/zobrist.ts:27-30 | colour index in [0, 2) |
| Zobrist.IndicesInjective | src/utils/zobrist.ts:17-30 | distinct types, and distinct colours, get distinct indices |
| Zobrist.SquareIndex | src/utils/zobrist.ts:78 | an on-board square has an index in [0, 64) |
| Zobrist.SquareIndexBijective | src/utils/zobrist.ts:78 | `row * 8 + col` numbers the 64 on-board squares one to one: the index of an on-board square leads back to it, and every index in [0, 64) is the index of an on-board square |
| Zobrist.SquareIndexInjective | src/utils/zobrist.ts:78 | distinct on-board squares have distinct indices |
| Zobrist.CastlingIndex | src/utils/zobrist.ts:90-94 | the index is in [0, 16); bits 1, 2, 4 and 8 are set exactly for white king side, white queen side, black king side and black queen side |
| Zobrist.CastlingIndexInjective | src/utils/zobrist.ts:90-95 | distinct castling states select distinct keys |
| Zobrist.EnPassantIndex | src/utils/zobrist.ts:98 | 8 without a target; the target's column for a column 0..7; any index is within the 9-entry table |
| Zobrist.RandomBigInt | src/utils/zobrist.ts:35-40 | `high * 2^32 + low` below 2^64, with `high` as its upper and `low` as its lower 32 bits |
| Zobrist.Half | src/utils/zobrist.ts:37-38 | a draw in [0, 1) scaled to a 32-bit half |
| Zobrist.NthKey | src/utils/zobrist.ts:35-40 | each key, from two consecutive draws, is a 64-bit value |
| Zobrist.BuildKeys | src/utils/zobrist.ts:46-55 | shape 6x2x64 / 16 / 9, all keys 64-bit, drawn in the engine's order (piece keys, side key, castling keys, en-passant keys) |
| Zobrist.Hash | src/utils/zobrist.ts:62-102 | a hash exactly when the castling rights are present and the en-passant column has a key |
| Zobrist.HashFits | src/utils/zobrist.ts:68-101 | with 64-bit keys the hash is below 2^64 |
| Zobrist.HashDependsOnlyOnPosition | src/utils/zobrist.ts:69 | states equal on board, side to move, castling rights and en-passant target hash equally |
| Zobrist.SideToMoveToggles | src/utils/zobrist.ts:85-87 | the black-to-move hash is the white-to-move hash XOR the side key |
| Zobrist.HashPieces | src/utils/zobrist.ts:72-82 | the nested board loops XOR in exactly the keys of the occupied squares |
| Zobrist.HashWithKeys | src/utils/zobrist.ts:68-101 | the body of `computeZobristHash` computes exactly the hash, failing where the engine fails |
| Zobrist.ZobristHasher.constructor | src/utils/zobrist.ts:32 | the key table starts absent |
| Zobrist.ZobristHasher.InitializeKeys | src/utils/zobrist.ts:43-59 | idempotent: an existing table is kept. Otherwise the table is built from the draws. Either way a table exists afterwards. |
| Zobrist.ZobristHasher.ComputeZobristHash | src/utils/zobrist.ts:62-102 | initialises the table if absent (never replacing one), then returns the hash under it, a 64-bit value |
| ChessAI.PairsSpec | src/utils/chessAI.ts:42-43 | one candidate per destination, each from the given square |
| ChessAI.FromSquareSpec | src/utils/chessAI.ts:36-43 | a square's candidates are exactly the legal moves of the piece on it, when that piece is of the side to move |
| ChessAI.RowScanSpec | src/utils/chessAI.ts:35-52 | the first squares of a row yield exactly their pieces' legal moves |
| ChessAI.ScanRowsSpec | src/utils/chessAI.ts:34-54 | the first rows yield exactly their pieces' legal moves |
| ChessAI.CandidatesSpec | src/utils/chessAI.ts:33-54 | the scan collects exactly the legal moves of the side to move |
| ChessAI.LegalMoveIsCandidate | src/utils/chessAI.ts:38-43 | every legal move of the side to move is collected |
| ChessAI.CandidatesCoverMoves | src/utils/chessAI.ts:33-54 | a side with a legal move yields a candidate |
| ChessAI.CandidatesNeedMoves | src/utils/chessAI.ts:33-54 | a candidate shows the side has a legal move |
| ChessAI.CandidatesEmptyIff | src/utils/chessAI.ts:33-61 | no candidate exactly when the side to move has no legal move |
| ChessAI.SplitSnoc | src/utils/chessAI.ts:46-50 | one more candidate goes to exactly one of the two lists |
| ChessAI.CapturePartition | src/utils/chessAI.ts:46-50 | a candidate is among the captures exactly when its destination is occupied, among the quiet moves exactly when it is empty, and the two counts add up |
| ChessAI.Weighted | src/utils/chessAI.ts:57 | length is the candidate count plus twice the capture count; its members are exactly the candidates |
| ChessAI.WeightedLayout | src/utils/chessAI.ts:57 | entries below the quiet count are quiet moves, all later entries captures |
| ChessAI.Pool | src/utils/chessAI.ts:57 | its members are exactly the legal moves of the side to move |
| ChessAI.CaptureCounts | src/utils/chessAI.ts:46-50 | each candidate occurs among the captures as often as among the candidates when its destination is occupied, and never otherwise; the same for the quiet moves with an empty destination |
| ChessAI.WeightedCounts | src/utils/chessAI.ts:57 | the weighted pool, the quiet moves followed by three copies of the captures, holds every capture three times as often as the candidates do and every quiet move exactly as often |
| ChessAI.PoolCounts | src/utils/chessAI.ts:57 | the beginner's pool holds every collected capture three times and every collected quiet move once, for each time the scan collected it |
| ChessAI.PickIndex | src/utils/chessAI.ts:63 | a draw in [0, 1) gives an index into the pool |
| ChessAI.BeginnerMove | src/utils/chessAI.ts:27-72 | null exactly when the side to move has no legal move. Otherwise: `from` holds a piece of the side to move, `to` is among its legal moves, `piece` is that piece, and `capturedPiece` is the destination's piece or absent. The move is the pool entry at `PickIndex(u, |pool|)`. |
| ChessAI.SortDestinations | src/utils/chessAI.ts:42-51 | the inner loop pushes each destination onto the captures or the quiet moves |
| ChessAI.CollectSquare | src/utils/chessAI.ts:36-52 | a square's legal moves are sorted only when it holds a piece of the side to move |
| ChessAI.ScanBoard | src/utils/chessAI.ts:34-54 | the nested loops produce exactly the quiet moves and the captures of the side to move, in scan order |
| ChessAI.BeginnerMoveIsSafe | src/utils/chessAI.ts:63-71 | the picked move lies on the board and, once made, does not leave the AI's king in check |
| ChessAI.GetBeginnerMove | src/utils/chessAI.ts:27-72 | the loops, the pool and the pick compute exactly the beginner move |
| ChessAI.GetAIMove | src/utils/chessAI.ts:6-24 | every difficulty returns the beginner move |

## Left out

- Castling, en passant, promotion, and the intermediate, advanced and expert AI
  tiers. The engine leaves them as TODOs (`chessEngine.ts` lines 130, 231, 347
  and 441; `chessAI.ts` lines 13-20).
- Off-board reads. The engine indexes `board[row][col]` directly, and an
  off-board row throws a `TypeError`. The model reads squares through `At`,
  which gives `None` there. The engine's callers pass only on-board squares, and
  `MakeMove`, `ApplyMove` and `Replay` require their moves to lie on the board.
- `Math.random`. It becomes the parameter `u` in [0, 1) for the move pick, and
  a sequence of real draws for the key table. The model does not assume any
  distribution for these values.
- `console.log` in `initializeZobristKeys`, and the "failed to initialize"
  error. That error cannot be raised once initialisation has run.
- Zobrist.Hash, Zobrist.HashWithKeys, Zobrist.ZobristHasher.ComputeZobristHash:
  where the engine throws, these return `None` instead:
  - `castlingRights` is undefined, as in every state `createNewGame` makes;
  - an en-passant column falls outside the 9-entry table (`BigInt ^ undefined` throws).
- Zobrist.RandomBigInt: `(high << 32n) | low` is stated as
  `high * 2^32 + low`. This is the same value because `low` is below 2^32. The
  bitwise OR itself is not modelled.
- `BigInt` keys are unbounded naturals. `KeysFit` and `HashFits` give the
  64-bit bound.
- JavaScript's `toLowerCase` is Unicode-aware. `ToLower` folds only the ASCII
  letters, so non-ASCII first characters may be folded differently. Either way,
  no such character is a file letter.
- ChessEngine.ToAlgebraic: for off-board squares the model gives the value
  JavaScript computes, written as it prints: "undefined" stands for a missing
  character. When both characters are missing, `undefined + undefined` is the
  number `NaN`, not a string; the model gives the text "NaN", which is how
  `moveToAlgebraic`'s template literal prints it. Only the length of these
  results is constrained.
- ChessEngine.ApplyMoveKeepsKingCache and
  ChessEngine.SimulateMoveKeepsKingCache require that the destination holds no
  king. Capturing a king would leave that king's cached square pointing at the
  capturing piece. Legal play never captures a king.
- ChessEngine.UndoAfterMove: stated only for games replayed from a new game.
  `undoMove` always restarts from `createNewGame`, so for any other state, undo
  does not return the earlier state.
- Aliasing. The engine copies the board before changing it (`board.map(row => [...row])`).
  The model's values copy implicitly, so "the input state is unchanged" holds by
  construction.
- Split helpers. Some source loops are helper methods of their own in the model,
  with the loop order unchanged:
  - the pawn pushes: `GetPawnPushes`;
  - the ray walk: `WalkRay`;
  - the board loop of the hasher: `HashPieces`;
  - the AI's inner loops: `ScanBoard`, `CollectSquare`, `SortDestinations`.
- ChessAI.PickIndex: floors the exact product `u * n`. The engine's
  `Math.floor(Math.random() * allMoves.length)` floors the floating-point product,
  which is first rounded to the nearest double. The two can differ near an
  integer. For example, for the largest double below 2/3 and `n = 3`, the double
  product rounds to 2.0 and the engine picks index 2, while the model picks 1.
  Either index lies in the pool.
- One parameter change. The move generators take the board rather than the state,
  because the source's generators read only `gameState.board`.
- ChessEngine.NewGame takes the difficulty as a required parameter. The
  default argument `'beginner'` of `createNewGame` (`chessEngine.ts` line 5) is
  not modelled, since a call without an argument is the call with `Beginner`.
- BoardUtils.SafeGetPosition requires that an on-board position's row exists in
  the grid. Otherwise `board[position.row][position.col]` throws a `TypeError`,
  which the model does not represent.
- The UI components, the move-history display and the page glue are not part of
  this model.
