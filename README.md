# Chess rules engine, modelled in Dafny

This project models the rules core of a small Python chess program. Two versions of
the engine are modelled.

- `GameClasses.py` is the current engine: the `Game`, `Castle` and `Move` classes.
- `ChessGameClasses.py` is the older copy. It has no castling and no logs, and it
  keeps the en-passant target differently.

Each engine keeps the following state:

- an 8×8 board of two-letter piece codes;
- the side to move and a history of moves;
- the cached squares of both kings;
- the en-passant target;
- the checkmate and stalemate flags;
- in the current engine only, the castling rights and two undo logs (`enPassantPossibleLog`, `castleLog`).

Each engine does the following:

- applies a move in place (`makeMove`) and takes it back (`undoMove`);
- generates pseudo-legal moves piece by piece;
- decides whether a square is attacked by generating the opponent's moves;
- filters the candidates to legal moves by trying each one, then sets the game-over flags.

Layout, one module per file:

- `pieces.dfy` (`Pieces`):
  - the board cell (`Empty | P(color, kind)` instead of `"--"`, `"wP"`, ...);
  - squares, the 8×8 `Grid`, `At`/`Put`;
  - the starting board.
- `moves.dfy` (`Moves`): the `Move` record, `Move.__init__` (`NewMove`), `moveID` and `__eq__` (`SameMove`), and the `Castle` record.
- `generation.dfy` (`Generation`):
  - the generators as pure functions (`PawnMoves`, `Ray`, `Slide`, `Leaps`, `SquareMoves`, `AllPossibleMoves`);
  - "attacked" as "some opponent move ends here" (`Attacked`).
- `generators.dfy` (`Generators`): the generators as loops appending to a move list. Each is proved equal to the function it implements. Both engines use them, since their generator code is the same.
- `rules.dfy` (`Rules`): the movement rules the generators implement, stated square by square.
- `positions.dfy` (`Positions`):
  - a position as a value, and `makeMove`/`undoMove` on it (`MakePos`, `UndoPos`);
  - the logs of the current engine (`GameState`);
  - the round-trip theorems;
  - the conditions under which they hold (`Sane`, `Consistent`, `Applicable`).
- `legality.dfy` (`Legality`):
  - castling generation;
  - the candidate list and the legal-move list (`ValidMoves`);
  - `moves.remove` (`RemoveFirst`) and the backward removal loop (`Sweep`), with the proof that the loop is a filter.
- `shapes.dfy` (`Shapes`): every generated candidate is a move `makeMove` and `undoMove` handle as intended (`Applicable`).
- `distinct.dfy` (`Distinctness`): no two candidates compare equal, so `moves.remove(moves[i])` deletes index `i`.
- `coherence.dfy` (`Coherence`): a game played with the moves `getValidMoves` returns stays in the shape the engine's methods ask for (`Sane` and `Coherent`), from the starting position on, with either side moving first.
- `engine.dfy` (`Engine`): the current `Game` class. Its fields are updated by its methods.
- `legacy.dfy` (`LegacyEngine`):
  - the older `Game` class;
  - its own `undoMove` bookkeeping of the en-passant target;
  - the proof of what it does and does not restore.

## Model

| member | source | states |
|---|---|---|
| Pieces.StartGrid | GameClasses.py:9-17 | the starting board: back ranks R N B Q K B N R, pawns on rows 1 and 6, four empty rows |
| Pieces.Put | GameClasses.py:49 | writing one cell changes that cell only |
| Moves.NewMove | GameClasses.py:470-494 | the move keeps its squares, snapshots the two board cells, and takes the opposite-coloured pawn as captured on en passant; flags as given |
| Moves.SameMoveIff | GameClasses.py:482-502 | on the board, two moves are `==` exactly when start and end squares agree; pieces and flags play no part |
| Generation.RookDirectionsDistinct | GameClasses.py:311 | the four rook directions are distinct unit steps |
| Generation.BishopDirectionsDistinct | GameClasses.py:365 | the four bishop directions are distinct unit steps |
| Generation.OffsetsIncreasing | GameClasses.py:345 | the knight and king offset tables are strictly ordered and exclude (0, 0) |
| Generation.EndsOnRowMoves | GameClasses.py:243-252 | the moves of a row's remaining cells end on a square iff a piece in those cells reaches it |
| Generation.EndsOnBoardMoves | GameClasses.py:243-252 | the moves of the remaining rows end on a square iff a piece in those rows reaches it |
| Generation.RowHolds | GameClasses.py:244-252 | every move a cell yields is in the list of its row from any earlier column on |
| Generation.BoardHolds | GameClasses.py:243-252 | every move a cell yields is in the list `getAllPossibleMoves` returns |
| Generation.AttackedIff | GameClasses.py:223-237 | a square is attacked iff some opponent pseudo-legal move in the generated list ends on it |
| Generators.GetPawnMoves | GameClasses.py:258-306 | appends exactly the pawn's pushes, then its left and right captures |
| Generators.GetPawnPush | GameClasses.py:274-284 | appends the one- and two-square pushes; the promotion flag it passes on is set only on the last rank |
| Generators.GetPawnCapture | GameClasses.py:285-295 | appends the diagonal capture of an enemy piece, or else the en-passant capture onto the target |
| Generators.GetRayMoves | GameClasses.py:317-340 | appends exactly the moves of one ray |
| Generators.GetSlidingMoves | GameClasses.py:315-340 | appends the rays of all the given directions in order |
| Generators.GetRookMoves | GameClasses.py:309-340 | appends the rays along the four rook directions |
| Generators.GetBishopMoves | GameClasses.py:362-394 | appends the rays along the four bishop directions |
| Generators.GetQueenMoves | GameClasses.py:397-400 | appends the rook rays, then the bishop rays |
| Generators.GetLeap | GameClasses.py:350-359 | appends the move to one offset if it is on the board and not onto a friendly piece |
| Generators.GetLeapingMoves | GameClasses.py:349-359 | appends the moves of all offsets in order |
| Generators.GetKnightMoves | GameClasses.py:343-359 | appends the moves to the eight knight offsets |
| Generators.GetKingMoves | GameClasses.py:403-420 | appends the moves to the eight king offsets |
| Generators.GetSquareMoves | GameClasses.py:245-252 | the `moveFunctions` dispatch: a cell of the side to move gets its kind's generator, others nothing |
| Generators.GetRowMoves | GameClasses.py:244-252 | appends the moves of the eight cells of one row |
| Generators.GetAllPossibleMoves | GameClasses.py:240-254 | returns exactly the pseudo-legal moves of the side to move, row by row |
| Generators.EndsOnSquare | GameClasses.py:231-237 | the scan answers true iff some move of the list ends on the square |
| Rules.RayReaches | GameClasses.py:315-340 | a ray reaches the cell k steps out iff every earlier cell is empty and this one holds no friendly piece: it takes the first enemy and stops at a friendly piece or the edge |
| Rules.RayOnLine | GameClasses.py:317-330 | every ray move leaves the piece's cell for an on-board cell along the direction that holds no friendly piece |
| Rules.LeapsReach | GameClasses.py:343-359 | knight (and king, 403-420) moves reach a cell iff its offset is in the table, it is on the board, and it holds no friendly piece |
| Rules.PawnPushReach | GameClasses.py:274-284 | a push reaches the empty cell ahead, and two ahead only from the start row through two empty cells |
| Rules.PawnCaptureReach | GameClasses.py:285-306 | a pawn reaches a diagonal cell iff the column exists and the cell holds an enemy or is the en-passant target |
| Rules.PawnFlagsIff | GameClasses.py:271-306 | a pawn move is en passant iff it goes sideways onto the target with no enemy there, and a promotion iff it is not en passant and lands on the last rank |
| Positions.Initial | GameClasses.py:7-42 | the starting position is sane and consistent: each king stands on its cached square and is the only king of its colour |
| Positions.UpdateRights | GameClasses.py:142-170 | a king move clears both of its side's rights; a rook leaving its corner clears that right; nothing else changes, and no right is ever set |
| Positions.MakeGridFrame | GameClasses.py:47-90 | `makeMove` changes no cell other than start, end, the en-passant victim and the castling rook's two cells |
| Positions.MakeGridCells | GameClasses.py:47-90 | start emptied; end gets the moved piece, or a queen of its colour on promotion; en passant empties (startRow, endColumn); the castling rook moves from endColumn+1 to endColumn-1 or from endColumn-2 to endColumn+1 |
| Positions.EnPassantTarget | GameClasses.py:71-77 | after `makeMove` the target is set iff a pawn moved two rows, and then it is the empty square passed over |
| Positions.MakeState | GameClasses.py:47-94 | the move is appended to the history and the old target to its log; the rights log only grows; the logs stay in step with the history; the flags are untouched |
| Positions.UndoState | GameClasses.py:97-138 | with an empty history nothing changes; otherwise the last entry of the history and of both logs is dropped; the logs stay in step; the flags are untouched |
| Positions.UndoMakePlain | GameClasses.py:97-112 | undoing an ordinary move after making it gives back the board |
| Positions.UndoMakeEnPassant | GameClasses.py:113-118 | undoing an en-passant capture after making it gives back the board, captured pawn included |
| Positions.UndoMakeCastle | GameClasses.py:126-138 | undoing a castle after making it gives back the board, rook included |
| Positions.MakeUndoRoundTrip | GameClasses.py:47-138 | for a move the generators can produce, `makeMove` then `undoMove` restores board, turn, kings, en-passant target and rights |
| Positions.UndoMakeState | GameClasses.py:47-138 | `makeMove` then `undoMove` restores the whole game, including history and both logs |
| Positions.MakePreservesSane | GameClasses.py:47-94 | `makeMove` keeps the position sane: no pawn on its last rank, cached kings on the board, rights only with the king at home, a target behind a pawn that just moved two rows |
| Legality.KingSideCastle | GameClasses.py:436-442 | yields nothing or the single king-side castle |
| Legality.QueenSideCastle | GameClasses.py:445-451 | yields nothing or the single queen-side castle |
| Legality.CastleMoves | GameClasses.py:423-433 | castles are offered only from column 4, at most one per side |
| Legality.CastleGate | GameClasses.py:423-451 | a king-side (queen-side) castle is offered iff the king is not attacked, the right is set, the 2 (3) cells between are empty, and the two cells beside the king towards the rook are not attacked |
| Legality.KingSideGate | GameClasses.py:436-442 | the king-side step offers the castle iff the two cells are empty and not attacked |
| Legality.QueenSideGate | GameClasses.py:445-451 | the queen-side step offers the castle iff the three cells are empty and the two nearest not attacked |
| Legality.FirstSame | GameClasses.py:192 | the index `list.remove` deletes: the first element equal to the argument |
| Legality.RemoveFirst | GameClasses.py:192 | `moves.remove(x)` deletes that first equal element and nothing else |
| Legality.RemoveAtIndex | GameClasses.py:192 | with no two equal moves, `moves.remove(moves[i])` deletes index i |
| Legality.Keep | GameClasses.py:185-196 | the kept list holds exactly the moves not judged illegal |
| Legality.SweepStep | GameClasses.py:185-196 | one backward step removes index i when the move is illegal, keeps the earlier part and keeps the list duplicate-free |
| Legality.SweepIsFilter | GameClasses.py:185-196 | after handling indices below i, the list is the legal moves of the first i followed by the untouched rest |
| Legality.SweepKeeps | GameClasses.py:185-196 | the whole backward loop is a filter of the candidates |
| Shapes.PawnApplicable | GameClasses.py:258-306 | every pawn move is one `makeMove`/`undoMove` handle as intended |
| Shapes.PushApplicable | GameClasses.py:274-284 | every push is handled as intended |
| Shapes.CaptureApplicable | GameClasses.py:285-306 | every capture, en passant included, is handled as intended |
| Shapes.RayPlain | GameClasses.py:315-340 | every ray move is an unflagged move to another cell holding no friendly piece |
| Shapes.SlidePlain | GameClasses.py:309-340 | every rook or bishop move is such a plain move |
| Shapes.LeapsPlain | GameClasses.py:343-359 | every knight or king move is such a plain move |
| Shapes.PiecePlain | GameClasses.py:309-420 | the moves of every piece but a pawn are plain moves |
| Shapes.SquareApplicable | GameClasses.py:245-252 | every move of one cell is handled as intended |
| Shapes.RowApplicable | GameClasses.py:244-252 | every move of a row is handled as intended |
| Shapes.BoardApplicable | GameClasses.py:243-252 | every pseudo-legal move is handled as intended |
| Shapes.KingSideApplicable | GameClasses.py:436-442 | the king-side castle is handled as intended |
| Shapes.QueenSideApplicable | GameClasses.py:445-451 | the queen-side castle is handled as intended |
| Shapes.CastleApplicable | GameClasses.py:423-433 | every castle offered is handled as intended |
| Shapes.CandidatesApplicable | GameClasses.py:176-183 | every candidate of `getValidMoves` is handled as intended, so each trial make/undo restores the game |
| Shapes.AttackedIgnoresTarget | GameClasses.py:294-306 | the en-passant target changes whether a square is attacked only for the target square itself |
| Shapes.PawnFlags | GameClasses.py:280-306 | pawn moves are never castles, and en passant only onto the target |
| Shapes.SquareFlags | GameClasses.py:245-252 | no generated move is a castle, and en passant lands only on the target |
| Distinctness.RayApart | GameClasses.py:315-340 | the moves of one ray go in its direction, at least i steps, and no two are equal |
| Distinctness.SlideApart | GameClasses.py:309-340 | the moves of a slider start on its cell, go in one of its directions, and no two are equal |
| Distinctness.LeapsApart | GameClasses.py:343-359 | the moves of a knight or king use its offsets and no two are equal |
| Distinctness.PawnApart | GameClasses.py:258-306 | no two moves of a pawn are equal |
| Distinctness.QueenApart | GameClasses.py:397-400 | no queen move of the rook half equals one of the bishop half |
| Distinctness.SquareApart | GameClasses.py:245-252 | the moves of one cell start there and no two are equal |
| Distinctness.RowApart | GameClasses.py:244-252 | the moves of a row come from its cells and no two are equal |
| Distinctness.BoardApart | GameClasses.py:243-252 | no two pseudo-legal moves are equal |
| Distinctness.KingNear | GameClasses.py:403-420 | a king's generated moves change its column by at most one |
| Distinctness.GeneratedFlags | GameClasses.py:240-254 | no pseudo-legal move is a castle, and en passant lands only on the target |
| Distinctness.CastleApart | GameClasses.py:423-451 | castles start on the king, move two columns, and no two are equal |
| Distinctness.CastlesApartFromGenerated | GameClasses.py:176-183 | no castle equals a pseudo-legal move |
| Distinctness.CandidatesDistinct | GameClasses.py:176-192 | no two candidates compare equal, so `remove` deletes the intended one |
| Distinctness.ValidMovesFilter | GameClasses.py:185-196 | the backward removal loop keeps exactly the candidates that do not leave the king attacked |
| Distinctness.ValidMovesIff | GameClasses.py:174-196 | a move is legal iff it is a candidate after which the mover's king is not attacked |
| Coherence.StartCellQuiet | GameClasses.py:9-17 | no piece of either colour on the starting board has a move onto the other side's king square |
| Coherence.InitialCoherent | GameClasses.py:7-42 | the starting position, with White or with Black to move, is sane, consistent, and the king of the side not to move is not attacked |
| Coherence.EndSparesKing | GameClasses.py:176-183 | in a coherent position no candidate lands on the opponent's king |
| Coherence.CastleCandidate | GameClasses.py:423-451 | a castle among the candidates starts on the king's cache in column 4 and ends two columns away in the same row |
| Coherence.KingGuards | GameClasses.py:403-420 | a king attacks each cell beside it in its row that holds none of its own pieces |
| Coherence.KingSideCorner | GameClasses.py:436-442 | the corner a king-side castle takes its rook from holds no king |
| Coherence.QueenSideCorner | GameClasses.py:445-451 | the corner a kept queen-side castle takes its rook from holds no king |
| Coherence.CarriedKingChecks | GameClasses.py:78-90 | a queen-side castle that carries the opponent's king from the corner leaves its own king in check |
| Coherence.KingCellAfter | GameClasses.py:47-60 | after a move that spares the kings, a cell holds a side's king iff it is that side's cached square |
| Coherence.ConsistentAfter | GameClasses.py:47-94 | a move that spares the kings keeps the position sane and consistent |
| Coherence.KeptSpares | GameClasses.py:174-196 | every move `getValidMoves` keeps spares the kings |
| Coherence.ValidMoveKeepsCoherent | GameClasses.py:47-94 | `makeMove` with a move `getValidMoves` returned keeps the position sane and coherent |
| Coherence.StateKeepsCoherent | GameClasses.py:47-94 | the same for the whole game state that `makeMove` produces |
| Engine.Game.constructor | GameClasses.py:7-42 | the starting position with empty history, an empty target log and one all-true rights entry; the position is sane and coherent, so `getValidMoves` may be called on it |
| Engine.Game.MakeMove | GameClasses.py:47-94 | the game state becomes `MakeState` of the old state, and the invariant holds |
| Engine.Game.WriteMove | GameClasses.py:47-90 | the board becomes `MakeGrid` of the old board |
| Engine.Game.MoveCastleRook | GameClasses.py:78-90 | the castling rook moves across the king |
| Engine.Game.RecordMove | GameClasses.py:52-94 | history and both logs grow by one; turn, kings, target and rights updated; board untouched |
| Engine.Game.MoveKing | GameClasses.py:56-60 | the moved king's cached square follows it |
| Engine.Game.LogEnPassant | GameClasses.py:65-77 | the old target is logged and the new one set |
| Engine.Game.UpdateCastleRights | GameClasses.py:142-170 | the rights become `UpdateRights` of the old rights |
| Engine.Game.UndoMove | GameClasses.py:97-138 | the game state becomes `UndoState` of the old one; nothing changes on an empty history |
| Engine.Game.PopMove | GameClasses.py:99-125 | pops the last move and both logs; restores turn, king, target and rights |
| Engine.Game.PopLogs | GameClasses.py:119-125 | the target and rights come back from the logs |
| Engine.Game.UnwriteMove | GameClasses.py:102-138 | the board becomes `UndoGrid` of the current board |
| Engine.Game.MoveCastleRookBack | GameClasses.py:126-138 | the castling rook returns to its corner |
| Engine.Game.SquareUnderAttack | GameClasses.py:223-237 | true iff the opponent attacks the square; the turn is toggled back, and nothing else changes |
| Engine.Game.InCheck | GameClasses.py:214-220 | true iff the king of the side to move is attacked |
| Engine.Game.GetKingSideCastleMoves | GameClasses.py:436-442 | appends exactly the king-side castle the rules allow |
| Engine.Game.GetQueenSideCastleMoves | GameClasses.py:445-451 | appends exactly the queen-side castle the rules allow |
| Engine.Game.GetCastleMoves | GameClasses.py:423-433 | appends exactly `CastleMoves` |
| Engine.Game.GetCandidates | GameClasses.py:176-183 | returns the pseudo-legal moves plus the castles |
| Engine.Game.LeavesKingInCheck | GameClasses.py:186-196 | trying a move reports whether it leaves the mover's king attacked, and restores the whole game |
| Engine.Game.MoverInCheck | GameClasses.py:188-190 | with the turn flipped, reports whether the side that just moved is attacked |
| Engine.Game.RemoveIllegal | GameClasses.py:185-196 | the backward loop returns `Sweep` of the candidates and leaves the game as it was |
| Engine.Game.SetGameOver | GameClasses.py:197-209 | checkmate if no moves and in check, stalemate if no moves and not in check, both cleared otherwise |
| Engine.Game.GetValidMoves | GameClasses.py:174-211 | returns exactly the legal moves; the game is unchanged but for the two flags, which follow the checkmate/stalemate rule |
| LegacyEngine.LegacyInitial | ChessGameClasses.py:12-41 | the starting position, sane and consistent, white to move, no target |
| LegacyEngine.NoCastleCandidates | ChessGameClasses.py:111 | with no rights the candidates are just the pseudo-legal moves |
| LegacyEngine.LegacyRoundTrip | ChessGameClasses.py:76-103 | make then undo restores everything except the target, which becomes the move's end square for en passant and none otherwise |
| LegacyEngine.LegacyRestoresIff | ChessGameClasses.py:76-103 | make then undo restores the position iff the old target already equals what undo writes |
| LegacyEngine.LegacyInitialCoherent | ChessGameClasses.py:12-41 | the starting position, with White or with Black to move, is sane and coherent |
| LegacyEngine.DoubleStepBeside | ChessGameClasses.py:45-73 | e2-e4 beside a black pawn on d4 applies, keeps the position consistent, and leaves Black to move with the target e3 and e3 empty |
| LegacyEngine.CaptureOffered | ChessGameClasses.py:219-236 | a black pawn on d4 with the target e3 gets the en-passant capture onto e3 among the generated moves |
| LegacyEngine.PawnStaysOffTarget | ChessGameClasses.py:187-236 | with no target, a black pawn on d4 has no move onto an empty e3 |
| LegacyEngine.NoCaptureWithoutTarget | ChessGameClasses.py:106-124 | with no target, `getValidMoves` offers no move from d4 to an empty e3 |
| LegacyEngine.TriedMoveLosesCapture | ChessGameClasses.py:76-103 | when d4xe3 en passant is available, making and undoing any other plain move drops the target, and the next `getValidMoves` offers no move from d4 to e3 |
| LegacyEngine.KnightLosesCapture | ChessGameClasses.py:45-103 | with Black's pawn on d4, after e2-e4 the capture d4xe3 is generated; making and undoing b8-c6 leaves the position without its target, and `getValidMoves` then offers no move from d4 to e3 |
| LegacyEngine.SweptTarget | ChessGameClasses.py:109-124 | the target `getValidMoves` leaves is none or the old one |
| LegacyEngine.TargetFree | ChessGameClasses.py:114-120 | whether a move leaves the king attacked does not depend on the target |
| LegacyEngine.TargetCoherent | ChessGameClasses.py:76-140 | replacing the target by none or by the position's own keeps a sane, coherent position sane and coherent |
| LegacyEngine.SweptCoherent | ChessGameClasses.py:106-140 | the target `getValidMoves` leaves keeps a sane, coherent position sane and coherent |
| LegacyEngine.UndoKeepsCoherent | ChessGameClasses.py:76-103 | undoing a move `getValidMoves` returned, from the position it led to with its own target or none, gives back the old position with its target or none, sane and coherent |
| LegacyEngine.CheckIgnoresTarget | ChessGameClasses.py:126-133 | the check test gives the same answer with the target the loop leaves |
| LegacyEngine.SweepReady | ChessGameClasses.py:111-124 | the pseudo-legal moves are all applicable and distinct, and the loop over them yields `ValidMoves` |
| LegacyEngine.SweepAdvance | ChessGameClasses.py:113-124 | one loop step keeps the loop invariant |
| LegacyEngine.Game.constructor | ChessGameClasses.py:12-41 | the starting position with empty history and clear flags; the position is sane and coherent |
| LegacyEngine.Game.MakeMove | ChessGameClasses.py:45-73 | the position becomes `MakePos` of the old one and the move is appended to the history |
| LegacyEngine.Game.Lift | ChessGameClasses.py:46-49 | the start cell is emptied and the moved piece put on the end cell |
| LegacyEngine.Game.Land | ChessGameClasses.py:59-66 | promotion and the en-passant capture are applied |
| LegacyEngine.Game.MoveKing | ChessGameClasses.py:54-58 | the moved king's cached square follows it |
| LegacyEngine.Game.SetEnPassant | ChessGameClasses.py:67-73 | the target is set iff a pawn moved two rows |
| LegacyEngine.Game.UndoMove | ChessGameClasses.py:76-103 | no-op on an empty history; otherwise pops the move and restores board, turn and kings, with the target rule of this engine |
| LegacyEngine.Game.PopHistory | ChessGameClasses.py:78-80 | pops and returns the last move |
| LegacyEngine.Game.Unlift | ChessGameClasses.py:81-84 | the moved and captured pieces are put back |
| LegacyEngine.Game.Untake | ChessGameClasses.py:92-99 | an en-passant capture is put back and its end square becomes the target |
| LegacyEngine.Game.SquareUnderAttack | ChessGameClasses.py:152-166 | true iff the opponent attacks the square; the turn is toggled back, and nothing else changes |
| LegacyEngine.Game.InCheck | ChessGameClasses.py:143-149 | true iff the king of the side to move is attacked |
| LegacyEngine.Game.LeavesKingInCheck | ChessGameClasses.py:114-124 | reports whether the move leaves the king attacked; restores all but the target, which becomes the tried move's |
| LegacyEngine.Game.MoverInCheck | ChessGameClasses.py:116-118 | with the turn flipped, reports whether the side that just moved is attacked |
| LegacyEngine.Game.TryCandidate | ChessGameClasses.py:114-124 | one loop step: removes the move iff illegal and keeps the loop invariant |
| LegacyEngine.Game.RemoveIllegal | ChessGameClasses.py:112-124 | returns `Sweep` of the candidates; the target ends as the first candidate's, or unchanged for none |
| LegacyEngine.Game.SweepAll | ChessGameClasses.py:109-124 | returns `ValidMoves`; only the target changes, to `SweptTarget` |
| LegacyEngine.Game.SetGameOver | ChessGameClasses.py:125-137 | checkmate if no moves and in check, stalemate if no moves and not in check, both cleared otherwise |
| LegacyEngine.Game.GetValidMoves | ChessGameClasses.py:106-140 | returns exactly the legal moves; the board, turn, kings and history are restored, the target becomes `SweptTarget`, and the flags follow the checkmate/stalemate rule |

## Left out

- The user interface (AppClass.py, ChessMain.py, Main.py) and Constants.py: windowing, drawing, events and constants. The only logic they use is `Move.__eq__`, which is modelled.
- `Move.getChessNotation` and `getRankFile`: they read class attributes that do not exist and are never called.
- The `moveFunctions` dictionary is modelled as a match on the piece kind (`Generation.SquareMoves`, `Generators.GetSquareMoves`).
- `promotionChoice` is the constant `Positions.PromotionChoice` (always a queen). Draw rules do not exist in the source and are not added.
- The front end overwrites `whitesMove` after construction when the player takes Black (AppClass.py:83). Both constructors take no parameter, as in the source, and promise the White-first start; `Coherence.InitialCoherent(false)` and `LegacyEngine.LegacyInitialCoherent(false)` show that the Black-first start is sane and coherent as well.
- The board is a field holding a sequence of rows, reassigned cell by cell with `Put`, not an array of arrays. The source's board is owned by the game alone and never aliased, so nothing observable is lost.
- The pawn generator indexes the row ahead without a bounds check. The model requires that no pawn stands on its last rank (`Generation.PawnsSafe`); promotion keeps this true (`Positions.MakePreservesSane`). Python's wrap-around on index -1 is not modelled.
- The two engines have the same generator code. Both use the one model in `Generators`.
- The older engine's `Move` has no `isCastle`. Its moves are modelled with `isCastle` false, and its rights are fixed at none (`LegacyEngine.NoRights`).
- The round trips are proved for moves the generators can produce (`Positions.Applicable`, established by `Shapes.CandidatesApplicable`), not for arbitrary moves handed to `makeMove`.
- Engine.Game.GetValidMoves: requires a sane and consistent position (`Positions.Sane`, `Positions.Consistent`). Consistent means each king stands on its cached square, it is the only king of its colour, and a target lies on row 2 exactly when White is to move. The source relies on this without checking it. The constructor establishes it (with `Coherent`: the side that has just moved is not in check), `Coherence.InitialCoherent` shows it for the Black-first start too, and `Coherence.ValidMoveKeepsCoherent` and `Coherence.StateKeepsCoherent` show that a move `getValidMoves` returned keeps it.
- Engine.Game.MakeMove: its contract does not itself promise `Sane` and `Coherent` afterwards; a caller gets them from `MakeState` and `Coherence.StateKeepsCoherent`.
- Engine.Game.UndoMove: it is not proved to keep `Sane` and `Coherent` for an arbitrary history; undoing a move just made gives back the old state exactly (`Positions.UndoMakeState`).
- Engine.Game.InCheck, Engine.Game.LeavesKingInCheck, Engine.Game.SetGameOver, Engine.Game.GetCandidates: require `Positions.Sane`, which the constructor establishes and every move keeps (`Positions.MakePreservesSane`).
- LegacyEngine.Game.GetValidMoves: requires the same as the current engine. The constructor establishes it (`LegacyEngine.LegacyInitialCoherent` for either side first), `LegacyEngine.SweptCoherent` shows the call keeps it, `Coherence.ValidMoveKeepsCoherent` covers the moves in between, and `LegacyEngine.UndoKeepsCoherent` covers undoing them, one or several in a row.
- LegacyEngine.Game.UndoMove: its contract does not itself promise `Sane` and `Coherent` afterwards, since the class keeps no record of the positions it passed through; a caller gets them from `LegacyEngine.UndoKeepsCoherent`.
- Engine.Game.SetGameOver: when a flag is set the other keeps its old value, as in the source; the contract does not say the two are never both true.
- LegacyEngine.Game.SetGameOver: same as the current engine.
- Running time, and the cost of regenerating every move for each attack query, are not modelled.

## Findings

| source | as written | input that shows it | evidently intended | confidence | as-written member | corrected member |
|---|---|---|---|---|---|---|
| ChessGameClasses.py:76-103 | `undoMove` restores the en-passant target only when it undoes an en-passant capture, clears it after a two-row pawn move, and otherwise keeps whatever the undone move left (always none) | Black's pawn stands on d4 and White plays e2-e4, so d4xe3 en passant is generated. Black plays b8-c6 and the player takes it back with the 'z' key (ChessMain.py:148); the next `getValidMoves` (ChessMain.py:169) offers no move from d4 to e3, because the target e3 is gone | undo restores the target from before the move, as GameClasses.py does with `enPassantPossibleLog` (GameClasses.py:66, 120) | not executed | LegacyEngine.KnightLosesCapture | Positions.UndoMakeState |
