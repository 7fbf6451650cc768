# MLChess engine core in Dafny

MLChess is a small chess engine written in Go. Its core does four things:

- It keeps a board: a list of pieces, an 8x8 grid of pointers into that list, two maps of covered squares, the check flags, the castling rights, the en-passant file, the fifty-move counter and the move number.
- It generates pseudo-legal moves piece by piece and applies a move with `MakeMove`. It keeps the successors that do not leave the mover's king covered.
- It searches with a depth-limited minimax tree with a bound-based cutoff. At the leaves the search uses an evaluator: one of two configurable evaluators, or a plain material count. Before expanding, it orders the successors by that material count.
- It writes the evaluator configuration to JSON and reads it back, turning `Vector` keys into `"(x, y)"` strings and back.

This project models that core:

- **Values.** A board is a value: Go's `Board` is a struct that `MakeMove` clones before changing anything.
- **Loops.** Each loop of the Go code is a Dafny method with loop invariants. Each method is proved against a specification function.
- **What is proved.** The properties the code promises are lemmas about those functions, and so are its surprises.

The model follows the code as written:

- Castling looks for its target squares with file and rank transposed.
- The en-passant removal fires only on a straight pawn move from rank 1 or 6 to rank 3 or 4. It then removes the list entry on the square passed over, and leaves the grid alone. A diagonal en-passant capture removes nothing: the captured pawn stays in the list and on the grid.
- A position counts as a stalemate as soon as either side owns a piece besides its king.
- Castling changes the rook's own position but leaves it in its corner cell.
- A key written by `toString` reads back with its rank set to 0.
- A childless node scores a mated Black as -inf and a mated White as +inf, although the material count is White minus Black.

The modules follow the source files:

| module | models |
|---|---|
| `Utils` | `utils.go`: vectors, `toString`/`fromString`, `boardPosition` |
| `ChessTypes` | the data model of `pieces.go` and `board.go` |
| `Pieces` | per-piece move generation and tests in `pieces.go` |
| `PieceRules` | declarative rules proved about `Pieces` |
| `Coverage` | covered-square maps, check, material and counting in `board.go` |
| `Moves` | `Board.MakeMove`, stage by stage |
| `MoveRules` | what a move does, proved about `Moves` |
| `Boards` | `getPossibleMoves`, `BoardInitialise` and `NewBoard` |
| `BoardText` | `Board.ToString` |
| `MoveOrdering` | `verySimpleHeuristic` and the successor ordering in `minimax.go` |
| `Minimax` | `createRoot` and `newMinimaxTree` |
| `PolicyWriter` | `marshalJson` and `unmarshalJson` |

A Go panic that the core can reach from the boards it builds is a `Result.Failed` value. `Panic` names the kind: a nil dereference or an index out of range. The other panics, on inputs the core never builds, are excluded by preconditions or mapped to one value; "## Left out" lists them. Go map iteration order is unspecified, and the model leaves it open with `:|`, so the proofs cover every order.

## Model

| member | source | states |
|---|---|---|
| Utils.Vector.IsOutOfBounds | utils.go:17-19 | a vector is out of bounds exactly when it is not one of the 64 board squares |
| Utils.Vector.Add | utils.go:21-23 | the sum differs from the receiver by exactly the other vector, in each coordinate |
| Utils.Vector.Mult | utils.go:25-27 | scaling by 1 is the identity and scaling by 0 gives the zero vector |
| Utils.MultNegation | utils.go:25-27 | a step -i is the negation of step i, so the two half-rays of a direction are mirror images |
| Utils.Dec | utils.go:29-31 | the `%d` text of an integer is non-empty, has no comma or space, and starts with '-' exactly for negatives |
| Utils.DigitsValueOfNatToDec | utils.go:29-31 | the decimal digits of n read back as n |
| Utils.Atoi | utils.go:33-38 | `strconv.Atoi`, with its error discarded, always yields an int64 |
| Utils.Clip | utils.go:33-38 | out-of-range input saturates to the nearest int64; an int64 is returned unchanged |
| Utils.AtoiOfDec | utils.go:29-38 | Atoi reads back exactly the int64 that `%d` printed |
| Utils.AtoiLeadingSpace | utils.go:33-38 | a field with a leading space is a syntax error for Atoi and reads as 0 |
| Utils.DecInjective | utils.go:29-31 | distinct integers print differently |
| Utils.IndexOf | utils.go:33-38 | the position found holds the separator, and no earlier position does |
| Utils.Split | utils.go:33-38 | `strings.Split` always yields at least one field |
| Utils.SplitAtOne | utils.go:33-38 | splitting a + [c] + b, where neither side contains c, gives exactly [a, b] |
| Utils.ToString | utils.go:29-31 | a key is "(" + %d of X + ", " + %d of Y + ")": parenthesised, at least six characters |
| Utils.FromString | utils.go:33-38 | the parse panics exactly on a string shorter than two characters or without a comma between the parentheses |
| Utils.SplitToString | utils.go:29-38 | the inside of a key splits at the comma into the X digits and " " + the Y digits |
| Utils.ToStringInjective | utils.go:29-31 | distinct vectors get distinct keys |
| Utils.FromStringWithoutSpaces | utils.go:33-38 | a key written without the space, "(a,b)", reads back as (a, b) |
| Utils.FromStringOfToString | utils.go:29-38 | reading back a key loses the rank: toString (x, y) then fromString gives (x, 0), since Atoi rejects " y" |
| Utils.BoardPosition | utils.go:40-42 | the square name is two characters: the file letter a-h and the rank digit 1-8 of the square |
| Utils.BoardPositionInjective | utils.go:40-42 | distinct squares have distinct names |
| ChessTypes.Opponent | board.go:16-21 | the opponent is always the other colour |
| ChessTypes.Sign | pieces.go:317-327 | every piece type signs with one upper-case letter |
| ChessTypes.MoveDirections | pieces.go:317-327 | sliding directions are non-zero, and only bishop, rook and queen have them |
| ChessTypes.OtherMoves | pieces.go:317-327 | fixed offsets are non-zero, and only knight and king have them |
| ChessTypes.GridOf | board.go:57-64 | the grid filled from the list is a well-formed 8x8 table |
| ChessTypes.LastAt | board.go:57-64 | the index found stands on the square and no later entry does; none means no entry stands there |
| ChessTypes.GridOfCell | board.go:57-64 | each cell of the filled grid holds the last list piece on that square, and an empty cell means no piece is there |
| ChessTypes.BuildGrid | board.go:57-64 | the grid-filling loop builds exactly `GridOf` of the list |
| Pieces.PieceString | pieces.go:19-21 | a piece prints as "(sign, colour initial, (x, y))" with the sign and the initial at fixed positions |
| Pieces.PieceStringInjective | pieces.go:19-21 | distinct pieces print differently: type, colour and square can be read back |
| Pieces.CanPawnMoveTwo | pieces.go:23-28 | only a pawn on its starting rank (1 for White, 6 for Black) may advance two |
| Pieces.WalkHalfRay | pieces.go:54-66 | one half-ray loop appends exactly that half-ray (`Ray`) to the list |
| Pieces.WalkDirection | pieces.go:51-84 | both half-ray loops of a direction append the positive half-ray, then the negative one |
| Pieces.GetRays | pieces.go:51-84 | the loop over the directions appends the rays of every declared direction, in order |
| Pieces.GetDirectionMoves | pieces.go:51-84 | `getDirectionMoves` returns exactly `DirectionMoves` |
| Pieces.WalkOffsets | pieces.go:125-132 | the loop over the fixed offsets appends exactly `Offsets` |
| Pieces.GetPossibleMoves | pieces.go:122-142 | `getPossibleMoves` returns exactly `PossibleMoves`: rays, offsets, pawn moves and castling candidates |
| Pieces.GetCoveredSquares | pieces.go:144-202 | `getCoveredSquares` returns exactly `CoveredSquares` |
| Pieces.Contains | pieces.go:204-226 | the search reports true exactly when the square is in the move list |
| Pieces.IsProtecting | pieces.go:204-214 | true exactly when the other piece has the same colour and stands on one of p's possible moves |
| Pieces.IsAttacking | pieces.go:216-226 | true exactly when the other piece has the other colour and stands on one of p's possible moves |
| Pieces.CanTake | pieces.go:307-315 | true exactly when the other piece stands on one of p's possible moves, whatever its colour |
| PieceRules.RayMembership | pieces.go:54-80 | a half-ray holds exactly the squares reached through empty squares, plus the first blocker when it may be taken (or when covering) |
| PieceRules.RaysMembership | pieces.go:51-84 | a square is in the rays iff it lies on a qualifying half-ray of one of the directions |
| PieceRules.DirectionMovesRule | pieces.go:51-84 | a sliding move is an on-board square d*i away, with every square between empty and the target empty or enemy-held; both directions of the iff |
| PieceRules.OffsetsMembership | pieces.go:125-132 | an offset square is kept iff it is on the board and, unless covering, empty or enemy-held |
| PieceRules.PawnMovesRule | pieces.go:86-120 | pawn moves square by square: a push to an empty square with 0 < y+dir < 8, a double push from the start rank, and diagonals holding an enemy or beside a pawn on the en-passant file; both directions |
| PieceRules.BlackPawnOnSecondRankCannotPush | pieces.go:86-120 | a Black pawn on rank index 1 has no push to rank 0, because of the guard on y + dir |
| PieceRules.CastlingMovesRule | pieces.go:30-49 | castling candidates are (0,2)/(0,6) for White and (7,2)/(7,6) for Black, each needing its right and its listed squares empty; both directions |
| PieceRules.CastlingNeverReachesFideSquares | pieces.go:30-49 | because file and rank are transposed, c1 = (2,0) and g1 = (6,0) are never castling candidates |
| PieceRules.PawnCoveredRule | pieces.go:173-191 | a pawn covers nothing on rank 0 or 7, and otherwise exactly its on-board forward diagonals |
| PieceRules.CoveredSquaresRule | pieces.go:144-202 | a non-pawn covers its rays up to and including the first occupied square of either colour, and every on-board offset |
| PieceRules.PossibleMovesOnBoard | pieces.go:122-142 | every pseudo-legal destination is on the board |
| PieceRules.CoveredSquaresOnBoard | pieces.go:144-202 | every covered square of an on-board piece is on the board |
| PieceRules.CoveredSquaresFrame | pieces.go:144-202 | covered squares depend only on the grid: boards with the same grid give the same squares |
| Coverage.CoveredMap | board.go:144-158 | the covered map is a well-formed 8x8 table |
| Coverage.CoveredMapFrame | board.go:144-158 | the covered map reads nothing of the board but its piece list and its grid |
| Coverage.MarkSquares | board.go:149-155 | marking sets exactly the listed squares to true and leaves every other cell as it was |
| Coverage.CoveredAmongNext | board.go:144-158 | taking piece i into account adds exactly its covered squares when it has the given colour |
| Coverage.GetCoveredMap | board.go:144-158 | `getCoveredSquares(c)` yields the map where a cell is true iff some piece of colour c covers it |
| Coverage.FirstKing | board.go:160-176 | the index found holds a king of the colour and no earlier entry does; none means the list has no such king |
| Coverage.GetIsChecked | board.go:160-176 | `getIsWhiteChecked`/`getIsBlackChecked` report whether the colour's first king stands on a square the other side's recorded map covers |
| Coverage.KingCoveredByOpponentPiece | board.go:160-176 | with the maps freshly computed, a side is in check iff some opponent piece covers its first king's square |
| Coverage.NoKingNoCheck | board.go:160-176 | a colour with no king in the list is never in check |
| Coverage.CheckSufficientMaterial | board.go:191-221 | because `hasBishopOrPawn` starts out true, the answer is true exactly when the colour owns a piece besides a king |
| Coverage.CountColour | board.go:497-515 | a colour never counts more pieces than the list has |
| Coverage.CountPieces | board.go:497-515 | `noWhitePieces`/`noBlackPieces` count exactly the pieces of the colour |
| Coverage.CountsPartition | board.go:497-515 | every piece is counted for exactly one side |
| Moves.FirstAt | board.go:319-329 | the index found stands on the square and no earlier entry does; none means no entry stands there |
| Moves.Overwrite | board.go:341-344 | writing through a tracked index changes only that entry, and nothing when the entry is gone |
| Moves.SwapRemove | board.go:324-326 | the swap-removal shortens the list by one and moves the last entry into the gap |
| Moves.SwapRemoveMultiset | board.go:324-326 | removing entry i drops exactly one copy of that piece and keeps every other piece |
| Moves.Track | board.go:319-329 | a tracked index after a removal is gone if it named the removed entry, is moved to i if it named the last one, and stays put otherwise |
| Moves.TrackSound | board.go:319-329 | tracking follows the object: the tracked index holds the same piece after the removal |
| Moves.RemoveFirstAt | board.go:319-329 | the remove-first-match loop finds the first entry on the square and removes exactly it |
| Moves.SetCell | board.go:340-341 | writing a cell changes that cell and no other |
| Moves.CastleCorner | board.go:372-392 | a relocation is triggered only by a landing on file 2 or 6; its corner is on the colour's home rank, on the board, not the landing square, and its new file is on the board |
| Moves.Capture | board.go:319-329 | the capture keeps every piece on the board and both tracked indices valid |
| Moves.Lift | board.go:340-341 | the mover is written on its destination and then its origin is cleared, and the grid stays consistent |
| Moves.Relocate | board.go:313-344 | after the relocation the mover stands on its destination and the board is consistent |
| Moves.TakeEnPassant | board.go:346-359 | the en-passant removal keeps the board consistent |
| Moves.Displace | board.go:313-359 | after the relocation and the en-passant removal the mover stands on its destination |
| Moves.RevokeRights | board.go:402-442 | the rights update changes the four castling flags and nothing else on the board |
| Moves.Recover | board.go:394-400 | recomputing coverage leaves a well-formed board |
| Moves.Promote | board.go:361-370 | the promotion keeps the board consistent |
| Moves.MoveRook | board.go:372-392 | the relocation fails exactly on an empty corner, and otherwise keeps the grid and the list well-formed |
| Moves.Castling | board.go:372-392 | when the rook part succeeds, the grid and the list stay well-formed |
| Moves.Conclude | board.go:394-449 | the final updates leave a well-formed board |
| Moves.ApplyMove | board.go:312-452 | a completed move leaves a well-formed board |
| Moves.PromoteAndCastle | board.go:361-392 | after the promotion and castling stage the grid and the list stay well-formed |
| Moves.Complete | board.go:361-449 | a completed finish leaves a well-formed board |
| Moves.CapturePiece | board.go:319-329 | the capture loop computes exactly `Capture` |
| Moves.RelocatePiece | board.go:313-344 | clone, capture, counters and relocation compute exactly `Relocate` |
| Moves.RemoveEnPassant | board.go:346-359 | the en-passant loop computes exactly `TakeEnPassant` |
| Moves.RecoverCoverage | board.go:394-400 | the coverage and check loops compute exactly `Recover` |
| Moves.Finish | board.go:394-449 | the final updates compute exactly `Conclude` |
| Moves.MakeMove | board.go:312-452 | `MakeMove` computes exactly `ApplyMove`, whose properties are the `MoveRules` lemmas |
| MoveRules.Origin | board.go:313-317 | the piece found on the origin of the rebuilt grid is in the list and stands on the origin |
| MoveRules.Stages | board.go:312-452 | a move decomposes into relocation, en-passant removal and finish |
| MoveRules.Concluded | board.go:361-452 | a completed move that a missing promotion did not halt ran the final updates |
| MoveRules.Outcome | board.go:361-392 | the grid and list of a completed move are those of the clone or of the castling stage |
| MoveRules.RelocateFacts | board.go:313-344 | the relocation's effect on the counters, the en-passant file, the mover and the captured piece |
| MoveRules.TakeEnPassantFacts | board.go:346-359 | only the list changes, by at most one entry, and only for a pawn staying on the en-passant file; the grid is not touched |
| MoveRules.DisplaceFacts | board.go:313-359 | the mover, the counters and the list length after relocation and en passant |
| MoveRules.DisplaceCells | board.go:313-359 | the origin is cleared, the destination holds the mover, and every other cell is the rebuilt grid's |
| MoveRules.PromoteFacts | board.go:361-370 | the promotion changes the mover's type, its destination cell and its list entry, and nothing else |
| MoveRules.CastlingFacts | board.go:372-392 | the relocation touches only the corner cell, and fails exactly on an empty corner |
| MoveRules.PromoteAndCastleFrame | board.go:361-392 | the mover's final type, and the fields that promotion and castling leave alone |
| MoveRules.PromoteAndCastleFailure | board.go:361-392 | the stage panics with a nil dereference exactly when the castling corner is empty |
| MoveRules.PromoteAndCastleCells | board.go:361-392 | apart from the destination and the castling corner, the grid is the relocation's |
| MoveRules.PromoteAndCastleRook | board.go:372-392 | the castling corner keeps a piece whose own position names the new file |
| MoveRules.ConcludeFrame | board.go:394-449 | the final updates touch only the maps, flags, rights, side to move and move number |
| MoveRules.ConcludeCoverage | board.go:394-400 | the maps and check flags are those of the final board |
| MoveRules.PlacedCells | board.go:313-392 | when a piece leaves its square, the origin ends empty and the destination holds the mover |
| MoveRules.MoveFailure | board.go:312-452 | `MakeMove` panics exactly when no piece is on the origin, or when a king lands on file 2 or 6 with the right while the corner is empty (or is the square it left) |
| MoveRules.MoveClocks | board.go:319-339 | the fifty-move count restarts on a capture or pawn move and otherwise grows by one; the en-passant file becomes the origin's file exactly when the origin piece is a pawn on a rank with y % 5 == 1 and the destination is on rank 3 or 4, for any destination given, and -1 otherwise |
| MoveRules.MoveTurn | board.go:361-449 | the side passes and the move number grows after White, unless a due promotion was not given; the result and children are copied |
| MoveRules.MoveRights | board.go:362-442 | each right after the move, exactly: a halted promotion keeps all four; otherwise a right survives iff it was held, the mover (as promoted) is not its side's king, the mover is not its side's rook from file 7 (0) ending on its home rank, and the destination is not its corner |
| MoveRules.RightsOnlyRevoked | board.go:402-442 | no move grants a castling right |
| MoveRules.RookLeavingRankKeepsRight | board.go:414-421 | a white rook moving from h1 to h4 keeps the king-side right, because the rook test reads the rank after the move |
| MoveRules.MoveText | board.go:314-389 | the move text: sign of the argument piece's type and both squares, plus "=" and the promotion's sign when given; "O-O-O" or "O-O" for a king landing on file 2 or 6; a halted promotion keeps the plain text |
| MoveRules.PromoteAndCastleText | board.go:362-392 | after the promotion and castling stage the move text is the castling name for a king on file 2 or 6, otherwise the relocation's text with the promotion suffix |
| MoveRules.EnPassantCaptureKeepsPawn | board.go:334-359 | a pawn capturing diagonally beside an enemy pawn leaves that pawn in the list and on its cell |
| MoveRules.FileChangeRemovesNothing | board.go:334-359 | a move that changes file never triggers the en-passant removal: the list is the relocated list |
| MoveRules.PlainPlacement | board.go:361-392 | without a promotion, a mover that is not a king reaches the final updates with the relocated list and grid |
| MoveRules.RelocateKeeps | board.go:313-344 | a list piece on neither the origin nor the destination is still in the list after the relocation |
| MoveRules.MoverLands | board.go:340-370 | the origin cell is empty and the destination holds the mover with its new position and (promoted) type |
| MoveRules.RookRelocationKeepsCell | board.go:372-392 | the castled rook stays in its corner cell while its own position names the new file |
| MoveRules.MoveListLength | board.go:319-359 | the list loses the captured piece and at most one more, the en-passant removal, which only happens when the piece stays on its file |
| MoveRules.CoverageFresh | board.go:394-400 | after a move, each map holds exactly what that colour covers and each flag whether that colour's first king is covered |
| Boards.PromotionChoices | board.go:461-478 | one promotion argument (none) for an ordinary move, the four types for a pawn reaching rank 0 or 7 |
| Boards.ChoicesMembership | board.go:460-479 | a board is kept for one destination exactly when some promotion argument produces it and it passes the check test |
| Boards.TryMovesMembership | board.go:458-481 | a board is kept for a piece exactly when some destination produces it |
| Boards.SuccessorsMembership | board.go:454-487 | a board is a successor exactly when some piece of the side to move reaches it |
| Boards.ProducedIsSafe | board.go:454-491 | a produced successor hands the move to the other side and does not leave the mover's king covered |
| Boards.SuccessorsAreSafe | board.go:454-491 | every successor passes `verifyBoardState` and has the other side to move |
| Boards.SuccessorSource | board.go:454-487 | every successor comes from a piece of the side to move, one of its destinations and a promotion argument |
| Boards.SuccessorsComplete | board.go:454-487 | every move of a piece of the side to move whose result passes the test is listed |
| Boards.MoveNeverPanics | board.go:312-392 | `MakeMove` does not panic when the origin holds a list piece and a piece other than a king holds every corner, for any promotion argument other than a king |
| Boards.TryChoicesOk | board.go:461-478 | under the same conditions, no promotion argument tried at one destination panics |
| Boards.TryMovesOk | board.go:458-481 | under the same conditions, no destination of a piece panics |
| Boards.SuccessorsOk | board.go:454-491 | under the same conditions, the successors of any run of list pieces do not panic |
| Boards.PossibleBoardsOk | board.go:454-491 | `getPossibleMoves` never panics on a well-formed board whose four corners hold pieces other than kings |
| Boards.GatherOk | board.go:461-478 | a run of `MakeMove` results without a panic gathers without a panic |
| Boards.LastAtUnique | board.go:57-64 | a piece alone on its square is the one the grid holds there |
| Boards.TryMovesFailedPrefix | board.go:458-481 | once a prefix of the destinations panics, the whole run panics the same way |
| Boards.SuccessorsFailedPrefix | board.go:454-487 | once a prefix of the pieces panics, the whole run panics the same way |
| Boards.GetPieceSuccessors | board.go:458-481 | the destination loop of one piece computes exactly `PieceSuccessors` |
| Boards.KeepChoices | board.go:460-479 | the promotion loop of one destination computes exactly `TryChoices` |
| Boards.GetPossibleMoves | board.go:454-487 | `getPossibleMoves` computes exactly `PossibleBoards`, whose members are characterised by `SuccessorsMembership` |
| Boards.Judge | board.go:96-108 | the result is a stalemate exactly when the stalemate test holds, since it is applied last; otherwise White's mate, then Black's |
| Boards.Fresh | board.go:57-90 | the board before its verdict has a grid built from the list and all pieces on the board |
| Boards.BoardInitialise | board.go:56-113 | `BoardInitialise` computes exactly `Initialise` |
| Boards.GetVerdict | board.go:96-108 | the short-circuit tests compute exactly `Verdict` |
| Boards.InitialiseFields | board.go:56-113 | the list and the given fields are kept, and the grid is built from the list |
| Boards.InitialiseShape | board.go:56-113 | the board returned is the checked board with a result and children added |
| Boards.InitialiseCoverage | board.go:86-95 | both covered maps and both check flags are up to date |
| Boards.InitialiseChildren | board.go:110 | each stored child passes the check test, hands the move over, and carries the parent's result and no children |
| Boards.InitialiseWinner | board.go:96-108 | with any piece besides the kings, or fifty moves without progress, the result is a stalemate; White wins only when both sides have only kings, Black is checked and White is not; Black wins only when both sides have only kings and White is checked; no side wins at fifty moves without progress |
| Boards.Officers | board.go:118-135 | the literal list has sixteen pieces |
| Boards.NewBoard | board.go:116-142 | `NewBoard` initialises the standard start list with White to move and all four rights, and never panics |
| Boards.PawnRowsFacts | board.go:137-140 | n rounds of the pawn loop give 2n pawns, white on rank 1 and black on rank 6 |
| Boards.PawnRowsDistinct | board.go:137-140 | no two of those pawns share a square |
| Boards.StartPlacement | board.go:116-142 | the start list holds 32 pieces, all on the board, no two on one square |
| Boards.StartCounts | board.go:116-142 | the start list has sixteen pieces of each colour |
| Boards.StartKings | board.go:116-142 | the only kings are the white one at index 14 on (4,0) and the black one at 15 on (4,7) |
| Boards.FirstKingUnique | board.go:160-176 | a king that is the only one of its colour is the one found first |
| Boards.StartFirstKings | board.go:160-176 | in the start list each side's king is the one the check tests find |
| Boards.NewBoardStalemate | board.go:96-142 | initialising the starting position succeeds, and the result is recorded as a stalemate, because each side owns pieces besides its king |
| Boards.StartInitialises | board.go:116-142 | initialising the starting position never panics |
| Boards.StartCornersHeld | board.go:118-135 | the four rooks of the starting list hold the four corners |
| Boards.StartCorners | board.go:118-135 | the first four entries of the starting list are the corner rooks, each the last and only piece on its square |
| BoardText.Upper | board.go:231-235 | upper-casing keeps the length and leaves every character outside a-z unchanged |
| BoardText.PieceLetterIgnoresColour | board.go:231-235 | the printed letter is the sign for both colours, because every sign is already upper case |
| BoardText.RankCells | board.go:226-248 | one rank of the grid is eight cells |
| BoardText.CastlingField | board.go:256-271 | the castling field lists exactly the rights that are left, as K, Q, k, q, and is "-" exactly when none is |
| BoardText.RankWidth | board.go:228-246 | a rank text accounts for the pending run plus one square per cell |
| BoardText.EightSquaresPerRank | board.go:226-248 | every rank of the text accounts for exactly eight squares |
| BoardText.ColourBlind | board.go:224-275 | colour is not encoded: boards that differ only in their pieces' colours print alike |
| BoardText.ToString | board.go:224-275 | `ToString` computes exactly `BoardString` |
| BoardText.WriteRanks | board.go:226-248 | the loop over the ranks computes exactly `Ranks` |
| BoardText.WriteRank | board.go:228-246 | the cell loop with its run counter and final flush computes exactly `RankText` |
| BoardText.WriteCastling | board.go:256-271 | the castling tests compute exactly `CastlingText` |
| MoveOrdering.PieceValue | minimax.go:181-215 | an on-board pawn is worth between 1 and 1.7 pawns (20 to 34 twentieths), and every other piece at least a knight's 3 |
| MoveOrdering.VerySimpleHeuristic | minimax.go:181-215 | the loop computes exactly the White-minus-Black material balance `Material` |
| MoveOrdering.MaterialAppend | minimax.go:181-215 | the balance of two lists joined is the sum of their balances |
| MoveOrdering.MirrorAll | minimax.go:181-215 | mirroring mirrors each piece in place |
| MoveOrdering.MaterialMirror | minimax.go:181-215 | swapping the sides and mirroring the ranks negates the balance |
| MoveOrdering.KingOutweighs | minimax.go:181-215 | up to 32 on-board pieces besides the kings never add up to one king's worth, so a king's loss always dominates the balance |
| MoveOrdering.MaterialBound | minimax.go:181-215 | without kings, each on-board piece moves the balance by at most a queen's worth |
| MoveOrdering.RankStates | minimax.go:100-109 | the loop computes exactly `Ranked`, the map from key to the last successor with that key |
| MoveOrdering.RankedValues | minimax.go:100-109 | every stored board is one of the successors, filed under its own key |
| MoveOrdering.RankedLast | minimax.go:100-109 | every successor's key is stored, and it holds the last successor with that key |
| MoveOrdering.RankedKeys | minimax.go:100-109 | a key is stored iff some successor has it |
| MoveOrdering.Insert | minimax.go:110-114 | inserting adds exactly one copy of the key |
| MoveOrdering.Sort | minimax.go:110-114 | sorting keeps the keys as a multiset |
| MoveOrdering.InsertAscending | minimax.go:110-114 | inserting into an ascending list keeps it ascending |
| MoveOrdering.SortAscending | minimax.go:110-114 | sorting distinct keys gives an ascending list of exactly those keys |
| MoveOrdering.SortedKeys | minimax.go:110-114 | the sorted keys of a set are ascending and hold exactly the set |
| MoveOrdering.AscendingUnique | minimax.go:110-114 | two ascending lists with the same keys are the same list, so the order of iteration does not matter |
| MoveOrdering.Order | minimax.go:100-117 | there is one expanded board per distinct key |
| MoveOrdering.OrderMembers | minimax.go:100-117 | the i-th expanded board is a successor with the i-th smallest key |
| MoveOrdering.OrderAscending | minimax.go:100-117 | keys rise strictly along the expansion order, so the least favourable move for the mover comes first |
| MoveOrdering.OrderSize | minimax.go:100-117 | at most one board per successor is expanded, and some board is expanded whenever there is a successor |
| MoveOrdering.EqualKeysDropEarlier | minimax.go:100-117 | of two different successors with the same key only the later is ever expanded |
| MoveOrdering.ExpansionOrder | minimax.go:100-117 | whatever order map iteration yields, the loops compute exactly `Order` |
| MoveOrdering.CollectKeys | minimax.go:110-113 | the collected keys are exactly the map's keys, each once |
| MoveOrdering.ReadBack | minimax.go:116-117 | the i-th board read back is the one stored under the i-th sorted key |
| Minimax.BestIsBest | minimax.go:72-77 | the better of two scores is one of them and no worse than either for the side |
| Minimax.NoWorseTrans | minimax.go:153-174 | "no worse than" is transitive |
| Minimax.Values | minimax.go:153-174 | the value list has one entry per child, the child's value |
| Minimax.BestUpTo | minimax.go:153-174 | the earliest-best index among the first n values is below n |
| Minimax.BestIndexFacts | minimax.go:153-174 | the chosen child's value is no worse than any other, strictly better than every earlier one, and equals the running best after the loop |
| Minimax.BestUpToPrefix | minimax.go:153-174 | the earliest best among the first n values depends on those values only |
| Minimax.FoldFront | minimax.go:116-138 | folding a value in first is the same as starting from its combination with the start |
| Minimax.TerminalNeverFails | minimax.go:140-151 | a node without successors always gets a value: -inf iff Black is checked, +inf iff only White is, 0 iff neither; the "minimax error" branch is unreachable |
| Minimax.FullOverImproves | minimax.go:116-138 | expanding more children never makes the running best worse |
| Minimax.BestAgrees | minimax.go:116-138 | a child that agrees with its true value under the running best moves the running best as the true value would |
| Minimax.NodeSound | minimax.go:65-179 | the cutoff is sound: whenever plain minimax gets a value, the search does too, and the two agree under the node's bound |
| Minimax.ExploreSound | minimax.go:116-138 | the expansion succeeds when plain minimax does, expands something when there is a successor, and its running best agrees with plain minimax under the bound |
| Minimax.NodeShape | minimax.go:65-179 | each node keeps height and strategy, sits at its depth with its side, records its bound, and returns an empty children slice |
| Minimax.NodeState | minimax.go:65-98 | a node's state is its board with its computed successors stored as children |
| Minimax.LeafNode | minimax.go:84-96 | a node at full height takes its evaluator's value of its state and chooses no move |
| Minimax.Runs | minimax.go:116-138 | there is one running best per expanded value |
| Minimax.ExploreCutoff | minimax.go:116-138 | every expanded child but the last left the running best short of the bound; if children were left over, the last one reached it |
| Minimax.ExploreShape | minimax.go:116-138 | children are one deeper with the other side, and each is bounded by its parent's running best before it |
| Minimax.RunsEndInFold | minimax.go:116-138 | the last running best is the fold of all the values |
| Minimax.DepthOne | minimax.go:53-60 | the root creates one depth-1 node per listed successor |
| Minimax.RootChildExact | minimax.go:53-60 | a depth-1 node gets exactly its plain minimax value, because the root hands down no bound |
| Minimax.GatherAll | minimax.go:53-60 | when every node succeeds, gathering yields exactly their values in order |
| Minimax.RootChildrenExact | minimax.go:53-60 | the root's children all succeed and carry their plain minimax values |
| Minimax.RootChoosesBest | minimax.go:32-63 | the root's choice is sound: the chosen move's plain minimax value is no worse than any other child's, and with no children the root chooses its own state |
| Minimax.Searching | minimax.go:32-63 | the search keeps the given height and strategy and uses `getPossibleMoves` as its successor function |
| Minimax.NewMinimaxTree | minimax.go:65-179 | `newMinimaxTree` computes exactly `Node` at the parent's depth + 1, for the other side, bounded by the parent's running best |
| Minimax.ConcludeNode | minimax.go:140-177 | judging or selecting after the expansion computes exactly `Conclude` |
| Minimax.Expand | minimax.go:116-138 | the expansion loop computes exactly `Explore`, stopping after the first child that brings the running best to the bound |
| Minimax.ExpandOne | minimax.go:116-138 | the expansion loop's account holds after each child |
| Minimax.ExploreFails | minimax.go:116-138 | a first child that panics makes the expansion panic |
| Minimax.JudgeTerminal | minimax.go:140-151 | the terminal tests compute exactly `Terminal` |
| Minimax.SelectBest | minimax.go:153-174 | the selection picks the earliest child no other beats, records its index counted within `children[1:]`, and returns the running best |
| Minimax.TracksStep | minimax.go:50-59 | the root's update keeps the earliest-best child and value |
| Minimax.BestIndexAppend | minimax.go:153-174 | a new child becomes the earliest best exactly when it is strictly better |
| Minimax.GatherFail | minimax.go:53-60 | a child that panics after a run of successes makes the whole root panic in the same way |
| Minimax.GrowRoot | minimax.go:32-63 | `createRoot`'s body computes exactly `Root` for any search |
| Minimax.GrowChildren | minimax.go:36-60 | the root loop computes every depth-1 node and ends on the earliest child no other beats, or -1 when there is none |
| Minimax.CreateRoot | minimax.go:32-63 | `createRoot` with the given evaluators computes exactly `Root` of the search `Searching` |
| PolicyWriter.MarshalJson | policyWriter.go:62-88 | the result copies the six passthrough fields and re-keys `positionMod` and `squareBaseValues` by `toString` |
| PolicyWriter.EncodeSquares | policyWriter.go:74-85 | each square's weight is stored under its key, and there is no other key |
| PolicyWriter.UnmarshalJson | policyWriter.go:90-116 | reading back succeeds exactly when every square key parses, and then re-keys both maps by `fromString` |
| PolicyWriter.DecodeSquares | policyWriter.go:102-113 | the loop panics exactly on a key `fromString` rejects; otherwise every key is read and each entry's weight comes from some key read as it |
| PolicyWriter.EncodesCount | policyWriter.go:74-85 | writing keeps the number of squares, since distinct squares get distinct keys |
| PolicyWriter.DecodesCount | policyWriter.go:102-113 | reading never adds keys: keys that read alike merge |
| PolicyWriter.EncodedParses | policyWriter.go:62-116 | every key written for a square whose file fits an int64 is one `fromString` accepts |
| PolicyWriter.ReadsBackFile | utils.go:29-38 | `fromString` reads each written key (x, y) back as (x, 0) |
| PolicyWriter.SquaresRoundTrip | policyWriter.go:62-116 | writing then reading a square map gives each square (x, y) back as (x, 0), with the weight of some square on file x |
| PolicyWriter.RekeyedCount | policyWriter.go:74-85 | re-keying by a function that is injective on the keys keeps their number |
| PolicyWriter.CollectedCount | policyWriter.go:102-113 | collecting never makes more keys than there were |
| PolicyWriter.RekeyedThenCollected | policyWriter.go:62-116 | when reading undoes writing up to a projection, a round trip maps each key through the projection |
| PolicyWriter.BoardCollapses | policyWriter.go:62-116 | read back, the 64 board squares collapse onto at most the 8 squares of rank 0 |
| PolicyWriter.RoundTrip | policyWriter.go:62-116 | reading back never fails; the passthrough fields and `positionMod`'s piece keys come back unchanged; every square key (x, y) comes back as (x, 0) |
| PolicyWriter.SameFileCollides | policyWriter.go:62-116 | two squares on the same file read back under the same key |

## Left out

- Preconditions in place of panics. Boards.Fresh, Boards.Initialise and Boards.BoardInitialise require every piece on the board, because board.go:62 would index outside the grid. Moves.ApplyMove and Moves.MakeMove require a well-formed board and an origin and destination on the board, because `getSquare` would index outside the grid (board.go:313, 320). Minimax.Expansion maps every board that is not well formed to `Failed(IndexOutOfRange)`, whether or not Go would panic on it. The core meets all of these: `NewBoard` places pieces on the board, and `getPossibleMoves` only makes on-board moves.
- Floating point. `verySimpleHeuristic` works in float64 and adds `float64(y) * 0.1` per pawn, summed in list order. The model counts in twentieths of a pawn: these are the exact values, while Go's keys are rounded, and the rounding depends on the list order that swap-removes change. MoveOrdering.Order merges successors with equal exact keys (`EqualKeysDropEarlier`, `OrderSize`), so it may keep fewer boards than Go when rounding separates two equal balances. Configuration weights are `real`, because the two conversions only copy them. NaN and rounding are not modelled.
- Utils.FromString: keys are sequences of characters, not bytes. Go slices off the first and last byte and splits bytes, so a key with a non-ASCII character is read differently in Go: for "é5,1)" Go's slice starts inside the two-byte "é", `Atoi` fails and Go returns (0, 1), while the model returns (5, 1). The keys the core writes are ASCII, so the round-trip lemmas are unaffected.
- 64-bit integers are unbounded, except where `strconv.Atoi` saturates. That saturation is written out.
- `generalHeuristic` and `heuristics.go` are not part of this model. The two configured evaluators are parameters of the search.
- Random generation of configurations, the configuration file I/O, `arena.go`, `main.go` and `qLearning.go` are not part of this model. `createRoot` takes the two evaluators as arguments instead of drawing them at random.
- The "minimax error" line that `newMinimaxTree` prints is left out. `TerminalNeverFails` shows that the branch cannot be reached.
- Minimax.CreateRoot: height 0 is excluded by its precondition. In Go a height-0 search recurses without bound.
- Minimax.Node: the search is proved for any successor function. `Searching` instantiates it with `getPossibleMoves`.
- Minimax.SelectBest: `nextMoveIndex` is counted within `children[1:]`, as the loops count it. The model records that index as written.
- Pointers are values and indices. A tree's `nextMove` is the chosen child's board, `currentMove` is a child index, and grid cells hold piece values kept in step with the list through tracked indices.
- Utils.FromString: both kinds of Go panic, a slice out of bounds and an index out of range, are the same `None`, which the readers turn into `IndexOutOfRange`.
- PolicyWriter.MarshalJson: in Go the result shares the six passthrough maps with the input. The model copies them, so aliasing is not modelled.
- `geometricAbs` and `sortDiminishing` (utils.go:44-56) compute on float64 and are not used by the modelled core.
- `Piece.clone` and `Board.clone` are modelled inside `MakeMove` as value copies. The grid is rebuilt from the list.
- The commented-out code of pieces.go:228-301 is not modelled.
