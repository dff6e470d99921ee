# A verified model of a bitboard chess engine

This project models, in Dafny, the core of a Go chess engine: the `chessboard`
package (bitboards, squares, pieces, moves, the board and its in-place move,
FEN reading, the game history, legal-move generation, Zobrist packing and the
transposition table, static evaluation, and the brute-force negamax search)
and the `bitboard_generators` programs that build the precomputed king,
knight, rook, bishop and pawn-structure tables.

Squares are `bv8` values below 64 (A1 = 0, H8 = 63, file = square % 8,
rank = square / 8) and bitboards are `bv64` words, so Go's `uint64`
wrap-around, shifts and masks are modelled bit for bit. Go's `int` division
truncates toward zero and is written out in `GoInt`. Where the Go code
panics the model mostly returns an error value (`Outcomes.Result`) or
reports a failure flag. The exceptions are listed under "Left out", among
them `Games.Game.UndoMove`, whose precondition rules out its panic.

The modules follow the source:

- `Bitboards`, `Squares`, `Pieces`, `Moves`, `LegacyPieces`, `LegacySquares`: chessboard/bitboard.go, square.go, piece.go, move.go and the older root piece.go and square.go.
- `Boards`, `BoardInvariant`, `BoardMove`, `BoardFacts`, `BoardHash`: chessboard/board.go. `Board.Move` is a method on a class holding the board value. It is proved to keep the summary bitboards consistent and to place the right pieces, and its hash delta is compared with the pieces that change.
- `Attacks`: `IsUnderAttack` and the magic-indexed rook and bishop lookups.
- `Fen`, `Games`: chessboard/game.go. FEN parsing has every rejection the source makes. `Game.Move` and `Game.UndoMove` act on a history stack.
- `PieceMoves`, `Pawns`, `Legality`: chessboard/game_legal_moves.go. The piece move generators, castling, pawn pushes, captures and promotions, the legality filter and the per-position cache.
- `Zobrist`: chessboard/zobrist.go. The bit fields of a table word, as written and corrected, and the direct-mapped `ZobristTable` class.
- `Evaluation`, `SquareSums`, `PieceSquareTables`: chessboard/engine_evaluation.go and engine.go. The bit-clearing loops are methods proved equal to order-free sums over the board.
- `Search`: chessboard/engine_bruteforce.go. The search methods play and take back moves on the engine's own game. Each is proved equal to a recursive specification (`RecNode`, `QNode`, `RootMove`) and to leave the game as it found it.
- `KingTable`, `KnightTable`, `RookTable`, `BishopTable`, `PawnMasks`, `BlockerSubsets`, `SlidingRays`, `MagicTables`, `TableBuilding`: the generators in bitboard_generators. Each table is built by a loop over arrays and proved equal to its set-theoretic description. The magic-indexed tables are proved to answer every blocker set within the mask, and to fail exactly when two blocker sets share a key with different moves.
- `GoInt`, `Outcomes`: Go integer semantics and the result types.

## Model

| member | source | states |
|---|---|---|
| Pieces.ColorName | chessboard/piece.go:13-24 | a colour has a name exactly when it is one of the three colours; any other value is the panic path (None) |
| Pieces.Other | chessboard/piece.go:26-38 | defined exactly on the three colours, where it negates the colour; otherwise the panic path |
| Pieces.OtherInvolution | chessboard/piece.go:26-38 | taking the other colour twice gives the colour back |
| Pieces.OtherSwaps | chessboard/piece.go:27-37 | white and black swap; no colour stays no colour |
| Pieces.ColorNamesDistinct | chessboard/piece.go:13-24 | distinct colours have distinct names |
| Pieces.PieceName | chessboard/piece.go:60-91 | a piece code has a name exactly when it lies in NoPiece..BlackPawn; any other code panics (None) |
| Pieces.PieceNamesDistinct | chessboard/piece.go:60-91 | the thirteen piece names are pairwise distinct |
| Pieces.PieceColor | chessboard/piece.go:93-125 | NoPiece has no colour, WhiteKing..WhitePawn are white, BlackKing..BlackPawn are black, every other code panics (None) |
| Pieces.ColorPairs | chessboard/piece.go:44-58 | the black piece six codes after a white piece has the other colour |
| LegacyPieces.PieceName | piece.go:32-63 | the top-level package's piece names: defined exactly on NoPiece..BlackPawn |
| LegacyPieces.PieceColor | piece.go:65-97 | the top-level package's piece colours: the same three ranges as the chessboard package |
| LegacyPieces.PieceNamesDistinct | piece.go:32-63 | the thirteen names are pairwise distinct |
| LegacyPieces.SameConstants | piece.go:5-30 | the top-level constants for pieces and colours equal the chessboard package's |
| LegacyPieces.SameBehaviour | piece.go:32-97 | the top-level String and Color agree with the chessboard package's on every integer |
| LegacySquares.SquareBitboardHas | square.go:17-20 | the bitboard of an on-board square has exactly the bit rank*8 + file set |
| LegacySquares.SquareBitboardInjective | square.go:17-20 | distinct on-board squares give distinct bitboards |
| LegacySquares.SquareBitboardA1 | square.go:17-20 | A1 is bit 0 |
| LegacySquares.SquareBitboardD3 | square.go:17-20 | D3 is 524288 |
| LegacySquares.SquareBitboardH8 | square.go:17-20 | H8 is the top bit |
| LegacySquares.NameOnBoard | square.go:22-24 | the name of an on-board square is the file letter followed by the rank digit |
| Squares.Index | chessboard/square.go:30-34 | the index is rank*8 + file; on the board it lies in 0..63 with file = index % 8 and rank = index / 8 |
| Squares.SquareBitboardHas | chessboard/square.go:17-20 | the square's bitboard has exactly the bit at its index set |
| Squares.IndexRoundTrip | chessboard/square.go:22-34 | for 0 <= i < 64, SquareFromIndex(i) is on the board and its index is i |
| Squares.SquareRoundTrip | chessboard/square.go:22-34 | a square with file < 8 comes back from SquareFromIndex(Index(s)) unchanged |
| Squares.SquareBitboardInjective | chessboard/square.go:17-20 | distinct on-board squares give distinct bitboards |
| Squares.SquareBitboardA1 | chessboard/square_test.go:8-12 | A1 is bit 0, as the square tests expect |
| Squares.SquareBitboardD3 | chessboard/square_test.go:14-18 | D3 is 524288, as the square tests expect |
| Squares.SquareBitboardH8 | chessboard/square_test.go:20-24 | H8 is the top bit, as the square tests expect |
| Squares.Decimal | chessboard/square.go:36-38 | the %d rendering of a natural number: never empty, one digit below ten |
| Squares.NameOnBoard | chessboard/square.go:36-38 | an on-board square's name has two characters: the file letter A..H and the rank digit 1..8 |
| Squares.NameInjective | chessboard/square.go:36-38 | two on-board squares with the same name are equal |
| Squares.SquareColor | chessboard/square.go:40-47 | a square is black or white |
| Squares.ColorAlternates | chessboard/square.go:40-47 | neighbouring squares on a rank or file have opposite colours |
| Squares.SquareColorExamples | chessboard/square_test.go:28-47 | A1 and H8 are black, D3 is white |
| Moves.SquareName | chessboard/move.go:12-18 | a square renders as two characters |
| Moves.SquareNameInjective | chessboard/move.go:12-18 | two squares with the same rendering are equal |
| Moves.MoveNameLayout | chessboard/move.go:12-18 | a move renders as from, '-', to, and '=' followed by the promotion piece exactly when there is a promotion |
| Moves.MoveNameInjective | chessboard/move.go:12-18 | two moves render the same exactly when from, to and promotion agree |
| Moves.FlagsNotRendered | chessboard/move.go:12-18 | the move's flags do not affect its rendering |
| Moves.MoveNameExample | chessboard/move.go:12-18 | the double push from E2 renders as "E2-E4" |
| Games.Game.constructor | chessboard/game.go:80-86 | a new game holds the given tables and position, a one-entry history and no moves |
| Games.Game.CopyFrom | chessboard/game.go:25-31 | copying a game copies its tables, position, history and moves and keeps the game well formed |
| Games.Game.Current | chessboard/game.go:52-55 | the current position is the last entry of the history |
| Games.Game.Move | chessboard/game.go:37-43 | the new position is the successor of the old one under the move; the position is appended to the history and the move to the move list; the tables do not change |
| Games.Game.UndoMove | chessboard/game.go:45-50 | with at least two positions in the history, the last move and last position are dropped and the position before them becomes current |
| Games.MoveThenUndo | chessboard/game.go:37-50 | a move followed by an undo restores the game's position, history and moves |
| Fen.TrimLeft | chessboard/game.go:88 | the result is a suffix of the input that does not start with white space, and everything cut off is white space |
| Fen.TrimRight | chessboard/game.go:88 | the result is a prefix of the input that does not end with white space, and everything cut off is white space |
| Fen.TrimSpaceSlice | chessboard/game.go:88 | the trimmed string is a contiguous slice of the input with only white space on either side of it |
| Fen.TrimSpaceEnds | chessboard/game.go:88 | a non-empty trimmed string neither starts nor ends with white space |
| Fen.Split | chessboard/game.go:89 | splitting always yields at least one field |
| Fen.SplitJoin | chessboard/game.go:89 | joining the fields with the separator gives the input back; no field holds the separator; there is one more field than separators |
| Fen.Atoi | chessboard/game.go:112-118 | a parsed number fits Go's 64-bit int |
| Fen.DecimalDigits | chessboard/game.go:112-118 | the decimal rendering of n consists of digits whose value is n |
| Fen.AtoiDecimal | chessboard/game.go:112-118 | a rendered natural number parses back to itself |
| Fen.AtoiNegative | chessboard/game.go:112-118 | a minus sign followed by a rendered number parses to its negation |
| Fen.AtoiRejects | chessboard/game.go:112-121 | a string with a non-digit after the first character is rejected, so NewGameFromFEN fails on it |
| Fen.ParseCastleRights | chessboard/game.go:130-146 | each of the four rights is set exactly when its letter K, Q, k or q occurs in the field |
| Fen.CastleRightsExamples | chessboard/game.go:130-146 | "-" gives no rights and "KQkq" gives all four |
| Fen.DigitJump | chessboard/game.go:198-204 | a digit advances the cursor by its value |
| Fen.ScanFromAccepts | chessboard/game.go:155-208 | scanning the rest of the board field from any state succeeds exactly when every character is a piece letter, '/' or a digit |
| Fen.ScanTextAccepts | chessboard/game.go:149-208 | the board field is accepted exactly when every character is a piece letter, '/' or a digit; any other character is the panic path |
| Fen.FenBoardFilled | chessboard/game.go:210 | a parsed board has its summary bitboards filled from its piece bitboards, and is consistent exactly when the twelve piece bitboards are disjoint |
| Fen.ScanStep | chessboard/game.go:157-207 | one loop iteration: a piece letter sets that piece's bit at the cursor and advances it by one, '/' moves the cursor back 16, a digit advances it by its value, anything else fails |
| Fen.ParseFenBoard | chessboard/game.go:149-213 | the cursor loop starting at A8 computes the board that the scanning fold defines, or its error |
| Fen.FillBoard | chessboard/game.go:210 | the summary bitboards and king squares are filled from the piece bitboards |
| Fen.ParseFieldsAccepted | chessboard/game.go:94-122 | six fields are accepted exactly when the board parses, the turn is "w" or "b", the en passant square is known, the clock is a number >= 0 and the move count a number >= 1 |
| Fen.ParseFieldsValues | chessboard/game.go:94-122 | an accepted position holds the parsed board, the turn of "w"/"b", the castling rights, the en passant square, the half-move clock and the move count |
| Fen.ParseFenAccepts | chessboard/game.go:88-92 | a FEN string is accepted exactly when its trimmed form has exactly five spaces (six fields) and the fields are accepted |
| Fen.NewGameFromFen | chessboard/game.go:79-128 | on failure the error is the parser's; on success a fresh game holds the parsed position, a history of exactly that position and no moves |
| Bitboards.Extensionality | chessboard/bitboard.go:3-5 | two bitboards with the same set squares are equal (bit s is square s, A1 = bit 0) |
| Bitboards.SquareBitHas | chessboard/square.go:17-20 | a square's bit has exactly that square set |
| Bitboards.ClearLowest | chessboard/bitboard.go:14 | b & (b - 1) toggles exactly the lowest set bit |
| Bitboards.ClearSquare | chessboard/bitboard.go:14 | b & (b - 1) keeps every set square except the lowest one |
| Bitboards.ClearLeastSignificantBit | chessboard/bitboard.go:14 | the result holds the squares of b other than its lowest set square; 0 stays 0 |
| Bitboards.ClearDecrementsCount | chessboard/bitboard.go:14-15 | on a non-empty bitboard, clearing the lowest bit lowers the number of set squares by one |
| Bitboards.LowestExists | chessboard/bitboard.go:37-42 | a non-empty bitboard has a lowest set square |
| Bitboards.LowestIsUnique | chessboard/bitboard.go:37-42 | the lowest set square is unique |
| Bitboards.LowestIsolated | chessboard/bitboard.go:41 | b & -b is the bit of the lowest set square |
| Bitboards.PopCountZero | chessboard/bitboard.go:10-12 | the number of set squares is zero exactly for the empty bitboard |
| Bitboards.KernighanPopCount | chessboard/bitboard.go:7-16 | the recursion returns the number of set squares (the counting specification) |
| Bitboards.PopCountRange | chessboard/bitboard.go:9-16 | the count lies in 0..64 |
| Bitboards.ParallelIsPopCount | chessboard/bitboard.go:26-34 | the duo, nibble and byte sums followed by the multiply-and-shift give the number of set squares, under wrapping uint64 arithmetic |
| Bitboards.ParallelPopCount | chessboard/bitboard.go:18-35 | the parallel count equals Kernighan's count on every 64-bit value |
| Bitboards.LeastSignificantBit | chessboard/bitboard.go:37-42 | for a non-empty bitboard the result is the index of its lowest set square; for 0 it is 64; always in 0..64 |
| Bitboards.BelowLowest | chessboard/bitboard.go:39-41 | (b & -b) - 1 is exactly the squares below the lowest set square |
| Bitboards.PopCountOfLowMask | chessboard/bitboard.go:41 | the squares below k number k |
| Bitboards.LeastSignificantBitIsLowest | chessboard/bitboard.go:37-42 | the pop count of (b & -b) - 1 is the lowest set index, or 64 for the empty bitboard |
| Bitboards.SingleSquare | chessboard/bitboard_test.go:20-24 | a single-square bitboard has both pop counts 1 and its own index as lowest bit |
| Bitboards.PopCountExamples | chessboard/bitboard_test.go:6-47 | both counts give 5 for 0b01110101 and 0 for 0 |
| Bitboards.LeastSignificantBitExamples | chessboard/bitboard_test.go:49-68 | the lowest bit of 0b01110101 is 0, of 0b1110000 is 4, of E3 is 20 |
| Bitboards.CellsText | chessboard/bitboard.go:48-55 | a rank renders as two characters per square |
| Bitboards.CellsTextAt | chessboard/bitboard.go:50-54 | cell j of a rank is '1' for a set square and '.' otherwise, followed by a space |
| Bitboards.RankBits | chessboard/bitboard.go:48-50 | the eight cells of a rank are the squares of that rank from file A to H |
| Bitboards.Rows | chessboard/bitboard.go:47-57 | line i shows rank 8 - i, so rank 8 comes first |
| Bitboards.RenderShows | chessboard/bitboard.go:44-60 | the rendering is 8 lines of 16 characters joined by newlines with the final newline dropped; cell (i, j) shows whether square (rank 8 - i, file j) is set |
| Bitboards.RenderInjective | chessboard/bitboard.go:44-60 | different bitboards render differently |
| Bitboards.RankLine | chessboard/bitboard.go:48-55 | the inner loop over the files builds the text of one rank |
| Bitboards.String | chessboard/bitboard.go:44-60 | the nested loops build exactly the rendering, rank 8 first, with the last newline cut off |
| Boards.LowestFromIsLowest | chessboard/board.go:33-34 | the scan from i finds the lowest set square of the king bitboard, or 64 when there is none |
| Boards.KingSquareOf | chessboard/board.go:33-34 | a king square lies in 0..64 |
| Boards.KingSquareIsLeastSignificantBit | chessboard/board.go:33-34 | the stored king square is LeastSignificantBit of the king's bitboard |
| Boards.FirstPieceFrom | chessboard/board.go:40-67 | the search from bitboard i finds the first piece bitboard holding the square, or NoPiece when none does |
| Boards.PieceAt | chessboard/board.go:37-68 | Piece(s) is NoPiece exactly when no piece bitboard holds s; otherwise it is the first piece in the order WhiteKing..BlackPawn whose bitboard holds s |
| Boards.CastlingRookJump | chessboard/board.go:168-213 | a castling flag moves a rook of the castling side |
| Boards.MoveDelta | chessboard/board.go:88-101 | the hash delta of a move from an occupied square is built from keyed placements only |
| Boards.Board.constructor | chessboard/board.go:5-24 | a board object holds the given state |
| Boards.Board.FillSummaries | chessboard/board.go:28-32 | white and black squares become the unions of each side's six bitboards and the empty squares their common complement |
| Boards.Board.FindKings | chessboard/board.go:33-34 | each king square becomes the lowest bit of that king's bitboard |
| Boards.Board.FillSupportBitboards | chessboard/board.go:26-35 | the new state is the old one with its summaries and king squares filled |
| Boards.Board.PlacePiece | chessboard/board.go:103-149 | from and to are cleared in all twelve bitboards and the moving piece is set on to; summaries and king squares are untouched |
| Boards.Board.TrackKing | chessboard/board.go:151-156 | a king square changes to the target exactly when that king moves |
| Boards.Board.MoveSummaries | chessboard/board.go:158-166 | from becomes empty and to occupied; the mover's side gains to and loses from; the other side loses to |
| Boards.Board.Relocate | chessboard/board.go:103-166 | the state becomes the relocated state for the piece |
| Boards.Board.JumpRook | chessboard/board.go:170-211 | the rook and its side's summary move from origin to destination, the empty squares follow, and the returned hash is the rook's keys on both squares |
| Boards.Board.CaptureEnPassant | chessboard/board.go:215-230 | with an en passant flag the pawn one rank behind the target is removed from its bitboard and its side, and its square becomes empty |
| Boards.Board.Castle | chessboard/board.go:168-213 | the state becomes the castled state and the hash is the rook keys of the castling flag |
| Boards.Board.Move | chessboard/board.go:84-233 | when the source square is occupied the board becomes the moved board and the hash delta is returned; an empty source square is the panic path and leaves the board unchanged |
| BoardInvariant.HoldsOnlyPieceAt | chessboard/board.go:37-68 | a square held only by piece p reads as p |
| BoardInvariant.HoldsOnlyIffDisjoint | chessboard/board.go:37-68 | a square is held by at most its reported piece exactly when the piece bitboards are disjoint there |
| BoardInvariant.OccupiedByColor | chessboard/board.go:28-31 | a square held only by p is in the white union exactly when p is white and in the black union exactly when p is black |
| BoardInvariant.FilledAt | chessboard/board.go:26-35 | after filling, the summaries agree with the pieces at a square exactly when the piece bitboards are disjoint there |
| BoardInvariant.FilledConsistent | chessboard/board.go:26-35 | a filled board is consistent exactly when its twelve piece bitboards are disjoint |
| BoardInvariant.SummariesAt | chessboard/board.go:28-32 | on a consistent square the summaries are the unions and their complement |
| BoardInvariant.ConsistentSummariesFilled | chessboard/board.go:26-32 | refilling the summaries of a consistent board changes nothing |
| BoardFacts.WhiteUnionHas | chessboard/board.go:28-29 | the white union holds a square exactly when one of the six white bitboards does |
| BoardFacts.BlackUnionHas | chessboard/board.go:30-31 | the black union holds a square exactly when one of the six black bitboards does |
| BoardFacts.UnoccupiedHas | chessboard/board.go:32 | the empty squares are those in neither union |
| BoardFacts.VacatedHas | chessboard/board.go:159 | after a move the empty squares gain from and lose to |
| BoardFacts.EnteredHas | chessboard/board.go:161-164 | the mover's side gains to and loses from |
| BoardFacts.CapturedHas | chessboard/board.go:162-165 | the other side loses to |
| BoardFacts.ClearedHas | chessboard/board.go:103-119 | a cleared piece bitboard loses exactly from and to |
| BoardFacts.PlacedHas | chessboard/board.go:121-146 | a placed piece bitboard gains exactly to |
| BoardFacts.JumpedHas | chessboard/board.go:171-175 | a castling rook's bitboard and side gain the destination and flip the origin |
| BoardFacts.UnblockedHas | chessboard/board.go:177-178 | the empty squares flip the rook's destination and gain its origin |
| BoardFacts.ToggledHas | chessboard/board.go:220-221 | the en passant pawn's bitboard and side flip the captured pawn's square |
| BoardFacts.FreedHas | chessboard/board.go:222 | the empty squares gain the captured pawn's square |
| BoardMove.RelocatedBoardAt | chessboard/board.go:103-149 | after clearing and placing, bitboard i holds s exactly when i is the placed piece's and s is the target, or it held s before and s is neither from nor to |
| BoardMove.RelocatedPiecesAt | chessboard/board.go:103-149 | a square held by one piece before is held by exactly its relocated occupant after |
| BoardMove.SideAfterMoveHas | chessboard/board.go:160-166 | the mover's side gains to and flips from; the other side only loses to |
| BoardMove.RelocatedEmptyAt | chessboard/board.go:159 | the empty squares after the relocation are those whose relocated occupant is NoPiece |
| BoardMove.RelocatedWhiteAt | chessboard/board.go:160-166 | the white squares after the relocation are those holding a white piece |
| BoardMove.RelocatedBlackAt | chessboard/board.go:160-166 | the black squares after the relocation are those holding a black piece |
| BoardMove.RelocatedSummariesAt | chessboard/board.go:103-166 | a square whose summaries agreed with its occupant before still agrees after the relocation |
| BoardMove.RookJumpedPiecesAt | chessboard/board.go:170-211 | the castling rook leaves its corner for the square beside the king; other squares keep their piece |
| BoardMove.SideAfterJumpHas | chessboard/board.go:174-175 | the castling side gains the rook's destination and flips its origin; the other side is unchanged |
| BoardMove.RookJumpedEmptyAt | chessboard/board.go:177-178 | the empty squares after the rook jump are those with no occupant |
| BoardMove.RookJumpedWhiteAt | chessboard/board.go:174-186 | the white squares after the rook jump are those holding a white piece |
| BoardMove.RookJumpedBlackAt | chessboard/board.go:196-207 | the black squares after the rook jump are those holding a black piece |
| BoardMove.RookJumpedSummariesAt | chessboard/board.go:168-213 | summaries that agreed before the rook jump agree after it |
| BoardMove.CastledAt | chessboard/board.go:168-213 | each castling flag moves its rook H1 to F1, A1 to D1, H8 to F8 or A8 to D8 and keeps the square consistent |
| BoardMove.EnPassantVictim | chessboard/board.go:215-230 | the captured pawn stands on a square other than the target (one rank behind it) |
| BoardMove.PawnSquareHas | chessboard/board.go:218-224 | the removed pawn square is to - 8 for a white capture and to + 8 for a black one |
| BoardMove.EnPassantPiecesAt | chessboard/board.go:215-230 | en passant removes the enemy pawn behind the target and nothing else |
| BoardMove.EnPassantSummariesAt | chessboard/board.go:215-230 | summaries that agreed before the en passant removal agree after it |
| BoardMove.MovedBoardIsMoved | chessboard/board.go:84-233 | a move from an occupied square succeeds with the moved board |
| BoardMove.StagesReady | chessboard/board.go:103-230 | an applicable move meets the preconditions of each stage: relocation keeps colour, the castling rook is in place, the en passant victim is the enemy pawn |
| BoardMove.MovedAt | chessboard/board.go:84-233 | on a consistent square the moved board holds exactly the square's occupant after the move |
| BoardMove.MoveKeepsConsistent | chessboard/board.go:84-233 | if the summaries agreed with the pieces before an applicable move (castling and en passant included), they agree afterwards, and every square holds its occupant after the move |
| BoardMove.OccupantsOfMove | chessboard/board.go:103-149 | after the move the origin is empty and the target holds the mover or the promotion piece |
| BoardMove.OccupantsOfSideEffects | chessboard/board.go:168-230 | castling puts the rook beside the king and empties its corner; en passant empties the captured pawn's square |
| BoardMove.OccupantsUntouched | chessboard/board.go:84-233 | squares the move does not touch keep their occupant |
| BoardMove.MoveSquares | chessboard/board.go:84-233 | on a consistent board: from is empty, to holds only the placed piece (any captured piece is cleared from every bitboard), the castling rook and en passant pawn are handled, every other square is unchanged |
| BoardMove.SquaresAfter | chessboard/board.go:84-233 | the same facts for any consistent board whose squares hold the occupants after the move |
| BoardMove.TargetHoldsOnly | chessboard/board.go:37-68 | on a consistent board each square is held only by its reported piece |
| BoardMove.SingleSquareFound | chessboard/board.go:33-34 | a king bitboard with one square yields that square |
| BoardMove.KingsOnSingletons | chessboard/board.go:22-23 | kings on single squares that the fields record satisfy the king-square invariant |
| BoardMove.FilledFindsKings | chessboard/board.go:26-35 | filling a board with one king of each colour records their squares |
| BoardMove.MovedKingSquares | chessboard/board.go:151-156 | a king square changes to the target exactly when that king is the placed piece |
| BoardMove.TouchedHeldNoKing | chessboard/board.go:168-230 | the squares a castling rook or an en passant capture touches hold no king before the move |
| BoardMove.CastlingSquaresHeld | chessboard/board.go:168-213 | an applicable castling move finds its rook on the corner and the destination empty |
| BoardMove.VictimHeld | chessboard/board.go:215-230 | an applicable en passant move finds a pawn on the victim square |
| BoardMove.TouchedHoldsNoKing | chessboard/board.go:168-230 | the squares a castling rook or an en passant capture touches hold no king after the move |
| BoardMove.SquareChange | chessboard/board.go:84-233 | per square, the move empties the origin, fills the target and leaves kings only where they were |
| BoardMove.MovedSquares | chessboard/board.go:84-233 | the same per-square description for every square of a board equal to the move's result |
| BoardMove.KingPlaced | chessboard/board.go:151-156 | when a move keeps the kings, it captures no king and places a king exactly when a king moves |
| BoardMove.KingAt | chessboard/board.go:151-156 | a king stands on a square after the move exactly when it is the square its field records after the move |
| BoardMove.KingTracked | chessboard/board.go:151-156 | the one square of a king after the move is the square the king field records |
| BoardMove.KingsAfter | chessboard/board.go:151-156 | the king-square invariant holds after the move |
| BoardMove.MoveTracksKings | chessboard/board.go:151-156 | the king square fields change exactly when a king moves, so they keep naming each king's square |
| BoardHash.Occurrences | chessboard/board.go:88-101 | a placement occurs at most as many times as the list is long |
| BoardHash.OccurrencesAppend | chessboard/board.go:88-101 | occurrence counts add over concatenation |
| BoardHash.CountInDelta | chessboard/board.go:180-211 | a delta XORs the mover's key at from, the placed piece's key at to, the captured piece's key at to and, on castling, the rook's keys at both squares |
| BoardHash.DescribedParity | chessboard/board.go:88-101 | a placement is XORed an odd number of times exactly when it changes |
| BoardHash.MoveDeltaWellFormed | chessboard/board.go:88-101 | the delta of an applicable move lists the mover at from, the placed piece at to and only keyed placements |
| BoardHash.MoveDeltaDescribes | chessboard/board.go:88-101 | away from an en passant victim, the delta describes the change at every square |
| BoardHash.DeltaRightAt | chessboard/board.go:88-101 | away from an en passant victim, a placement is XORed an odd number of times exactly when the move changes it |
| BoardHash.MoveDeltaRight | chessboard/board.go:84-233 | for a move without en passant the returned delta XORs exactly the changed placements |
| BoardHash.VictimNotInDelta | chessboard/board.go:215-230 | the delta never mentions the en passant victim's square |
| BoardHash.VictimChanges | chessboard/board.go:215-230 | on the victim's square only the captured pawn's placement changes |
| BoardHash.EnPassantDeltaMissesPawn | chessboard/board.go:215-230 | as written, an en passant capture removes a pawn whose key the delta never XORs, so the delta is wrong |
| BoardHash.OccurrencesOfVictim | chessboard/board.go:215-230 | the corrected victim list holds the captured pawn's placement once |
| BoardHash.CorrectedRightAtVictim | chessboard/board.go:215-230 | with the captured pawn's key added, the victim square is hashed right |
| BoardHash.CorrectedRightAtOther | chessboard/board.go:88-101 | with the captured pawn's key added, every other square is still hashed right |
| BoardHash.CorrectedDeltaRight | chessboard/board.go:84-233 | with the captured pawn's key added, the delta XORs exactly the changed placements for every applicable move |
| Attacks.TopBitsBound | chessboard/board.go:268 | the top `bits` bits of a product are below 2^bits |
| Attacks.KeyFitsRow | chessboard/board.go:268-276 | with at most 12 index bits a key fits the 4096-entry rook row, with at most 10 the 1024-entry bishop row |
| Attacks.RowIndex | chessboard/game.go:18-22 | a key below 4096 indexes a rook row; below 1024 a bishop row |
| Attacks.MagicKey | chessboard/board.go:267-268 | key = (blockers * magic mod 2^64) >> (64 - bits) lies inside the rook row, and inside the bishop row when bits <= 10 |
| Attacks.EnemyOffset | chessboard/board.go:242-252 | the enemy bitboards start at black's for white to move and at white's otherwise |
| Attacks.MeetWitness | chessboard/board.go:254-280 | two bitboards that intersect share a square |
| Attacks.MeetAt | chessboard/board.go:254-280 | a shared square makes the intersection non-empty |
| Attacks.TableHitWitness | chessboard/board.go:254-280 | when a table test hits, some square is both attacked by the table and held by a matching enemy piece |
| Attacks.TableHitFrom | chessboard/board.go:254-280 | such a square makes a table test hit |
| Attacks.PawnSquareIsDiagonal | chessboard/board.go:282-313 | the pawn squares examined are the diagonal neighbours one rank ahead (white, below H7) or behind (black, above H2) |
| Attacks.WhitePawnAttackIff | chessboard/board.go:282-297 | with white to move the pawn test hits exactly when a black pawn stands on an attacking diagonal square |
| Attacks.BlackPawnAttackIff | chessboard/board.go:298-313 | otherwise it hits exactly when a white pawn stands on an attacking diagonal square |
| Attacks.PawnAttackIff | chessboard/board.go:282-313 | the pawn test hits exactly when an enemy pawn attacks the square |
| Attacks.AttackerWitness | chessboard/board.go:236-316 | an attacked square has an attacker: an enemy king, knight, rook or queen, bishop or queen, or pawn on a square the matching test reaches |
| Attacks.AttackerFrom | chessboard/board.go:236-316 | any such attacker makes IsUnderAttack true |
| Attacks.IsUnderAttackIff | chessboard/board.go:236-316 | IsUnderAttack is true exactly when some enemy piece attacks the square through the king, knight, rook-lookup, bishop-lookup or pawn test; the board, a value, is not changed |
| Zobrist.Signed16 | chessboard/zobrist.go:39-40 | an int16 bit pattern reads as a value in -32768..32767 |
| Zobrist.Int16RoundTrip | chessboard/zobrist.go:39-40 | every int16 value survives conversion to its bit pattern and back |
| Zobrist.GeneratedKey | chessboard/zobrist.go:19-35 | every generated key has its low 21 bits zero |
| Zobrist.XorKeepsDataClear | chessboard/zobrist.go:19-35 | XOR of two keys keeps the low 21 bits zero |
| Zobrist.SetData | chessboard/zobrist.go:38-48 | SetData only sets bits: every bit of the hash stays set |
| Zobrist.Key | chessboard/zobrist.go:50-82 | the key lies in 0 .. 2^27 - 1, the table size |
| Zobrist.PositionHash | chessboard/zobrist.go:55-58 | the position hash is a 43-bit value |
| Zobrist.Evaluation | chessboard/zobrist.go:60-65 | the decoded evaluation lies in 0 .. 2^15 - 1 |
| Zobrist.Depth | chessboard/zobrist.go:67-72 | the decoded depth lies in 0..63 |
| Zobrist.SetDataLowerBound | chessboard/zobrist.go:39-77 | on a hash with low 21 bits zero, the stored lower-bound flag reads back |
| Zobrist.SetDataDepth | chessboard/zobrist.go:39-72 | on a hash with low 21 bits zero and 0 <= depth < 64, the stored depth reads back |
| Zobrist.SetDataKeepsKey | chessboard/zobrist.go:39-58 | for 0 <= evaluation < 256 and 0 <= depth < 64, SetData changes neither Key nor PositionHash |
| Zobrist.SetDataEvaluationDoubles | chessboard/zobrist.go:40-65 | as written, for 0 <= evaluation < 256 the evaluation read back is twice the one stored |
| Zobrist.EvaluationBit8Key | chessboard/zobrist.go:40-53 | as written, `evaluation << 7` is an int16 shift, so whenever bit 8 of the evaluation is set (-256..-1, 256..511, ...) the shifted value is negative, its sign extension fills the high bits and the key becomes 2^27 - 1 whatever the position |
| Zobrist.EvaluationBit8ClearKeepsKey | chessboard/zobrist.go:40-58 | the converse: with bit 8 of the evaluation clear and 0 <= depth < 64, of either sign, SetData changes neither Key nor PositionHash |
| Zobrist.Bit8Examples | chessboard/zobrist.go:40-53 | a score of +256 (one pawn) sends the key to the last slot; a score of -257 leaves it alone |
| Zobrist.EncodeEvaluation | chessboard/zobrist.go:40 | the corrected encoding keeps the evaluation to 14 bits |
| Zobrist.FitsFourteenBitsRange | chessboard/zobrist.go:60 | an evaluation fits the 14-bit field exactly when it lies in -8192..8191 |
| Zobrist.CorrectedRoundTrip | chessboard/zobrist.go:38-65 | with the evaluation stored in 14 bits at bit 7 and read back from bit 7, every evaluation in range reads back unchanged and Key and PositionHash do not change |
| Zobrist.CorrectedFields | chessboard/zobrist.go:38-77 | the corrected encoding still stores depth and lower-bound flag, and a positive depth makes the entry non-zero |
| Zobrist.Lookup | chessboard/zobrist.go:84-92 | Get finds an entry exactly when the slot at the hash's key is non-zero, and returns the slot, or 0 when it is empty |
| Zobrist.StoreThenLookup | chessboard/zobrist.go:84-97 | after storing a non-zero h, a lookup of any hash with the same key returns (true, h) |
| Zobrist.StoreKeepsOthers | chessboard/zobrist.go:84-97 | storing h does not change lookups of hashes with another key |
| Zobrist.ZobristTable.constructor | chessboard/zobrist.go:79-82 | a new table has 2^27 empty slots |
| Zobrist.ZobristTable.Get | chessboard/zobrist.go:84-92 | Get returns the lookup of the current slots |
| Zobrist.ZobristTable.Set | chessboard/zobrist.go:94-97 | Set writes h into the slot at its key and changes no other slot |
| PieceMoves.LowestSquare | chessboard/game_legal_moves.go:80-133 | the square taken from a non-empty bitboard is its lowest set square, LeastSignificantBit |
| PieceMoves.LowestOnBoard | chessboard/game_legal_moves.go:80-133 | LeastSignificantBit of a non-empty bitboard is a square 0..63 |
| PieceMoves.TargetsHas | chessboard/game_legal_moves.go:79-84 | the squares the bit-clearing loop visits are exactly the set squares |
| PieceMoves.TargetsCount | chessboard/game_legal_moves.go:79-84 | the loop visits popcount(b) squares, one bit cleared per iteration |
| PieceMoves.TargetsAscending | chessboard/game_legal_moves.go:79-84 | the squares are visited in ascending order |
| PieceMoves.TailAboveLowest | chessboard/game_legal_moves.go:79-84 | every square visited after the first lies above it |
| PieceMoves.AboveLowest | chessboard/game_legal_moves.go:83 | the squares left after clearing the lowest bit lie above it |
| PieceMoves.QuietStep | chessboard/game_legal_moves.go:79-84 | one iteration emits a plain move to the lowest square and continues with that bit cleared, with fewer bits left |
| PieceMoves.AppendQuietMoves | chessboard/game_legal_moves.go:77-84 | the loop appends one plain move from the square to each set target, in ascending order |
| PieceMoves.MoverPiece | chessboard/game_legal_moves.go:124-131 | the moving side's piece of a kind is a real piece |
| PieceMoves.ConcatStep | chessboard/game_legal_moves.go:132-146 | one outer iteration emits the moves of the lowest piece and continues with the others |
| PieceMoves.ConcatIff | chessboard/game_legal_moves.go:132-146 | a move is emitted exactly when its origin is one of the pieces and it is among that piece's moves |
| PieceMoves.AppendPieceMoves | chessboard/game_legal_moves.go:132-146 | the nested loops append, piece by piece in ascending order, the moves to every reached square not held by an own piece |
| PieceMoves.AppendPieceFrom | chessboard/game_legal_moves.go:136-145 | the inner loop appends the moves of one piece |
| PieceMoves.WalkStep | chessboard/game_legal_moves.go:132-146 | the outer loop's invariant survives one iteration |
| PieceMoves.ComputeKnightMoves | chessboard/game_legal_moves.go:124-147 | appends exactly the knight moves of the side to move |
| PieceMoves.ComputeRookMoves | chessboard/game_legal_moves.go:277-306 | appends exactly the rook moves, read from the magic lookup, of the side to move |
| PieceMoves.ComputeBishopMoves | chessboard/game_legal_moves.go:308-337 | appends exactly the bishop moves, read from the magic lookup, of the side to move |
| PieceMoves.ComputeQueenMoves | chessboard/game_legal_moves.go:339-374 | appends exactly the queen moves, the union of both lookups, of the side to move |
| PieceMoves.PieceFromStarts | chessboard/game_legal_moves.go:136-145 | the moves of a piece start on its square |
| PieceMoves.PieceFromIff | chessboard/game_legal_moves.go:136-145 | a move is among a piece's moves exactly when it starts there and reaches a square not held by an own piece |
| PieceMoves.QuietReachIff | chessboard/game_legal_moves.go:136-145 | the same, stated over the reached squares with own pieces removed |
| PieceMoves.PieceConcatIff | chessboard/game_legal_moves.go:132-146 | membership in the emitted list decomposes by origin square |
| PieceMoves.PieceMovesIff | chessboard/game_legal_moves.go:75-138 | a move is emitted exactly when it starts on a piece of the kind and reaches a square not held by an own piece, so no target holds the mover's own piece |
| PieceMoves.QuietMovesIff | chessboard/game_legal_moves.go:81-144 | the emitted moves are plain moves (no promotion, no flags) to the visited squares |
| PieceMoves.QuietTargetsIff | chessboard/game_legal_moves.go:74-84 | a king move is emitted exactly when its target is reached and not held by an own piece |
| PieceMoves.QuietMovesLength | chessboard/game_legal_moves.go:79-84 | one move per visited square |
| PieceMoves.QuietTargetsCount | chessboard/game_legal_moves.go:74-84 | castling aside, the king's targets number popcount(KingMoves[k] &^ own) |
| PieceMoves.AppendCastles | chessboard/game_legal_moves.go:86-121 | appends the castling moves of the position |
| PieceMoves.AppendWhiteCastles | chessboard/game_legal_moves.go:88-103 | appends white's castling moves |
| PieceMoves.AppendBlackCastles | chessboard/game_legal_moves.go:104-120 | appends black's castling moves |
| PieceMoves.AppendCastle | chessboard/game_legal_moves.go:89-95 | appends the castling move exactly when it is allowed |
| PieceMoves.ComputeKingMoves | chessboard/game_legal_moves.go:65-122 | appends the king's plain moves and then its castling moves |
| PieceMoves.WhiteKingSideBetween | chessboard/game_legal_moves.go:60-90 | the white king-side constant is F1 and G1: the test asks both to be empty |
| PieceMoves.WhiteQueenSideBetween | chessboard/game_legal_moves.go:61-98 | the white queen-side constant is B1, C1 and D1 |
| PieceMoves.BlackKingSideBetween | chessboard/game_legal_moves.go:62-106 | the black king-side constant is F8 and G8 |
| PieceMoves.BlackQueenSideBetween | chessboard/game_legal_moves.go:63-114 | the black queen-side constant is B8, C8 and D8 |
| PieceMoves.CastleMoveIn | chessboard/game_legal_moves.go:89-95 | the castling move is emitted exactly when allowed |
| PieceMoves.WhiteKingCastleIff | chessboard/game_legal_moves.go:89-95 | E1-G1 is emitted exactly when the right is held, F1 and G1 are empty and E1, F1, G1 are not attacked |
| PieceMoves.WhiteQueenCastleIff | chessboard/game_legal_moves.go:97-103 | E1-C1 is emitted exactly when the right is held, B1, C1, D1 are empty and E1, D1, C1 are not attacked |
| PieceMoves.BlackKingCastleIff | chessboard/game_legal_moves.go:105-111 | E8-G8 is emitted exactly when the right is held, F8 and G8 are empty and E8, F8, G8 are not attacked |
| PieceMoves.BlackQueenCastleIff | chessboard/game_legal_moves.go:113-119 | E8-C8 is emitted exactly when the right is held, B8, C8, D8 are empty and E8, D8, C8 are not attacked |
| PieceMoves.CastleMovesShape | chessboard/game_legal_moves.go:86-121 | castling moves go from E1 to G1 or C1 (white) or E8 to G8 or C8 (black) with the matching flag and no promotion |
| PieceMoves.CastleMoveIs | chessboard/game_legal_moves.go:86-121 | a move from the king-side or queen-side castle list is that side's castling move |
| Pawns.OccupiedBitboard | chessboard/game_legal_moves.go:160-179 | the square test used by pawn generation reads the square's bit |
| Pawns.OnBoardBit | chessboard/game_legal_moves.go:160-179 | for an on-board square, the test is membership |
| Pawns.AppendPawnMove | chessboard/game_legal_moves.go:261-275 | appends the four promotions onto the last rank (or first, for black) and one move otherwise |
| Pawns.PawnMovesToCount | chessboard/game_legal_moves.go:261-275 | four moves beyond H7 or below A2, one otherwise, all from the origin to the target with ResetHalfMoveClock |
| Pawns.PawnPromotions | chessboard/game_legal_moves.go:262-273 | beyond H7 the promotions are the white bishop, knight, rook and queen; below A2 the black ones; otherwise none |
| Pawns.PromotionsFlaggedCapture | chessboard/game_legal_moves.go:263-271 | every promotion move carries IsCapture, capture or not |
| Pawns.AppendForward | chessboard/game_legal_moves.go:158-174 | appends the single push when the square ahead is empty and, from the start rank, the double push when both squares ahead are empty |
| Pawns.AppendCapture | chessboard/game_legal_moves.go:176-188 | appends a capture onto an enemy piece, or the en passant capture onto the en passant square, when the file allows it |
| Pawns.AppendPawnSteps | chessboard/game_legal_moves.go:158-202 | appends the push and both captures of one pawn |
| Pawns.ComputePawnMoves | chessboard/game_legal_moves.go:149-259 | appends exactly the pawn moves of the side to move |
| Pawns.AppendWhitePawns | chessboard/game_legal_moves.go:150-203 | the loop over white pawns appends each pawn's moves in ascending order |
| Pawns.AppendBlackPawns | chessboard/game_legal_moves.go:204-258 | the loop over black pawns appends each pawn's moves in ascending order |
| Pawns.ForwardTos | chessboard/game_legal_moves.go:158-174 | a push reaches the square ahead when it is empty, and the one beyond from the start rank when both are empty |
| Pawns.CaptureTos | chessboard/game_legal_moves.go:176-188 | a capture reaches its diagonal square when allowed and the square holds an enemy piece or is the en passant square |
| Pawns.StepsTos | chessboard/game_legal_moves.go:158-202 | a pawn reaches exactly the targets its offsets allow |
| Pawns.WhiteTargets | chessboard/game_legal_moves.go:150-203 | a white pawn reaches exactly the squares the white pawn rule names |
| Pawns.WhiteOffsetsFollowRule | chessboard/game_legal_moves.go:158-202 | white's square offsets (+8, +16 below A3, +7 off file A, +9 off file H) are one rank up, two from rank 2, and the diagonals |
| Pawns.BlackTargets | chessboard/game_legal_moves.go:204-258 | a black pawn reaches exactly the squares the black pawn rule names |
| Pawns.BlackOffsetsFollowRule | chessboard/game_legal_moves.go:212-256 | black's square offsets (-8, -16 above H6, -9 off file A, -7 off file H) are one rank down, two from rank 7, and the diagonals |
| Pawns.WhitePush | chessboard/game_legal_moves.go:159 | +8 is one rank up on the same file |
| Pawns.WhiteDouble | chessboard/game_legal_moves.go:164-165 | +16 from below A3 is two ranks up from rank 1 or 2, passing the square ahead |
| Pawns.WhiteLeft | chessboard/game_legal_moves.go:177-178 | +7 off file A is the up-left diagonal: no left capture from file A |
| Pawns.WhiteRight | chessboard/game_legal_moves.go:191-192 | +9 off file H is the up-right diagonal: no right capture from file H |
| Pawns.BlackPush | chessboard/game_legal_moves.go:213 | -8 is one rank down on the same file |
| Pawns.BlackDouble | chessboard/game_legal_moves.go:218-219 | -16 from above H6 is two ranks down from rank 7 or 8, passing the square ahead |
| Pawns.BlackLeft | chessboard/game_legal_moves.go:231-232 | -9 off file A is the down-left diagonal |
| Pawns.BlackRight | chessboard/game_legal_moves.go:245-246 | -7 off file H is the down-right diagonal |
| Pawns.ForwardMoveShape | chessboard/game_legal_moves.go:158-174 | a push resets the clock; a double push goes two squares ahead through two empty squares from the start rank |
| Pawns.CaptureMoveShape | chessboard/game_legal_moves.go:176-201 | a capture goes to its diagonal; it carries the en passant flag exactly when the target holds no enemy piece, and then the target is the en passant square |
| Pawns.StepsMoveShape | chessboard/game_legal_moves.go:158-202 | every pawn move resets the clock; double pushes and en passant captures meet their conditions |
| Pawns.PawnFromStarts | chessboard/game_legal_moves.go:154-156 | a pawn's moves start on its square |
| Pawns.PawnMovesIff | chessboard/game_legal_moves.go:149-259 | a move is emitted exactly when it starts on an own pawn and is among that pawn's moves |
| Pawns.PawnMovesTargets | chessboard/game_legal_moves.go:149-259 | some move goes from a square to a target exactly when an own pawn stands there and the pawn rule allows the target |
| Pawns.PawnRule | chessboard/game_legal_moves.go:158-256 | a pawn's targets are exactly those the pawn rule of the side to move allows |
| Pawns.PawnMovesFlags | chessboard/game_legal_moves.go:149-259 | every pawn move resets the clock and en passant targets only the position's en passant square, for the side to move |
| Pawns.PawnFromFlags | chessboard/game_legal_moves.go:158-256 | the same facts for one pawn's moves |
| Legality.ComputePseudolegalMoves | chessboard/game_legal_moves.go:11-25 | generates the king, knight, rook, bishop, queen and pawn moves in that order, or fails when the king square is off the board |
| Legality.AppendGenerated | chessboard/game_legal_moves.go:21-25 | appends the knight, rook, bishop, queen and pawn moves in that order |
| Legality.FilterLegalMoves | chessboard/game_legal_moves.go:27-38 | the loop keeps the moves that pass the check, in order, flagging those onto an occupied square as captures |
| Legality.FilterStep | chessboard/game_legal_moves.go:28-37 | one iteration extends the filter over one more move |
| Legality.FilterKeepsError | chessboard/game_legal_moves.go:28-37 | once a check fails (the panic path) the filter's result stays that failure |
| Legality.LegalMoves | chessboard/game_legal_moves.go:3-42 | returns the cached list when there is one and otherwise computes it; a computed list is stored in the current position (and its history entry) and nothing else changes |
| Legality.ComputeLegalMoves | chessboard/game_legal_moves.go:9-38 | generates the pseudo-legal moves and filters them |
| Legality.CacheLegalMoves | chessboard/game_legal_moves.go:40 | the list is stored in the position; tables and moves are unchanged |
| Legality.KeptSnoc | chessboard/game_legal_moves.go:28-37 | the kept list grows by the flagged move exactly when the check passes |
| Legality.FilterIsKept | chessboard/game_legal_moves.go:27-38 | the filter succeeds exactly when every check succeeds, and then returns the kept moves |
| Legality.FilterFirstError | chessboard/game_legal_moves.go:27-38 | a failing filter reports the first failing check |
| Legality.KeptIff | chessboard/game_legal_moves.go:27-38 | a move is kept exactly when it is a flagged pseudo-legal move that passes the check |
| Legality.KeptLength | chessboard/game_legal_moves.go:27-38 | the filter never lengthens the list |
| Legality.FlaggedSameEffect | chessboard/game_legal_moves.go:31-34 | adding the clock and capture flags does not change what the move does to the board |
| Legality.ClockFlagsSameJump | chessboard/game_legal_moves.go:31-34 | the extra flags do not change the castling rook |
| Legality.CastledSame | chessboard/board.go:168-213 | the same castling rook gives the same castled board |
| Legality.ClockFlagsSameCapture | chessboard/game_legal_moves.go:31-34 | the extra flags do not change the en passant capture |
| Legality.FlaggedSameCheck | chessboard/game_legal_moves.go:44-57 | the legality check gives the same answer for the flagged move |
| Legality.LegalMovesSound | chessboard/game_legal_moves.go:27-38 | every returned move is a pseudo-legal move that passed the check, with the capture flags added |
| Legality.LegalMovesSafe | chessboard/game_legal_moves.go:27-57 | every returned move passes checkMoveLegality: after it, on a copy of the board, the mover's king square is not attacked; moves onto occupied squares carry ResetHalfMoveClock and IsCapture |
| Legality.LegalMovesComplete | chessboard/game_legal_moves.go:27-38 | every pseudo-legal move that passes the check is returned |
| Evaluation.MaterialScoreSign | chessboard/engine_evaluation.go:26-31 | the material score `d + (d*100)/(t+1)` is positive exactly when white's weighted total is larger, negative exactly when it is smaller, and within 100 of the plain difference |
| Evaluation.MaterialScoreAntisymmetric | chessboard/engine_evaluation.go:26-31 | swapping the two totals negates the material score (Go's division truncates toward zero) |
| Evaluation.MaterialDifferenceSign | chessboard/engine_evaluation.go:3-32 | `materialDifference` has the sign of white's weighted material (pawn 256, knight 832, bishop 896, rook 1280, queen 2496) minus black's and differs from that difference by less than 100 |
| Evaluation.RatioBounds | chessboard/engine_evaluation.go:28 | the ratio bonus `(difference*100)/(total+1)` lies strictly between -100 and 100, is 0 for no difference and has the difference's sign |
| Evaluation.LinearMaterialDifferenceIsDifference | chessboard/engine.go:8-20 | the earlier `materialDifference`, summed kind by kind, is white's weighted material minus black's |
| Evaluation.MaterialRevisionsAgree | chessboard/engine.go:8-20 | the two revisions of the material term (engine_evaluation.go:3-32 and engine.go:8-20) agree in sign and in being zero, and differ by less than 100 |
| Evaluation.SwappedMaterial | chessboard/engine_evaluation.go:4-24 | on a board with the colours swapped, white's weighted material is black's and vice versa |
| Evaluation.MaterialDifferenceSwapped | chessboard/engine_evaluation.go:3-32 | swapping the colours negates `materialDifference` |
| Evaluation.LinearMaterialDifferenceSwapped | chessboard/engine.go:8-20 | swapping the colours negates the earlier `materialDifference` |
| Evaluation.PieceSquareValues | chessboard/engine_evaluation.go:62-83 | the bit-clearing loop returns the sum over the board of the table value of each set square, read at the rank-mirrored square for black (the same code as chessboard/engine.go:50-71) |
| Evaluation.PositionDifference | chessboard/engine_evaluation.go:43-60 | the result is the white piece-square sums minus the black ones over the six kinds, the king on its middle-game table (as chessboard/engine.go:31-48) |
| Evaluation.KindScoreMirrored | chessboard/engine_evaluation.go:46-57 | one kind's white-minus-black piece-square score is 0 when black's pieces of that kind are white's mirrored by rank |
| Evaluation.PositionScoreMirrored | chessboard/engine_evaluation.go:43-60 | `positionDifference` is 0 on a colour-mirrored position |
| Evaluation.CenterHas | chessboard/engine_evaluation.go:85 | the centre bitboard holds exactly D4, D5, E4 and E5 |
| Evaluation.CenterMask | chessboard/engine_evaluation.go:90 | `pawns & centerBitboard != 0` exactly when a pawn stands on one of the four centre squares |
| Evaluation.CenterControlRange | chessboard/engine_evaluation.go:87-98 | `centerControl` is +70 exactly when only white has a centre pawn, -70 exactly when only black has, 0 when both or neither have (the same code as chessboard/engine.go:75-86) |
| Evaluation.PawnPenaltyDefects | chessboard/engine_evaluation.go:112-123 | a pawn's penalty is 45 for being isolated plus 45 for being doubled, so 0, 45 or 90 |
| Evaluation.DoubledOrIsolatedPawnsPenalties | chessboard/engine_evaluation.go:104-147 | the two bit-clearing loops return black's total pawn penalty minus white's, an order-free sum over the pawns |
| Evaluation.PawnStructureWalks | chessboard/engine_evaluation.go:107-144 | the pawn-structure score equals the two walks over the pawns in lowest-square-first order |
| Evaluation.PawnStructureBounds | chessboard/engine_evaluation.go:104-147 | the pawn-structure score lies between -90 times the white pawn count and 90 times the black pawn count |
| Evaluation.PassedWalk | chessboard/engine_evaluation.go:153-171 | walking one side's pawns adds one per pawn whose zone holds no enemy pawn |
| Evaluation.PassedPawnsBonuses | chessboard/engine_evaluation.go:150-174 | the two loops return 120 times the white passed pawns minus 120 times the black passed pawns |
| Evaluation.PassedScoreWalks | chessboard/engine_evaluation.go:150-174 | the passed-pawn score equals the two walks in lowest-square-first order |
| Evaluation.AddMaterialTerm | chessboard/engine_evaluation.go:181-183 | adds `materialDifference` exactly when its switch is on |
| Evaluation.AddLinearMaterialTerm | chessboard/engine_bruteforce.go:223-225 | adds the earlier, linear `materialDifference` exactly when its switch is on |
| Evaluation.AddPositionTerm | chessboard/engine_evaluation.go:184-186 | adds `positionDifference` exactly when its switch is on |
| Evaluation.AddCenterTerm | chessboard/engine_evaluation.go:187-189 | adds `centerControl` exactly when its switch is on |
| Evaluation.AddPawnStructureTerm | chessboard/engine_evaluation.go:190-192 | adds the doubled or isolated pawn penalties exactly when their switch is on |
| Evaluation.AddPassedPawnTerm | chessboard/engine_evaluation.go:193-195 | adds the passed-pawn bonuses exactly when their switch is on |
| Evaluation.AddEarlyTerms | chessboard/engine_bruteforce.go:221-231 | the earlier evaluation's enabled terms: the linear material term, the piece-square term and the centre term |
| Evaluation.StaticEvaluation | chessboard/engine_evaluation.go:179-201 | the result is turn × (sum of the enabled terms) + turn² × 15, that is turn × terms + 15 for a turn of 1 or -1 |
| Evaluation.TurnScale | chessboard/engine_evaluation.go:198-200 | adding the tempo `turn*15` and then multiplying by the turn gives turn × terms + 15 when the turn is 1 or -1 |
| Evaluation.EarlyStaticEvaluation | chessboard/engine_bruteforce.go:221-234 | the earlier `StaticEvaluation` is the turn times the earlier enabled terms, without a tempo |
| Evaluation.TempoOnly | chessboard/engine_evaluation.go:179-201 | with the pawn terms off, the later evaluation is the earlier one plus 15 plus, when material is on, turn × the difference of the two material terms |
| Evaluation.NoTerms | chessboard/engine_evaluation.go:179-201 | with every switch off the summed terms are 0, so the evaluation is the tempo alone |
| KingTable.KingMovesHas | bitboard_generators/king.go:13-46 | the entry built for a square holds exactly the squares one king step away (rank and file each differ by at most one, not both zero) |
| KingTable.KingMovesExcludeSource | bitboard_generators/king.go:13-46 | no king entry holds its own square |
| KingTable.KingMovesSymmetric | bitboard_generators/king.go:13-48 | t is in the entry of s exactly when s is in the entry of t |
| KingTable.KingMovesSizes | bitboard_generators/king.go:13-46 | a corner entry holds 3 squares, another edge entry 5, an inner entry 8 |
| KingTable.KingEntry | bitboard_generators/king.go:13-46 | the eight guarded additions give the king-step set of the square f + r*8 |
| KingTable.GenerateKing | bitboard_generators/king.go:7-53 | the nested loops fill a 64-entry table whose entry for every square is its king-step set |
| KnightTable.KnightMovesHas | bitboard_generators/knight.go:13-46 | the entry built for a square holds exactly the squares a knight's jump away (one rank and two files, or two ranks and one file) |
| KnightTable.KnightMovesExcludeSource | bitboard_generators/knight.go:13-46 | no knight entry holds its own square |
| KnightTable.KnightMovesSymmetric | bitboard_generators/knight.go:13-48 | t is in the entry of s exactly when s is in the entry of t |
| KnightTable.KnightMovesSizes | bitboard_generators/knight.go:13-46 | every entry holds 2 to 8 squares: 2 in a corner, 8 in the central 4x4 block |
| KnightTable.KnightEntry | bitboard_generators/knight.go:13-46 | the eight guarded additions give the knight-jump set of the square f + r*8 |
| KnightTable.GenerateKnight | bitboard_generators/knight.go:7-53 | the nested loops fill a 64-entry table whose entry for every square is its knight-jump set |
| BlockerSubsets.BlockersHas | bitboard_generators/rook.go:88-97 | the blocker set for counter k holds exactly the choices whose index bit is set in k |
| BlockerSubsets.BlockersWithin | bitboard_generators/rook.go:88-97 | every blocker is one of the choices |
| BlockerSubsets.SelectBlockers | bitboard_generators/rook.go:90-97 | the inner loop ORs in the chosen squares and returns the blocker set for k |
| BlockerSubsets.CodeRecovers | bitboard_generators/rook.go:86-89 | every subset of the choices is the blocker set of some counter below 2^len(choices), so counting up enumerates all subsets |
| SlidingRays.ScanRay | bitboard_generators/rook.go:102-141 | one direction's loop adds the ray from the square up to and including the first blocker |
| SlidingRays.Visit | bitboard_generators/rook.go:104-110 | one step adds the square and stops exactly at a blocker or when the board ends |
| SlidingRays.RayHas | bitboard_generators/rook.go:102-141 | a square is on the ray exactly when it lies in that direction and no blocker stands strictly between |
| SlidingRays.RayMissesSource | bitboard_generators/rook.go:102-141 | a ray never holds its own square |
| SlidingRays.RayAgrees | bitboard_generators/rook.go:102-141 | two blocker sets that agree on the ray's squares before the board edge give the same ray |
| SlidingRays.SlideHas | bitboard_generators/rook.go:99-141 | the union of the rays holds a square exactly when one of the directions' rays holds it |
| SlidingRays.SlideAgrees | bitboard_generators/rook.go:99-141 | blocker sets that agree on every inner ray square give the same moves |
| SlidingRays.ScanFour | bitboard_generators/rook.go:99-141 | the four direction loops in order compute the union of the four rays |
| RookTable.RookMaskHas | bitboard_generators/rook.go:15-43 | the rook mask of a square holds exactly the other squares of its rank and file, without the outer edge squares of its lines |
| RookTable.RookMaskEntry | bitboard_generators/rook.go:17-41 | the file-and-rank union minus the square minus the outer edges is the rook mask |
| RookTable.GenerateRookMasks | bitboard_generators/rook.go:9-48 | the 64-entry mask table holds each square's rook mask |
| RookTable.RookChoices | bitboard_generators/rook.go:66-84 | the four loops list each inner rank and file square once, and exactly those |
| RookTable.ScanRookMoves | bitboard_generators/rook.go:99-141 | the four scans give the rook moves: rays left, right, up and down up to the first blocker |
| RookTable.RookMovesHas | bitboard_generators/rook.go:99-141 | a square is a rook move exactly when it lies along a rank or file direction with no blocker in between |
| RookTable.RookMovesStraight | bitboard_generators/rook.go:99-141 | a rook move leaves the square and keeps its rank or its file |
| RookTable.RookMovesNonEmpty | bitboard_generators/rook.go:99-141 | whatever the blockers, a rook has at least one move |
| RookTable.RookMovesMasked | bitboard_generators/rook.go:99-141 | masking the blockers with the rook mask leaves the moves unchanged, which is why only masked blockers are enumerated |
| BishopTable.DiagonalHas | bitboard_generators/bishop.go:31-37 | the shifted main diagonal holds exactly the squares with rank - file equal to the square's |
| BishopTable.AntiDiagonalHas | bitboard_generators/bishop.go:39-45 | the shifted anti-diagonal holds exactly the squares with rank + file equal to the square's |
| BishopTable.BishopMaskHas | bitboard_generators/bishop.go:18-52 | the bishop mask holds exactly the other squares on the two diagonals that are not on the board's edge |
| BishopTable.BishopMaskEntry | bitboard_generators/bishop.go:28-50 | the per-square steps compute the bishop mask |
| BishopTable.GenerateBishopMasks | bitboard_generators/bishop.go:9-57 | the 64-entry mask table holds each square's bishop mask |
| BishopTable.BishopChoices | bitboard_generators/bishop.go:75-93 | the four loops list the inner diagonal squares left-up, left-down, right-up, right-down |
| BishopTable.BishopChoiceListHas | bitboard_generators/bishop.go:75-93 | the choices are exactly the squares of the bishop mask |
| BishopTable.BishopChoiceListDistinct | bitboard_generators/bishop.go:75-93 | no square is listed twice |
| BishopTable.ScanBishopMoves | bitboard_generators/bishop.go:108-150 | the four scans give the bishop moves along the diagonals up to the first blocker |
| BishopTable.BishopMovesHas | bitboard_generators/bishop.go:108-150 | a square is a bishop move exactly when it lies along a diagonal direction with no blocker in between |
| BishopTable.BishopMovesDiagonal | bitboard_generators/bishop.go:108-150 | a bishop move leaves the square and stays on one of its diagonals |
| BishopTable.BishopMovesMasked | bitboard_generators/bishop.go:108-150 | masking the blockers with the bishop mask leaves the moves unchanged |
| MagicTables.Store | bitboard_generators/rook.go:148 | writing a key changes that square's row at that key and nothing else |
| MagicTables.FillStep | bitboard_generators/rook.go:89-148 | one counter step either stores the moves (no two subsets seen so far clash) or reports the clash that makes the source panic |
| MagicTables.FillSquare | bitboard_generators/rook.go:86-149 | after the counting loop the row answers every enumerated blocker set, or a clash is reported exactly when two subsets share a key with different moves |
| MagicTables.CollisionClashes | bitboard_generators/rook.go:143-146 | a collision among the enumerated subsets is the same as two mask subsets that share a key but differ in moves |
| MagicTables.StoredAnswers | bitboard_generators/rook.go:143-148 | a filled row answers every subset of the mask with its sliding moves |
| MagicTables.RookChoicesAreMask | bitboard_generators/rook.go:66-84 | the rook choice list holds exactly the rook mask's squares |
| MagicTables.BishopChoicesAreMask | bitboard_generators/bishop.go:75-93 | the bishop choice list holds exactly the bishop mask's squares |
| MagicTables.FillRookMovesSquare | bitboard_generators/rook.go:63-150 | fills one rook row: on success it answers every blocker subset of the mask with the rook moves; it fails (the source panics) exactly when the magic clashes; other rows are untouched |
| MagicTables.FillBishopMovesSquare | bitboard_generators/bishop.go:72-159 | the same for one bishop row |
| MagicTables.GenerateMoves | bitboard_generators/rook.go:51-61 | builds all 64 rows; it succeeds exactly when no square's magic clashes, and then every row answers its mask subsets (bishop.go:60-70 for the bishop table) |
| MagicTables.AnswerAt | chessboard/board.go:267-269 | a row that answers its mask gives, at the key of any masked blocker set, the sliding moves for those blockers |
| MagicTables.RookAttacksAreMoves | chessboard/board.go:267-271 | with tables built from the generator, the rook lookup returns the rook moves for the board's occupied squares |
| MagicTables.BishopAttacksAreMoves | chessboard/board.go:275-279 | with tables built from the generator, the bishop lookup returns the bishop moves for the board's occupied squares |
| PawnMasks.OwnColumnHas | bitboard_generators/pawns.go:17 | the forward mask of a square holds exactly the squares above it on its own file |
| PawnMasks.SideColumnsHas | bitboard_generators/pawns.go:18-24 | the side mask holds exactly the squares of the neighbouring files, on every rank |
| PawnMasks.WhitePassedHas | bitboard_generators/pawns.go:41-47 | white's passed-pawn zone holds the squares on the same or neighbouring files on higher ranks |
| PawnMasks.BlackPassedHas | bitboard_generators/pawns.go:57-63 | black's zone holds the squares on the same or neighbouring files on lower ranks |
| PawnMasks.MasksExcludeSquare | bitboard_generators/pawns.go:7-67 | no mask holds its own square |
| PawnMasks.PassedMirror | bitboard_generators/pawns.go:34-67 | the black zone of the rank-mirrored square is the white zone mirrored |
| PawnMasks.GenerateDoubledPawnMasks | bitboard_generators/pawns.go:7-32 | the two returned 64-entry tables hold each square's forward mask and side mask |
| PawnMasks.PassedPawnMasks | bitboard_generators/pawns.go:34-70 | the two returned tables hold each square's white and black passed-pawn zones |
| PawnMasks.DoubledEntry | bitboard_generators/pawns.go:17-24 | one square's forward and side masks |
| PawnMasks.PassedFile | bitboard_generators/pawns.go:37-67 | one file of either passed-pawn loop fills the entries of that file and keeps the earlier files |
| PawnMasks.IsolatedMeansNoNeighbour | bitboard_generators/pawns.go:18-24 | with the generated side mask, the isolated test holds exactly when no own pawn stands on a neighbouring file |
| PawnMasks.DoubledMeansPawnAbove | bitboard_generators/pawns.go:17 | with the generated forward mask, the doubled test holds exactly when an own pawn stands above on the same file |
| PawnMasks.WhitePassedMeansNoBlocker | bitboard_generators/pawns.go:41-47 | with the generated zone, a white pawn is passed exactly when no black pawn stands ahead of it on its own or a neighbouring file |
| PawnMasks.BlackPassedMeansNoBlocker | bitboard_generators/pawns.go:57-63 | with the generated zone, a black pawn is passed exactly when no white pawn stands below it on its own or a neighbouring file |
| SquareSums.Mirror | chessboard/engine_evaluation.go:77 | the inverted square keeps the file and takes rank 7 - rank |
| SquareSums.MirrorInvolution | chessboard/engine_evaluation.go:77 | inverting twice gives the square back |
| SquareSums.WalkSumIsBoardSum | chessboard/engine_evaluation.go:66-71 | the bit-clearing walk over a bitboard sums the value of each of its squares, in any order |
| SquareSums.MirroredBoardSum | chessboard/engine_evaluation.go:73-79 | black's sum read through the inverted table equals white's sum of the mirrored pieces |
| SquareSums.BoardSumBounds | chessboard/engine_evaluation.go:62-83 | with every value between lo and hi, the sum lies between lo and hi times the piece count |
| GoInt.GoDiv | chessboard/engine_evaluation.go:28 | Go's integer division truncates toward zero: the quotient's magnitude is the floor of the magnitudes' quotient and its sign is the operands' sign product |
| GoInt.GoRem | chessboard/engine_evaluation.go:77 | Go's remainder takes the dividend's sign and pairs with the truncating quotient |
| GoInt.GoDivNegate | chessboard/engine_evaluation.go:28 | negating the dividend negates the quotient, unlike Euclidean division |
| GoInt.GoDivExamples | chessboard/engine_evaluation.go:28 | -7 / 2 is -3 with remainder -1, and 7 / -2 is -3 with remainder 1 |
| Search.RecordReadsDoubleAsWritten | chessboard/engine_bruteforce.go:133-144 | as written, a search score in 0..255 packed into the table word reads back doubled, with its depth, flag and key kept |
| Search.Bit8RecordLastSlot | chessboard/engine_bruteforce.go:143-144 | as written, a score in -256..-1 or in 256..511 is packed over the key bits and the entry lands in the table's last slot whatever the position |
| Search.RecordReadsBack | chessboard/engine_bruteforce.go:133-144 | with the 14-bit packing every score in -8192..8191 reads back unchanged, with its depth, flag and key |
| Search.FinishReadsDoubleAsWritten | chessboard/engine_bruteforce.go:143-145 | as written, after a node with a score in 1..255 finishes, its own hash finds an entry reading twice that score at the node's depth |
| Search.FinishRemembers | chessboard/engine_bruteforce.go:143-145 | with the 14-bit packing, the finished node's own hash finds its score, depth and cutoff flag |
| Search.RecNodeRemembers | chessboard/engine_bruteforce.go:80-146 | with the 14-bit packing, a node either answers from a settled table entry (stored score, empty line, table unchanged) or leaves its own score, depth and cutoff flag in the table |
| Search.RecLoopBounds | chessboard/engine_bruteforce.go:118-141 | the move loop never returns less than the running best; it cuts off only with pruning on and a score at least beta and above alpha; without a cutoff or an improvement the line is kept |
| Search.QLoopWithoutCaptures | chessboard/engine_bruteforce.go:184-213 | when no remaining move is a capture the quiescent loop returns the best so far if a capture was searched, otherwise the static evaluation with an empty line |
| Search.QuietPositionIsStatic | chessboard/engine_bruteforce.go:148-213 | in an unfinished position with no capture moves the quiescent search returns an empty line and the static evaluation, or the stored evaluation when the table has an entry |
| Search.RootLoopChoosesGiven | chessboard/engine_bruteforce.go:57-69 | the root loop returns the move it held or one of the moves it still had to try |
| Search.CorrectedRootLoopChooses | chessboard/engine_bruteforce.go:57-69 | the root loop that also accepts the first move returns a move exactly when it held one or moves remained, and from those |
| Search.CorrectedRootMoveIsLegal | chessboard/engine_bruteforce.go:49-78 | the corrected root search returns a move exactly when the position has a legal move, and that move is legal |
| Search.MatedAfterReply | chessboard/engine_bruteforce.go:83-88 | a node whose game is checkmate scores -1_000_000 with an empty line and an unchanged table |
| Search.ReplyCutsOff | chessboard/engine_bruteforce.go:118-136 | with alpha-beta on, a reply that scores 1_000_000 cuts the loop off with that score |
| Search.OnlyMoveLoses | chessboard/engine_bruteforce.go:80-146 | the opponent's node after a move that allows mate scores 1_000_000 |
| Search.RootMoveMissesOnlyMove | chessboard/engine_bruteforce.go:53-66 | with a single legal move that loses to mate, NegaMax as written returns nil and the corrected loop returns that move |
| Search.BruteForceEngine.constructor | chessboard/engine_bruteforce.go:17-27 | a new engine tracks the given game with the material, position and centre terms, quiescent search, alpha-beta pruning and the table switched on |
| Search.BruteForceEngine.BestMove | chessboard/engine_bruteforce.go:32-46 | searches a copy of the tracked game to depth 3, leaves the tracked game unchanged and returns the root search's move, which is legal when present |
| Search.BruteForceEngine.StaticEvaluation | chessboard/engine_bruteforce.go:221-234 | returns the evaluation of the copied game's current position |
| Search.BruteForceEngine.NegaMax | chessboard/engine_bruteforce.go:49-78 | the loop over the legal moves with a strict `>` returns the root search's move, restores the game, and a returned move is legal |
| Search.BruteForceEngine.CorrectedNegaMax | chessboard/engine_bruteforce.go:49-78 | the loop that always takes the first move returns a move exactly when the position has a legal move, and that move is legal |
| Search.BruteForceEngine.SearchChild | chessboard/engine_bruteforce.go:119-140 | plays a move, searches the child with the negated window and undoes the move: score, line and table are the child node's |
| Search.BruteForceEngine.RecNegaMax | chessboard/engine_bruteforce.go:80-146 | returns the node's score and line, leaves the table as the search specification does and restores the game |
| Search.BruteForceEngine.SearchMoves | chessboard/engine_bruteforce.go:116-145 | the move loop with its cutoff store and final store computes the node's score, line and table |
| Search.BruteForceEngine.Remember | chessboard/engine_bruteforce.go:133-144 | the table becomes the old table with the packed score, depth and flag stored at the position's key |
| Search.BruteForceEngine.QuiescentChild | chessboard/engine_bruteforce.go:189-207 | plays a capture, runs the quiescent search on the child with the negated window and undoes it |
| Search.BruteForceEngine.QuiescentSearch | chessboard/engine_bruteforce.go:148-216 | returns the quiescent node's score and line and restores the game |
| Search.BruteForceEngine.SearchCaptures | chessboard/engine_bruteforce.go:184-215 | the capture loop computes the quiescent loop's score and line |

## Left out

- The React page, the HTTP server and root main.go: I/O around the engine. They are not part of this model.
- `LoadPrecomputedData` (chessboard/game.go:58-71) reads the tables from a JSON file. The tables are a parameter (`Attacks.PrecomputedData`). The lemmas that use them state what they assume of them: `Attacks.Shaped`, and `RookTablesBuilt`/`BishopTablesBuilt` for the generator's postcondition.
- The Zobrist keys come from math/rand (chessboard/zobrist.go:20-35). Keys are inputs, and only their low 21 bits being zero is kept.
- chessboard/engine_random.go (random moves), chessboard/engine_misc.go (commented-out move sorting over a foreign library), and the tests: not part of this model.
- The search's printing and its global `nodes` counter (chessboard/engine_bruteforce.go:29, 36-39, 71-75, 81, 92) are left out. They do not affect any result.
- `Position.Move`, `Game.Result`, the position hash, `stringToSquare`, `SquareFromFileRank` and `IsSquareOccupied` are called by the engine but are not part of this model. The search takes the first three, and the legal moves it sees, through `Search.Rules`. FEN parsing takes `stringToSquare` as a map parameter. The other two are written out from their use.
- No FEN round trip is stated: `Position.FEN`, the serialiser, is not part of this model.
- Magic-number correctness is not proved. A clash that makes the generators panic is modelled as `ok == false`, and the lookups are proved right for tables the generators built.
- MagicTables.FillRookMovesSquare: requires an index width of at most 12 bits (at most 10 in MagicTables.FillBishopMovesSquare), so the rows of 4096 and 1024 entries hold every key. A wider width makes rook.go:143-144 and bishop.go:152-153 index out of range and panic, and that panic is not modelled.
- MagicTables.GenerateMoves: requires `MagicTables.MagicsFit` for the same reason. Attacks.Shaped puts the same bound on the tables the engine reads (chessboard/board.go:268, 276).
- Fen.ParseFen: Go's `strconv.Atoi` is modelled for a 64-bit `int`.
- Pawns.ComputePawnMoves: an en passant capture needs `to < 64` besides `to == enPassantSquare` (game_legal_moves.go:181, 195, 235, 249), because a move's target square is below 64. The two differ only when `stringToSquare` yields a value of 64 or more and a white pawn stands on the eighth rank. `stringToSquare` is not part of this model and is an unconstrained map parameter of `Fen.ParseFen`.
- Search.BruteForceEngine.BestMove: ensures `unchanged(trackedGame)`, because the copy's board is a value. In Go, `eng.game = *eng.trackedGame` (engine_bruteforce.go:34) shares the `*Position`, so the search's `LegalMoves` calls also fill the tracked position's legal-move cache (game_legal_moves.go:40). That cache only memoises the same list (`Legality.CacheLegalMoves`), so no result changes.
- Evaluation.EarlyStaticEvaluation: the older `StaticEvaluation` (engine_bruteforce.go:221-234) is paired with the older, linear `materialDifference` of chessboard/engine.go:8-20 (`Evaluation.LinearMaterialDifference`). The later ratio `materialDifference` (engine_evaluation.go:3-32) goes with engine_evaluation.go's `StaticEvaluation`. `Evaluation.TempoOnly` relates the two revisions, and it is the older one that the engine's search calls.
- Evaluation.StaticEvaluation: the pawn-structure masks are a parameter (`Evaluation.PawnMasks`), because `PrecomputedData` (chessboard/game.go:12-23) has no pawn-mask fields. `PawnMasks.IsolatedMeansNoNeighbour`, `DoubledMeansPawnAbove`, `WhitePassedMeansNoBlocker` and `BlackPassedMeansNoBlocker` give the terms their meaning for each entry equal to the generated mask. How the generated masks reach the engine is not part of this model.
- Search.BruteForceEngine.NegaMax: requires `0 < depth <= 64`. With `depth <= 0` the source's `recNegaMax` starts below zero, so it never meets `depth == 0` (engine_bruteforce.go:90). It then recurses until the game ends, and that unbounded search is not modelled. `BestMove` calls it with depth 3. The bound 64 keeps `int8(depth)` in range.
- Search.BruteForceEngine.Remember: the table's depth field is Go's `int8(depth)` and its score `int16(score)`, which are the low 8 and 16 bits. The search's specification takes depth below 64. Scores are packed by their low 16 bits, as Go's conversions do.
- Games.Game.UndoMove: requires a move to take back (`|history| >= 2`), so the panic of chessboard/game.go:47 on an empty move list is ruled out rather than modelled as an error. The engine calls it only right after a `Move` (chessboard/engine_bruteforce.go:68, 131, 140, 201, 207).
- The lower-case `square` type of the chessboard package (used at chessboard/board.go:33, game.go:204 and bitboard.go:49) is not part of this model. The model assumes it is an unsigned 8-bit integer that wraps around: `Fen.Scan.cursor` is a `bv8`, and so are the `from + 8`, `from - 8` and diagonal offsets in `Pawns`. Under that assumption a shift by such a square never sees a negative count. If the type were signed, Go would panic on a negative shift, and the model does not cover that.
- Go's fixed arrays `[64][4096]Bitboard` and `[64][1024]Bitboard` are a Dafny `array2`, and the 64-entry tables are arrays filled by the generators' loops. Go's `int` loop variables over files, ranks and squares are `bv8` values below 8 or 64.

## Findings

| source | as written | input that shows it | evidently intended | confidence | as-written member | corrected member |
|---|---|---|---|---|---|---|
| chessboard/board.go:215-229 | an en passant capture removes the captured pawn from the board, but the returned hash delta leaves out that pawn's key | any en passant capture, e.g. a white pawn on e5 taking on d6, which removes the black pawn on d5 | the delta also XORs the captured pawn's key at its square | high; not executed | BoardHash.EnPassantDeltaMissesPawn | BoardHash.CorrectedDeltaRight |
| chessboard/zobrist.go:63-65 | `Evaluation` reads `(h & mask) >> 6`, but `SetData` stores the evaluation `<< 7` | `SetData(h, 10, 3, false).Evaluation()` with the low 21 bits of h clear reads 20 | decode with the same shift as the encode, giving back 10 | high; not executed | Zobrist.SetDataEvaluationDoubles | Zobrist.CorrectedRoundTrip |
| chessboard/zobrist.go:40 | `evaluation << 7` is shifted as an `int16` and then widened to 64 bits with sign extension, so an evaluation with bit 8 set (-256..-1, 256..511, ...) sets every bit above the field, the key included | `SetData(h, 256, 3, false).Key()` and `SetData(h, -1, 3, false).Key()` are 2^27 - 1 for every h, while -257 leaves the key alone | mask the evaluation to its field so that the key stays the position's | high; not executed | Zobrist.EvaluationBit8Key | Zobrist.CorrectedFields |
| chessboard/engine_bruteforce.go:53-62 | `NegaMax` starts from `bestScore := -1_000_000` and keeps a move only when `score > bestScore`, so it returns nil when every move scores -1_000_000 | a position whose only legal move lets the opponent mate at once (`MateAfterOnlyMove`) | return a legal move whenever one exists | high; not executed | Search.RootMoveMissesOnlyMove | Search.CorrectedRootMoveIsLegal |

In the model, the search runs with the packing as written (`Search.Packing.AsWritten`). `Search.RecordReadsDoubleAsWritten`, `Search.Bit8RecordLastSlot` and `Search.FinishReadsDoubleAsWritten` state what the table then holds. `Search.RecordReadsBack`, `Search.FinishRemembers` and `Search.RecNodeRemembers` prove that a node remembers its own result under the corrected packing. `Search.BruteForceEngine.NegaMax` is the root loop as written, and `Search.BruteForceEngine.CorrectedNegaMax` is the corrected one.
