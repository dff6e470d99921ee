/**
 * The piece-square tables of the evaluation (chessboard/engine_evaluation.go,
 * repeated in chessboard/engine.go): values from the Simplified Evaluation
 * Function in 256ths of a pawn, indexed by square from white's side, rank 1
 * first.
 */
module PieceSquareTables {
  type ValueTable = s: seq<int> | |s| == 64 witness seq(64, i => 0)

  const PawnSquareValue: ValueTable :=
    [0, 0, 0, 0, 0, 0, 0, 0] + [12, 25, 25, -51, -51, 25, 25, 12]
    + [12, -12, -25, 0, 0, -25, -12, 12] + [0, 0, 0, 51, 51, 0, 0, 0]
    + [12, 12, 25, 64, 64, 25, 12, 12] + [25, 25, 51, 76, 76, 51, 25, 25]
    + [128, 128, 128, 128, 128, 128, 128, 128] + [0, 0, 0, 0, 0, 0, 0, 0]

  const KnightSquareValue: ValueTable :=
    [-128, -102, -76, -76, -76, -76, -102, -128] + [-102, -51, 0, 12, 12, 0, -51, -102]
    + [-76, 12, 25, 38, 38, 25, 12, -76] + [-76, 0, 38, 51, 51, 38, 0, -76]
    + [-76, 12, 38, 51, 51, 38, 12, -76] + [-76, 0, 25, 38, 38, 25, 0, -76]
    + [-102, -51, 0, 0, 0, 0, -51, -102] + [-128, -102, -76, -76, -76, -76, -102, -128]

  const BishopSquareValue: ValueTable :=
    [-51, -25, -25, -25, -25, -25, -25, -51] + [-25, 12, 0, 0, 0, 0, 12, -25]
    + [-25, 25, 25, 25, 25, 25, 25, -25] + [-25, 0, 25, 25, 25, 25, 0, -25]
    + [-25, 12, 12, 25, 25, 12, 12, -25] + [-25, 0, 12, 25, 25, 12, 0, -25]
    + [-25, 0, 0, 0, 0, 0, 0, -25] + [-51, -25, -25, -25, -25, -25, -25, -51]

  const RookSquareValue: ValueTable :=
    [0, 0, 0, 12, 12, 0, 0, 0] + [-12, 0, 0, 0, 0, 0, 0, -12]
    + [-12, 0, 0, 0, 0, 0, 0, -12] + [-12, 0, 0, 0, 0, 0, 0, -12]
    + [-12, 0, 0, 0, 0, 0, 0, -12] + [-12, 0, 0, 0, 0, 0, 0, -12]
    + [12, 25, 25, 25, 25, 25, 25, 12] + [0, 0, 0, 0, 0, 0, 0, 0]

  const QueenSquareValue: ValueTable :=
    [-51, -25, -25, -12, -12, -25, -25, -51] + [-25, 0, 12, 0, 0, 0, 0, -25]
    + [-25, 12, 12, 12, 12, 12, 0, -25] + [0, 0, 12, 12, 12, 12, 0, -12]
    + [-12, 0, 12, 12, 12, 12, 0, -12] + [-25, 0, 12, 12, 12, 12, 0, -25]
    + [-25, 0, 0, 0, 0, 0, 0, -25] + [-51, -25, -25, -12, -12, -25, -25, -51]

  const KingMiddleGameSquareValue: ValueTable :=
    [51, 76, 25, 0, 0, 25, 76, 51] + [51, 51, 0, 0, 0, 0, 51, 51]
    + [-25, -51, -51, -51, -51, -51, -51, -25] + [-51, -76, -76, -102, -102, -76, -76, -51]
    + [-76, -102, -102, -128, -128, -102, -102, -76] + [-76, -102, -102, -128, -128, -102, -102, -76]
    + [-76, -102, -102, -128, -128, -102, -102, -76] + [-76, -102, -102, -128, -128, -102, -102, -76]

  /** Declared by the source but read by no evaluation term. */
  const KingEndGameSquareValue: ValueTable :=
    [-128, -76, -76, -76, -76, -76, -76, -128] + [-76, -76, 0, 0, 0, 0, -76, -76]
    + [-76, -25, 51, 76, 76, 51, -25, -76] + [-76, -25, 76, 102, 102, 76, -25, -76]
    + [-76, -25, 76, 102, 102, 76, -25, -76] + [-76, -25, 51, 76, 76, 51, -25, -76]
    + [-76, -51, -25, 0, 0, -25, -51, -76] + [-128, -102, -76, -51, -51, -76, -102, -128]
}
