/**
 * Static evaluation (chessboard/engine_evaluation.go and the earlier
 * chessboard/engine.go).
 *
 * Scores are in 256ths of a pawn and favour white when positive. The
 * material term of engine_evaluation.go adds a ratio bonus computed with
 * Go's truncating division; the earlier engine.go material term is the plain
 * weighted difference (`LinearMaterialDifference`), and it is the one the
 * earlier evaluation of engine_bruteforce.go adds (`EarlyTerms`). The
 * piece-square, centre and pawn-structure terms walk a bitboard and add one
 * value per square; each walk is a method proved equal to an order-free sum
 * over the board (`SquareSums.BoardSum`).
 *
 * The pawn-structure masks the evaluation reads are not fields of the loaded
 * tables in the source, so they are a parameter here (`PawnMasks`).
 */
module Evaluation {
  import opened Bitboards
  import opened GoInt
  import opened Pieces
  import opened Boards
  import opened Games
  import opened PieceMoves
  import opened SquareSums
  import opened PieceSquareTables

  type MaskTable = s: seq<Bitboard> | |s| == 64 witness seq(64, i => 0)

  // ---------------------------------------------------------------------------
  // Material

  /** The number of pieces with code `piece`. */
  function PieceCount(b: BoardState, piece: PieceCode): nat
    requires piece != NoPiece
  {
    KernighanPopCount(b.pieces[piece - 1])
  }

  /** The weighted material of one side: 256 per pawn, 832 per knight, 896
      per bishop, 1280 per rook and 2496 per queen; kings are not counted. */
  function Material(b: BoardState, white: bool): nat
  {
    var base := if white then 0 else 6;
    PieceCount(b, WhitePawn + base) * 256
      + PieceCount(b, WhiteKnight + base) * 832
      + PieceCount(b, WhiteBishop + base) * 896
      + PieceCount(b, WhiteRook + base) * 1280
      + PieceCount(b, WhiteQueen + base) * 2496
  }

  /** The material score of two totals: their difference plus the ratio
      `difference * 100 / (total + 1)` with Go's truncating division. */
  function MaterialScore(whiteTotal: nat, blackTotal: nat): int
  {
    var difference := whiteTotal - blackTotal;
    var total := whiteTotal + blackTotal;
    difference + GoDiv(difference * 100, total + 1)
  }

  /** The score has the sign of the difference (zero exactly when the
      totals are equal) and lies within 100 of it. */
  lemma MaterialScoreSign(whiteTotal: nat, blackTotal: nat)
    ensures MaterialScore(whiteTotal, blackTotal) > 0 <==> whiteTotal > blackTotal
    ensures MaterialScore(whiteTotal, blackTotal) < 0 <==> whiteTotal < blackTotal
    ensures Abs(MaterialScore(whiteTotal, blackTotal) - (whiteTotal - blackTotal)) < 100
  {
    RatioBounds(whiteTotal - blackTotal, whiteTotal + blackTotal);
  }

  /** Exchanging the totals negates the score: the truncating division is
      symmetric about zero. */
  lemma MaterialScoreAntisymmetric(whiteTotal: nat, blackTotal: nat)
    ensures MaterialScore(blackTotal, whiteTotal) == -MaterialScore(whiteTotal, blackTotal)
  {
    var d := whiteTotal - blackTotal;
    assert (-d) * 100 == -(d * 100);
    GoDivNegate(d * 100, whiteTotal + blackTotal + 1);
  }

  /** `materialDifference`: the score of white's and black's weighted
      material. */
  function MaterialDifference(b: BoardState): int
  {
    MaterialScore(Material(b, true), Material(b, false))
  }

  /** The material term favours the side with more material, is zero when
      both sides have equal material, and is within 100 of the plain
      difference. */
  lemma MaterialDifferenceSign(b: BoardState)
    ensures MaterialDifference(b) > 0 <==> Material(b, true) > Material(b, false)
    ensures MaterialDifference(b) < 0 <==> Material(b, true) < Material(b, false)
    ensures Abs(MaterialDifference(b) - (Material(b, true) - Material(b, false))) < 100
  {
    MaterialScoreSign(Material(b, true), Material(b, false));
  }

  /** The ratio `d * 100 / (t + 1)` for |d| <= t: below 100 in magnitude,
      zero when d is, and otherwise of the sign of d. */
  lemma RatioBounds(d: int, t: int)
    requires Abs(d) <= t
    ensures Abs(GoDiv(d * 100, t + 1)) < 100
    ensures d == 0 ==> GoDiv(d * 100, t + 1) == 0
    ensures d > 0 ==> GoDiv(d * 100, t + 1) >= 0
    ensures d < 0 ==> GoDiv(d * 100, t + 1) <= 0
  {
    RatioMagnitude(d, t, GoDiv(d * 100, t + 1));
    RatioSign(d, t);
  }

  lemma RatioMagnitude(d: int, t: int, q: int)
    requires Abs(d) <= t
    requires Abs(q) * Abs(t + 1) <= Abs(d * 100)
    ensures Abs(q) < 100
    ensures d == 0 ==> q == 0
  {
    assert Abs(d * 100) == 100 * Abs(d);
    if d == 0 {
      assert Abs(q) * (t + 1) <= 0;
    }
  }

  lemma RatioSign(d: int, t: int)
    requires Abs(d) <= t
    ensures d > 0 ==> GoDiv(d * 100, t + 1) >= 0
    ensures d < 0 ==> GoDiv(d * 100, t + 1) <= 0
  {
    assert d * 100 < 0 <==> d < 0;
  }

  /** engine.go's `materialDifference`: the weighted difference of piece
      counts, kind by kind, which is white's material minus black's. */
  function LinearMaterialDifference(b: BoardState): int
  {
    var pawnDifference := PieceCount(b, WhitePawn) - PieceCount(b, BlackPawn);
    var knightDifference := PieceCount(b, WhiteKnight) - PieceCount(b, BlackKnight);
    var bishopDifference := PieceCount(b, WhiteBishop) - PieceCount(b, BlackBishop);
    var rookDifference := PieceCount(b, WhiteRook) - PieceCount(b, BlackRook);
    var queenDifference := PieceCount(b, WhiteQueen) - PieceCount(b, BlackQueen);
    pawnDifference * 256 + knightDifference * 832 + bishopDifference * 896
      + rookDifference * 1280 + queenDifference * 2496
  }

  /** Summing the weighted differences kind by kind is subtracting the
      weighted totals. */
  lemma LinearMaterialDifferenceIsDifference(b: BoardState)
    ensures LinearMaterialDifference(b) == Material(b, true) - Material(b, false)
  {
  }

  /** The two revisions of the material term agree in sign and differ by
      less than 100. */
  lemma MaterialRevisionsAgree(b: BoardState)
    ensures MaterialDifference(b) > 0 <==> LinearMaterialDifference(b) > 0
    ensures MaterialDifference(b) == 0 <==> LinearMaterialDifference(b) == 0
    ensures Abs(MaterialDifference(b) - LinearMaterialDifference(b)) < 100
  {
    MaterialDifferenceSign(b);
    LinearMaterialDifferenceIsDifference(b);
  }

  /** `c` is `b` with every white piece board exchanged with the black board
      of the same kind. */
  predicate ColoursSwapped(b: BoardState, c: BoardState)
  {
    forall i :: 0 <= i < 6 ==> c.pieces[i] == b.pieces[i + 6] && c.pieces[i + 6] == b.pieces[i]
  }

  lemma SwappedMaterial(b: BoardState, c: BoardState)
    requires ColoursSwapped(b, c)
    ensures Material(c, true) == Material(b, false) && Material(c, false) == Material(b, true)
  {
    assert c.pieces[WhitePawn - 1] == b.pieces[BlackPawn - 1];
    assert c.pieces[WhiteKnight - 1] == b.pieces[BlackKnight - 1];
    assert c.pieces[WhiteBishop - 1] == b.pieces[BlackBishop - 1];
    assert c.pieces[WhiteRook - 1] == b.pieces[BlackRook - 1];
    assert c.pieces[WhiteQueen - 1] == b.pieces[BlackQueen - 1];
    assert c.pieces[BlackPawn - 1] == b.pieces[WhitePawn - 1];
    assert c.pieces[BlackKnight - 1] == b.pieces[WhiteKnight - 1];
    assert c.pieces[BlackBishop - 1] == b.pieces[WhiteBishop - 1];
    assert c.pieces[BlackRook - 1] == b.pieces[WhiteRook - 1];
    assert c.pieces[BlackQueen - 1] == b.pieces[WhiteQueen - 1];
  }

  /** Exchanging the colours negates the material term. */
  lemma MaterialDifferenceSwapped(b: BoardState, c: BoardState)
    requires ColoursSwapped(b, c)
    ensures MaterialDifference(c) == -MaterialDifference(b)
  {
    SwappedMaterial(b, c);
    MaterialScoreAntisymmetric(Material(b, true), Material(b, false));
  }

  lemma LinearMaterialDifferenceSwapped(b: BoardState, c: BoardState)
    requires ColoursSwapped(b, c)
    ensures LinearMaterialDifference(c) == -LinearMaterialDifference(b)
  {
    SwappedMaterial(b, c);
    LinearMaterialDifferenceIsDifference(b);
    LinearMaterialDifferenceIsDifference(c);
  }

  function Entry(values: ValueTable, s: Sq): int
  {
    values[s]
  }

  /** The table entry a piece on `s` reads: its own square for white, the
      rank-mirrored square for black. */
  function SquareValue(values: ValueTable, isWhite: bool): Sq -> int
  {
    if isWhite then (s: Sq) => Entry(values, s) else (s: Sq) => Entry(values, Mirror(s))
  }

  /** `pieceSquareValues`: walks `piece` from its lowest square and adds the
      table entry of every square, so the result is the table summed over
      the board's squares. */
  method PieceSquareValues(piece: Bitboard, values: ValueTable, isWhite: bool) returns (score: int)
    ensures score == BoardSum(SquareValue(values, isWhite), piece)
  {
    var f := SquareValue(values, isWhite);
    score := 0;
    var bb := piece;
    if isWhite {
      while bb != 0
        invariant score + WalkSum(f, Targets(bb)) == WalkSum(f, Targets(piece))
        decreases PopCount(bb)
      {
        var sq := LowestSquare(bb);
        WalkSumStep(f, bb);
        bb := ClearLeastSignificantBit(bb);
        score := score + Entry(values, sq);
      }
    } else {
      while bb != 0
        invariant score + WalkSum(f, Targets(bb)) == WalkSum(f, Targets(piece))
        decreases PopCount(bb)
      {
        var sq := LowestSquare(bb);
        WalkSumStep(f, bb);
        bb := ClearLeastSignificantBit(bb);
        var invertedSquare := Mirror(sq);
        score := score + Entry(values, invertedSquare);
      }
    }
    WalkSumIsBoardSum(f, piece);
  }

  /** The table read for each kind of piece. */
  function KindTable(kind: PieceCode): ValueTable
  {
    match kind
    case 1 => KingMiddleGameSquareValue
    case 2 => QueenSquareValue
    case 3 => RookSquareValue
    case 4 => BishopSquareValue
    case 5 => KnightSquareValue
    case _ => PawnSquareValue
  }

  /** White's table score for one kind minus black's. */
  ghost function KindScore(b: BoardState, kind: PieceCode): int
    requires WhiteKing <= kind <= WhitePawn
  {
    BoardSum(SquareValue(KindTable(kind), true), b.pieces[kind - 1])
      - BoardSum(SquareValue(KindTable(kind), false), b.pieces[kind + 5])
  }

  /** The piece-square score of a board, kind by kind. */
  ghost function PositionScore(b: BoardState): int
  {
    KindScore(b, WhitePawn) + KindScore(b, WhiteKnight) + KindScore(b, WhiteBishop)
      + KindScore(b, WhiteRook) + KindScore(b, WhiteQueen) + KindScore(b, WhiteKing)
  }

  /** `positionDifference`: the six kinds' table scores, white minus black. */
  method PositionDifference(b: BoardState) returns (score: int)
    ensures score == PositionScore(b)
  {
    score := 0;
    var w, k;
    w := PieceSquareValues(b.pieces[WhitePawn - 1], PawnSquareValue, true);
    k := PieceSquareValues(b.pieces[BlackPawn - 1], PawnSquareValue, false);
    score := score + (w - k);
    w := PieceSquareValues(b.pieces[WhiteKnight - 1], KnightSquareValue, true);
    k := PieceSquareValues(b.pieces[BlackKnight - 1], KnightSquareValue, false);
    score := score + (w - k);
    w := PieceSquareValues(b.pieces[WhiteBishop - 1], BishopSquareValue, true);
    k := PieceSquareValues(b.pieces[BlackBishop - 1], BishopSquareValue, false);
    score := score + (w - k);
    w := PieceSquareValues(b.pieces[WhiteRook - 1], RookSquareValue, true);
    k := PieceSquareValues(b.pieces[BlackRook - 1], RookSquareValue, false);
    score := score + (w - k);
    w := PieceSquareValues(b.pieces[WhiteQueen - 1], QueenSquareValue, true);
    k := PieceSquareValues(b.pieces[BlackQueen - 1], QueenSquareValue, false);
    score := score + (w - k);
    w := PieceSquareValues(b.pieces[WhiteKing - 1], KingMiddleGameSquareValue, true);
    k := PieceSquareValues(b.pieces[BlackKing - 1], KingMiddleGameSquareValue, false);
    score := score + (w - k);
  }

  /** Every black piece board is the rank mirror of the white board of the
      same kind: the position looks the same from both sides. */
  ghost predicate ColourMirrored(b: BoardState)
  {
    forall i :: 0 <= i < 6 ==> MirroredBoards(b.pieces[i], b.pieces[i + 6])
  }

  lemma KindScoreMirrored(b: BoardState, kind: PieceCode)
    requires WhiteKing <= kind <= WhitePawn
    requires MirroredBoards(b.pieces[kind - 1], b.pieces[kind + 5])
    ensures KindScore(b, kind) == 0
  {
    var t := KindTable(kind);
    MirroredBoardSum(SquareValue(t, true), SquareValue(t, false), b.pieces[kind - 1], b.pieces[kind + 5]);
  }

  /** On a colour-mirrored board the piece-square score is zero. */
  lemma PositionScoreMirrored(b: BoardState)
    requires ColourMirrored(b)
    ensures PositionScore(b) == 0
  {
    KindScoreMirrored(b, WhiteKing);
    KindScoreMirrored(b, WhiteQueen);
    KindScoreMirrored(b, WhiteRook);
    KindScoreMirrored(b, WhiteBishop);
    KindScoreMirrored(b, WhiteKnight);
    KindScoreMirrored(b, WhitePawn);
  }

  // ---------------------------------------------------------------------------
  // Centre control

  const D4: Sq := 27
  const E4: Sq := 28
  const D5: Sq := 35
  const E5: Sq := 36

  const CenterBitboard: Bitboard := SquareBit(D4) | SquareBit(D5) | SquareBit(E4) | SquareBit(E5)

  /** A pawn stands on one of the four centre squares. */
  predicate OnCenter(pawns: Bitboard)
  {
    Has(pawns, D4) || Has(pawns, D5) || Has(pawns, E4) || Has(pawns, E5)
  }

  lemma CenterHas(s: Sq)
    ensures Has(CenterBitboard, s) <==> s == D4 || s == D5 || s == E4 || s == E5
  {
    OrHas(SquareBit(D4) | SquareBit(D5) | SquareBit(E4), SquareBit(E5), s);
    OrHas(SquareBit(D4) | SquareBit(D5), SquareBit(E4), s);
    OrHas(SquareBit(D4), SquareBit(D5), s);
    SquareBitHas(D4, s);
    SquareBitHas(D5, s);
    SquareBitHas(E4, s);
    SquareBitHas(E5, s);
  }

  /** Meeting the centre mask is having a pawn on a centre square. */
  lemma CenterMask(pawns: Bitboard)
    ensures pawns & CenterBitboard != 0 <==> OnCenter(pawns)
  {
    var met := pawns & CenterBitboard;
    if met != 0 {
      var k := LowestExists(met, 0);
      AndHas(pawns, CenterBitboard, k);
      CenterHas(k);
    } else {
      forall s: Sq | s == D4 || s == D5 || s == E4 || s == E5
        ensures !Has(pawns, s)
      {
        AndHas(pawns, CenterBitboard, s);
        CenterHas(s);
        EmptyHasNothing(s);
      }
    }
  }

  /** `centerControl`: +70 when only white has a centre pawn, -70 when only
      black has one, 0 otherwise. */
  function CenterControl(b: BoardState): int
  {
    var score := 0;
    var score := if b.pieces[WhitePawn - 1] & CenterBitboard != 0 then score + 70 else score;
    if b.pieces[BlackPawn - 1] & CenterBitboard != 0 then score - 70 else score
  }

  /** The centre term is +70, -70 or 0, according to which sides have a
      pawn on D4, D5, E4 or E5. */
  lemma CenterControlRange(b: BoardState)
    ensures CenterControl(b) == 70 <==> OnCenter(b.pieces[WhitePawn - 1]) && !OnCenter(b.pieces[BlackPawn - 1])
    ensures CenterControl(b) == -70 <==> !OnCenter(b.pieces[WhitePawn - 1]) && OnCenter(b.pieces[BlackPawn - 1])
    ensures CenterControl(b) == 0 <==> OnCenter(b.pieces[WhitePawn - 1]) == OnCenter(b.pieces[BlackPawn - 1])
    ensures CenterControl(b) == -70 || CenterControl(b) == 0 || CenterControl(b) == 70
  {
    CenterMask(b.pieces[WhitePawn - 1]);
    CenterMask(b.pieces[BlackPawn - 1]);
  }

  // ---------------------------------------------------------------------------
  // Pawn structure

  /** The masks the pawn-structure terms read, one entry per square: the
      neighbouring files, the squares ahead on the pawn's own file, and the
      passed-pawn zones of each colour. */
  datatype PawnMasks = PawnMasks(
    doublePawnsSides: MaskTable,
    doublePawnsForward: MaskTable,
    passedPawnWhite: MaskTable,
    passedPawnBlack: MaskTable)

  /** No friendly pawn on the neighbouring files. */
  predicate Isolated(m: PawnMasks, own: Bitboard, s: Sq)
  {
    m.doublePawnsSides[s] & own == 0
  }

  /** A friendly pawn ahead on the same file. */
  predicate Doubled(m: PawnMasks, own: Bitboard, s: Sq)
  {
    m.doublePawnsForward[s] & own != 0
  }

  function Indicator(c: bool): int
  {
    if c then 1 else 0
  }

  /** The penalty of one pawn: 45 for being isolated and 45 more for being
      doubled. */
  function PawnPenalty(m: PawnMasks, own: Bitboard, s: Sq): int
  {
    if Isolated(m, own, s) then
      if Doubled(m, own, s) then 90 else 45
    else if Doubled(m, own, s) then 45
    else 0
  }

  /** The penalty is 45 per defect, so it is 0, 45 or 90. */
  lemma PawnPenaltyDefects(m: PawnMasks, own: Bitboard, s: Sq)
    ensures PawnPenalty(m, own, s) == 45 * (Indicator(Isolated(m, own, s)) + Indicator(Doubled(m, own, s)))
    ensures 0 <= PawnPenalty(m, own, s) <= 90
  {
  }

  function PenaltyOf(m: PawnMasks, own: Bitboard): Sq -> int
  {
    (s: Sq) => PawnPenalty(m, own, s)
  }

  /** Black's pawn penalties minus white's. */
  ghost function PawnStructureScore(b: BoardState, m: PawnMasks): int
  {
    var white, black := b.pieces[WhitePawn - 1], b.pieces[BlackPawn - 1];
    BoardSum(PenaltyOf(m, black), black) - BoardSum(PenaltyOf(m, white), white)
  }

  /** `doubledOrIsolatedPawnsPenalties`: subtracts each white pawn's penalty,
      then adds each black pawn's. */
  method DoubledOrIsolatedPawnsPenalties(b: BoardState, m: PawnMasks) returns (score: int)
    ensures score == PawnStructureScore(b, m)
  {
    score := 0;
    var white := b.pieces[WhitePawn - 1];
    var f := PenaltyOf(m, white);
    var whitePawns := white;
    while whitePawns != 0
      invariant score + WalkSum(f, Targets(white)) == WalkSum(f, Targets(whitePawns))
      decreases PopCount(whitePawns)
    {
      var sq := LowestSquare(whitePawns);
      WalkSumStep(f, whitePawns);
      whitePawns := ClearLeastSignificantBit(whitePawns);
      score := score - PawnPenalty(m, white, sq);
    }
    var whiteScore := score;
    var black := b.pieces[BlackPawn - 1];
    var g := PenaltyOf(m, black);
    var blackPawns := black;
    while blackPawns != 0
      invariant score + WalkSum(g, Targets(blackPawns)) == whiteScore + WalkSum(g, Targets(black))
      decreases PopCount(blackPawns)
    {
      var sq := LowestSquare(blackPawns);
      WalkSumStep(g, blackPawns);
      blackPawns := ClearLeastSignificantBit(blackPawns);
      score := score + PawnPenalty(m, black, sq);
    }
    PawnStructureWalks(b, m);
  }

  /** The pawn-structure score summed along the two walks. */
  lemma PawnStructureWalks(b: BoardState, m: PawnMasks)
    ensures PawnStructureScore(b, m)
            == WalkSum(PenaltyOf(m, b.pieces[BlackPawn - 1]), Targets(b.pieces[BlackPawn - 1]))
               - WalkSum(PenaltyOf(m, b.pieces[WhitePawn - 1]), Targets(b.pieces[WhitePawn - 1]))
  {
    var white, black := b.pieces[WhitePawn - 1], b.pieces[BlackPawn - 1];
    WalkSumIsBoardSum(PenaltyOf(m, white), white);
    WalkSumIsBoardSum(PenaltyOf(m, black), black);
  }

  /** Each white pawn costs 0, 45 or 90 and each black pawn gains as much,
      so the term lies between -90 per white pawn and +90 per black pawn. */
  lemma PawnStructureBounds(b: BoardState, m: PawnMasks)
    ensures -90 * PopCount(b.pieces[WhitePawn - 1]) <= PawnStructureScore(b, m)
    ensures PawnStructureScore(b, m) <= 90 * PopCount(b.pieces[BlackPawn - 1])
  {
    var white, black := b.pieces[WhitePawn - 1], b.pieces[BlackPawn - 1];
    forall s: Sq ensures 0 <= PenaltyOf(m, white)(s) <= 90 && 0 <= PenaltyOf(m, black)(s) <= 90 {
      PawnPenaltyDefects(m, white, s);
      PawnPenaltyDefects(m, black, s);
    }
    BoardSumBounds(PenaltyOf(m, white), white, 0, 90);
    BoardSumBounds(PenaltyOf(m, black), black, 0, 90);
  }

  /** No enemy pawn in the zone ahead of the pawn on `s`. */
  predicate Passed(zones: MaskTable, enemy: Bitboard, s: Sq)
  {
    zones[s] & enemy == 0
  }

  /** The number of pawns in `own` with no pawn of `enemy` in their zone. */
  ghost function PassedCount(zones: MaskTable, own: Bitboard, enemy: Bitboard): nat
  {
    Count((s: Sq) => Has(own, s) && Passed(zones, enemy, s), 64)
  }

  function PassedIndicator(zones: MaskTable, enemy: Bitboard): Sq -> int
  {
    (s: Sq) => Indicator(Passed(zones, enemy, s))
  }

  /** The walk over `own` adds one per passed pawn. */
  lemma PassedWalk(zones: MaskTable, own: Bitboard, enemy: Bitboard)
    ensures WalkSum(PassedIndicator(zones, enemy), Targets(own)) == PassedCount(zones, own, enemy)
  {
    var f := PassedIndicator(zones, enemy);
    WalkSumIsBoardSum(f, own);
    TotalIsCount(Masked(f, own), (s: Sq) => Has(own, s) && Passed(zones, enemy, s), 64);
  }

  /** `passedPawnsBonuses`: 120 for every white passed pawn, minus 120 for
      every black one. */
  method PassedPawnsBonuses(b: BoardState, m: PawnMasks) returns (score: int)
    ensures score == PassedScore(b, m)
  {
    var white, black := b.pieces[WhitePawn - 1], b.pieces[BlackPawn - 1];
    var f := PassedIndicator(m.passedPawnWhite, black);
    var g := PassedIndicator(m.passedPawnBlack, white);
    score := 0;
    var whitePawns := white;
    while whitePawns != 0
      invariant score + 120 * WalkSum(f, Targets(whitePawns)) == 120 * WalkSum(f, Targets(white))
      decreases PopCount(whitePawns)
    {
      var sq := LowestSquare(whitePawns);
      WalkSumStep(f, whitePawns);
      whitePawns := ClearLeastSignificantBit(whitePawns);
      if Passed(m.passedPawnWhite, black, sq) {
        score := score + 120;
      }
    }
    var whiteScore := score;
    var blackPawns := black;
    while blackPawns != 0
      invariant score - 120 * WalkSum(g, Targets(blackPawns)) == whiteScore - 120 * WalkSum(g, Targets(black))
      decreases PopCount(blackPawns)
    {
      var sq := LowestSquare(blackPawns);
      WalkSumStep(g, blackPawns);
      blackPawns := ClearLeastSignificantBit(blackPawns);
      if Passed(m.passedPawnBlack, white, sq) {
        score := score - 120;
      }
    }
    PassedScoreWalks(b, m);
  }

  /** The passed-pawn score summed along the two walks. */
  lemma PassedScoreWalks(b: BoardState, m: PawnMasks)
    ensures PassedScore(b, m)
            == 120 * WalkSum(PassedIndicator(m.passedPawnWhite, b.pieces[BlackPawn - 1]), Targets(b.pieces[WhitePawn - 1]))
               - 120 * WalkSum(PassedIndicator(m.passedPawnBlack, b.pieces[WhitePawn - 1]), Targets(b.pieces[BlackPawn - 1]))
  {
    var white, black := b.pieces[WhitePawn - 1], b.pieces[BlackPawn - 1];
    PassedWalk(m.passedPawnWhite, white, black);
    PassedWalk(m.passedPawnBlack, black, white);
  }

  // ---------------------------------------------------------------------------
  // The whole evaluation

  /** Which terms the engine adds. */
  datatype EvalSwitches = EvalSwitches(
    materialDifference: bool,
    positionDifference: bool,
    centerControl: bool,
    doubledIsolatedPawns: bool,
    passedPawns: bool)

  /** `x` when its switch is on. */
  function On(enabled: bool, x: int): int
  {
    if enabled then x else 0
  }

  /** The passed-pawn term. */
  ghost function PassedScore(b: BoardState, m: PawnMasks): int
  {
    120 * (PassedCount(m.passedPawnWhite, b.pieces[WhitePawn - 1], b.pieces[BlackPawn - 1])
           - PassedCount(m.passedPawnBlack, b.pieces[BlackPawn - 1], b.pieces[WhitePawn - 1]))
  }

  /** The terms of the earlier evaluation (engine_bruteforce.go with
      engine.go): engine.go's linear material term, the piece-square tables
      and the centre. */
  ghost function EarlyTerms(sw: EvalSwitches, b: BoardState): int
  {
    On(sw.materialDifference, LinearMaterialDifference(b))
      + On(sw.positionDifference, PositionScore(b))
      + On(sw.centerControl, CenterControl(b))
  }

  /** The enabled terms of engine_evaluation.go, from white's point of view:
      the material term with its ratio bonus, then the same piece-square and
      centre terms, then the pawn structure. */
  ghost function Terms(sw: EvalSwitches, b: BoardState, m: PawnMasks): int
  {
    On(sw.materialDifference, MaterialDifference(b))
      + On(sw.positionDifference, PositionScore(b))
      + On(sw.centerControl, CenterControl(b))
      + On(sw.doubledIsolatedPawns, PawnStructureScore(b, m))
      + On(sw.passedPawns, PassedScore(b, m))
  }

  // Each switch guards one term; a term is computed only when its switch is on.

  method AddMaterialTerm(sw: EvalSwitches, b: BoardState, score: int) returns (r: int)
    ensures r == score + On(sw.materialDifference, MaterialDifference(b))
  {
    r := score;
    if sw.materialDifference {
      r := r + MaterialDifference(b);
    }
  }

  method AddLinearMaterialTerm(sw: EvalSwitches, b: BoardState, score: int) returns (r: int)
    ensures r == score + On(sw.materialDifference, LinearMaterialDifference(b))
  {
    r := score;
    if sw.materialDifference {
      r := r + LinearMaterialDifference(b);
    }
  }

  method AddPositionTerm(sw: EvalSwitches, b: BoardState, score: int) returns (r: int)
    ensures r == score + On(sw.positionDifference, PositionScore(b))
  {
    r := score;
    if sw.positionDifference {
      var s := PositionDifference(b);
      r := r + s;
    }
  }

  method AddCenterTerm(sw: EvalSwitches, b: BoardState, score: int) returns (r: int)
    ensures r == score + On(sw.centerControl, CenterControl(b))
  {
    r := score;
    if sw.centerControl {
      r := r + CenterControl(b);
    }
  }

  method AddPawnStructureTerm(sw: EvalSwitches, b: BoardState, m: PawnMasks, score: int) returns (r: int)
    ensures r == score + On(sw.doubledIsolatedPawns, PawnStructureScore(b, m))
  {
    r := score;
    if sw.doubledIsolatedPawns {
      var s := DoubledOrIsolatedPawnsPenalties(b, m);
      r := r + s;
    }
  }

  method AddPassedPawnTerm(sw: EvalSwitches, b: BoardState, m: PawnMasks, score: int) returns (r: int)
    ensures r == score + On(sw.passedPawns, PassedScore(b, m))
  {
    r := score;
    if sw.passedPawns {
      var s := PassedPawnsBonuses(b, m);
      r := r + s;
    }
  }

  /** The earlier evaluation's terms in its order: material, then the
      piece-square tables, then the centre. */
  method AddEarlyTerms(sw: EvalSwitches, b: BoardState) returns (score: int)
    ensures score == EarlyTerms(sw, b)
  {
    score := AddLinearMaterialTerm(sw, b, 0);
    score := AddPositionTerm(sw, b, score);
    score := AddCenterTerm(sw, b, score);
  }

  /** `StaticEvaluation`: the enabled terms plus a tempo of 15 for the side
      to move, seen from the side to move. With the turn 1 or -1 that is the
      turn times the terms, plus 15. */
  method StaticEvaluation(sw: EvalSwitches, p: Position, m: PawnMasks) returns (r: int)
    ensures r == p.turn * Terms(sw, p.board, m) + p.turn * p.turn * 15
    ensures p.turn == 1 || p.turn == -1 ==> r == p.turn * Terms(sw, p.board, m) + 15
  {
    var score := AddMaterialTerm(sw, p.board, 0);
    score := AddPositionTerm(sw, p.board, score);
    score := AddCenterTerm(sw, p.board, score);
    score := AddPawnStructureTerm(sw, p.board, m, score);
    score := AddPassedPawnTerm(sw, p.board, m, score);
    ghost var terms := Terms(sw, p.board, m);
    assert score == terms;
    score := score + p.turn * 15;
    r := score * p.turn;
    TurnScale(terms, p.turn, score);
  }

  /** Scaling by the turn after adding the tempo. */
  lemma TurnScale(x: int, turn: int, score: int)
    requires score == x + turn * 15
    ensures score * turn == turn * x + turn * turn * 15
    ensures turn == 1 || turn == -1 ==> score * turn == turn * x + 15
  {
  }

  /** The earlier `StaticEvaluation`: the enabled terms seen from the side
      to move, without the tempo. */
  method EarlyStaticEvaluation(sw: EvalSwitches, p: Position) returns (r: int)
    ensures r == p.turn * EarlyTerms(sw, p.board)
  {
    var score := AddEarlyTerms(sw, p.board);
    r := score * p.turn;
  }

  /** With the pawn-structure terms off, the later evaluation is the earlier
      one plus the tempo of 15 and, when the material term is on, the ratio
      bonus by which the two material terms differ (less than 100, see
      `MaterialRevisionsAgree`). */
  lemma TempoOnly(sw: EvalSwitches, p: Position, m: PawnMasks)
    requires !sw.doubledIsolatedPawns && !sw.passedPawns
    requires p.turn == 1 || p.turn == -1
    ensures p.turn * Terms(sw, p.board, m) + 15
            == p.turn * EarlyTerms(sw, p.board) + 15
               + p.turn * On(sw.materialDifference, MaterialDifference(p.board) - LinearMaterialDifference(p.board))
  {
  }

  /** With every term off, the evaluation is the tempo alone. */
  lemma NoTerms(sw: EvalSwitches, b: BoardState, m: PawnMasks)
    requires sw == EvalSwitches(false, false, false, false, false)
    ensures Terms(sw, b, m) == 0
  {
  }
}
