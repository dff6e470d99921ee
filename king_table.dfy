/**
 * The king move table (bitboard_generators/king.go): for every square, the
 * squares one step away in each of the eight directions that stay on the
 * board.
 */
module KingTable {
  import opened Bitboards
  import opened TableBuilding

  /** Down, up, left and right, each when the board goes on that way. */
  function KingStraight(s: Sq): Bitboard
  {
    var r, f := SqRank(s), SqFile(s);
    Add4(0, r > 0, s - 8, r < 7, s + 8, f > 0, s - 1, f < 7, s + 1)
  }

  /** `b` with the four diagonal steps added: down-left, down-right, up-left,
      up-right. */
  function KingDiagonal(s: Sq, b: Bitboard): Bitboard
  {
    var r, f := SqRank(s), SqFile(s);
    Add4(b, r > 0 && f > 0, s - 9, r > 0 && f < 7, s - 7, r < 7 && f > 0, s + 7, r < 7 && f < 7, s + 9)
  }

  /** The entry `generateKing` stores for square `s`, built in the order the
      generator adds the steps. */
  function KingMoves(s: Sq): Bitboard
  {
    KingDiagonal(s, KingStraight(s))
  }

  /** `t` is a king step away from `s`: another square whose file and rank
      each differ from those of `s` by at most one. */
  predicate KingStep(s: Sq, t: Sq)
  {
    s != t && Adjacent(SqRank(s), SqRank(t)) && Adjacent(SqFile(s), SqFile(t))
  }

  predicate StraightStep(s: Sq, t: Sq)
  {
    var r, f := SqRank(s), SqFile(s);
    (r > 0 && t == s - 8) || (r < 7 && t == s + 8) || (f > 0 && t == s - 1) || (f < 7 && t == s + 1)
  }

  predicate DiagonalStep(s: Sq, t: Sq)
  {
    var r, f := SqRank(s), SqFile(s);
    (r > 0 && f > 0 && t == s - 9) || (r > 0 && f < 7 && t == s - 7)
    || (r < 7 && f > 0 && t == s + 7) || (r < 7 && f < 7 && t == s + 9)
  }

  lemma KingStraightHas(s: Sq, t: Sq)
    ensures Has(KingStraight(s), t) <==> StraightStep(s, t)
  {
    var r, f := SqRank(s), SqFile(s);
    EmptyHasNothing(t);
    Add4Has(0, r > 0, s - 8, r < 7, s + 8, f > 0, s - 1, f < 7, s + 1, t);
  }

  lemma KingDiagonalHas(s: Sq, b: Bitboard, t: Sq)
    ensures Has(KingDiagonal(s, b), t) <==> Has(b, t) || DiagonalStep(s, t)
  {
    var r, f := SqRank(s), SqFile(s);
    Add4Has(b, r > 0 && f > 0, s - 9, r > 0 && f < 7, s - 7, r < 7 && f > 0, s + 7, r < 7 && f < 7, s + 9, t);
  }

  lemma StepsAreKingSteps(s: Sq, t: Sq)
    ensures StraightStep(s, t) || DiagonalStep(s, t) <==> KingStep(s, t)
    ensures !(StraightStep(s, t) && DiagonalStep(s, t))
  {
  }

  /** The king entry of `s` holds exactly the squares a king step away. */
  lemma KingMovesHas(s: Sq, t: Sq)
    ensures Has(KingMoves(s), t) <==> KingStep(s, t)
  {
    KingStraightHas(s, t);
    KingDiagonalHas(s, KingStraight(s), t);
    StepsAreKingSteps(s, t);
  }

  /** A king entry never holds its own square. */
  lemma KingMovesExcludeSource(s: Sq)
    ensures !Has(KingMoves(s), s)
  {
    KingMovesHas(s, s);
  }

  /** `t` is in the entry of `s` exactly when `s` is in the entry of `t`. */
  lemma KingMovesSymmetric(s: Sq, t: Sq)
    ensures Has(KingMoves(s), t) <==> Has(KingMoves(t), s)
  {
    KingMovesHas(s, t);
    KingMovesHas(t, s);
  }

  // ---------------------------------------------------------------------------
  // Sizes

  /** The number of ranks (or files) within one of `x`, `x` included. */
  function Span(x: bv8): nat
  {
    1 + Ind(x > 0) + Ind(x < 7)
  }

  lemma KingStraightCount(s: Sq)
    ensures PopCount(KingStraight(s)) == Ind(SqRank(s) > 0) + Ind(SqRank(s) < 7) + Ind(SqFile(s) > 0) + Ind(SqFile(s) < 7)
  {
    var r, f := SqRank(s), SqFile(s);
    EmptyPopCount();
    EmptyHasNothing(s);
    if r > 0 { EmptyHasNothing(s - 8); }
    if r < 7 { EmptyHasNothing(s + 8); }
    if f > 0 { EmptyHasNothing(s - 1); }
    if f < 7 { EmptyHasNothing(s + 1); }
    Add4Count(0, r > 0, s - 8, r < 7, s + 8, f > 0, s - 1, f < 7, s + 1);
  }

  /** No diagonal step is a straight one. */
  lemma DiagonalNotStraight(s: Sq, t: Sq)
    requires DiagonalStep(s, t)
    ensures !Has(KingStraight(s), t)
  {
    KingStraightHas(s, t);
    StepsAreKingSteps(s, t);
  }

  lemma DiagonalsNotStraight(s: Sq)
    ensures var r, f, b := SqRank(s), SqFile(s), KingStraight(s);
            (r > 0 && f > 0 ==> !Has(b, s - 9)) && (r > 0 && f < 7 ==> !Has(b, s - 7))
            && (r < 7 && f > 0 ==> !Has(b, s + 7)) && (r < 7 && f < 7 ==> !Has(b, s + 9))
  {
    var r, f := SqRank(s), SqFile(s);
    if r > 0 && f > 0 { DiagonalNotStraight(s, s - 9); }
    if r > 0 && f < 7 { DiagonalNotStraight(s, s - 7); }
    if r < 7 && f > 0 { DiagonalNotStraight(s, s + 7); }
    if r < 7 && f < 7 { DiagonalNotStraight(s, s + 9); }
  }

  /** One square per direction the board allows. */
  lemma KingMovesCountSteps(s: Sq)
    ensures var r, f := SqRank(s), SqFile(s);
            PopCount(KingMoves(s)) == Ind(r > 0) + Ind(r < 7) + Ind(f > 0) + Ind(f < 7)
              + Ind(r > 0 && f > 0) + Ind(r > 0 && f < 7) + Ind(r < 7 && f > 0) + Ind(r < 7 && f < 7)
  {
    var r, f := SqRank(s), SqFile(s);
    KingStraightCount(s);
    DiagonalsNotStraight(s);
    Add4Count(KingStraight(s), r > 0 && f > 0, s - 9, r > 0 && f < 7, s - 7, r < 7 && f > 0, s + 7, r < 7 && f < 7, s + 9);
  }

  lemma SpanProduct(r: bv8, f: bv8)
    ensures Span(r) * Span(f) - 1 == Ind(r > 0) + Ind(r < 7) + Ind(f > 0) + Ind(f < 7)
              + Ind(r > 0 && f > 0) + Ind(r > 0 && f < 7) + Ind(r < 7 && f > 0) + Ind(r < 7 && f < 7)
  {
  }

  /** The king entry of a square holds every square of the 3x3 block around
      it that is on the board, less the square itself. */
  lemma KingMovesCount(s: Sq)
    ensures PopCount(KingMoves(s)) == Span(SqRank(s)) * Span(SqFile(s)) - 1
  {
    KingMovesCountSteps(s);
    SpanProduct(SqRank(s), SqFile(s));
  }

  /** An edge rank or file has two ranks or files within one, any other three. */
  lemma SpanValue(x: bv8)
    requires x < 8
    ensures Span(x) == if x == 0 || x == 7 then 2 else 3
  {
  }

  /** 3 on the corners, 5 on the other edge squares, 8 everywhere else. */
  lemma KingMovesSizes(s: Sq)
    ensures var r, f := SqRank(s), SqFile(s);
            PopCount(KingMoves(s)) == if (r == 0 || r == 7) && (f == 0 || f == 7) then 3
                                      else if r == 0 || r == 7 || f == 0 || f == 7 then 5
                                      else 8
  {
    var r, f := SqRank(s), SqFile(s);
    KingMovesCount(s);
    SpanValue(r);
    SpanValue(f);
  }

  // ---------------------------------------------------------------------------
  // The generator

  /** The body of `generateKing`'s loops for the square on rank `r`, file `f`. */
  method KingEntry(r: bv8, f: bv8) returns (bb: Bitboard)
    requires r < 8 && f < 8
    ensures bb == KingMoves(f + r * 8)
  {
    bb := 0;
    if r > 0 {
      bb := bb | SquareBit(At(r - 1, f));
    }
    if r < 7 {
      bb := bb | SquareBit(At(r + 1, f));
    }
    if f > 0 {
      bb := bb | SquareBit(At(r, f - 1));
    }
    if f < 7 {
      bb := bb | SquareBit(At(r, f + 1));
    }
    if r > 0 && f > 0 {
      bb := bb | SquareBit(At(r - 1, f - 1));
    }
    if r > 0 && f < 7 {
      bb := bb | SquareBit(At(r - 1, f + 1));
    }
    if r < 7 && f > 0 {
      bb := bb | SquareBit(At(r + 1, f - 1));
    }
    if r < 7 && f < 7 {
      bb := bb | SquareBit(At(r + 1, f + 1));
    }
  }

  /** `generateKing`: the 64 entries, the square on rank `r` and file `f`
      stored at index `f + r * 8`. */
  method GenerateKing() returns (kingMoves: array<Bitboard>)
    ensures fresh(kingMoves) && kingMoves.Length == 64
    ensures forall s: Sq :: kingMoves[s] == KingMoves(s)
  {
    kingMoves := new Bitboard[64](_ => 0);
    var r: bv8 := 0;
    while r < 8
      invariant r <= 8
      invariant forall s: Sq :: s < r * 8 ==> kingMoves[s] == KingMoves(s)
    {
      var f: bv8 := 0;
      while f < 8
        invariant f <= 8
        invariant forall s: Sq :: s < r * 8 + f ==> kingMoves[s] == KingMoves(s)
      {
        var bb := KingEntry(r, f);
        kingMoves[f + r * 8] := bb;
        f := f + 1;
      }
      r := r + 1;
    }
  }
}
