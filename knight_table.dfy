/**
 * The knight move table (bitboard_generators/knight.go): for every square,
 * the squares a knight's jump away that are on the board.
 */
module KnightTable {
  import opened Bitboards
  import opened TableBuilding

  /** Up-left, up-right, right-up, right-down, each when it stays on the board. */
  function KnightFirst(s: Sq): Bitboard
  {
    var r, f := SqRank(s), SqFile(s);
    Add4(0, r < 6 && f > 0, s + 15, r < 6 && f < 7, s + 17, r < 7 && f < 6, s + 10, r > 0 && f < 6, s - 6)
  }

  /** `b` with down-right, down-left, left-down and left-up added. */
  function KnightSecond(s: Sq, b: Bitboard): Bitboard
  {
    var r, f := SqRank(s), SqFile(s);
    Add4(b, r > 1 && f < 7, s - 15, r > 1 && f > 0, s - 17, r > 0 && f > 1, s - 10, r < 7 && f > 1, s + 6)
  }

  /** The entry `generateKnight` stores for square `s`, built in the order the
      generator adds the jumps. */
  function KnightMoves(s: Sq): Bitboard
  {
    KnightSecond(s, KnightFirst(s))
  }

  /** How far apart two ranks (or files) are. */
  function Distance(a: bv8, b: bv8): bv8
  {
    if a < b then b - a else a - b
  }

  /** `t` is a knight's jump from `s`: two ranks and one file away, or one
      rank and two files. */
  predicate KnightJump(s: Sq, t: Sq)
  {
    var dr, df := Distance(SqRank(s), SqRank(t)), Distance(SqFile(s), SqFile(t));
    (dr == 1 && df == 2) || (dr == 2 && df == 1)
  }

  predicate FirstJump(s: Sq, t: Sq)
  {
    var r, f := SqRank(s), SqFile(s);
    (r < 6 && f > 0 && t == s + 15) || (r < 6 && f < 7 && t == s + 17)
    || (r < 7 && f < 6 && t == s + 10) || (r > 0 && f < 6 && t == s - 6)
  }

  predicate SecondJump(s: Sq, t: Sq)
  {
    var r, f := SqRank(s), SqFile(s);
    (r > 1 && f < 7 && t == s - 15) || (r > 1 && f > 0 && t == s - 17)
    || (r > 0 && f > 1 && t == s - 10) || (r < 7 && f > 1 && t == s + 6)
  }

  lemma KnightFirstHas(s: Sq, t: Sq)
    ensures Has(KnightFirst(s), t) <==> FirstJump(s, t)
  {
    var r, f := SqRank(s), SqFile(s);
    EmptyHasNothing(t);
    Add4Has(0, r < 6 && f > 0, s + 15, r < 6 && f < 7, s + 17, r < 7 && f < 6, s + 10, r > 0 && f < 6, s - 6, t);
  }

  lemma KnightSecondHas(s: Sq, b: Bitboard, t: Sq)
    ensures Has(KnightSecond(s, b), t) <==> Has(b, t) || SecondJump(s, t)
  {
    var r, f := SqRank(s), SqFile(s);
    Add4Has(b, r > 1 && f < 7, s - 15, r > 1 && f > 0, s - 17, r > 0 && f > 1, s - 10, r < 7 && f > 1, s + 6, t);
  }

  lemma JumpsAreKnightJumps(s: Sq, t: Sq)
    ensures FirstJump(s, t) || SecondJump(s, t) <==> KnightJump(s, t)
    ensures !(FirstJump(s, t) && SecondJump(s, t))
  {
  }

  /** The knight entry of `s` holds exactly the squares a knight's jump away. */
  lemma KnightMovesHas(s: Sq, t: Sq)
    ensures Has(KnightMoves(s), t) <==> KnightJump(s, t)
  {
    KnightFirstHas(s, t);
    KnightSecondHas(s, KnightFirst(s), t);
    JumpsAreKnightJumps(s, t);
  }

  /** A knight entry never holds its own square. */
  lemma KnightMovesExcludeSource(s: Sq)
    ensures !Has(KnightMoves(s), s)
  {
    KnightMovesHas(s, s);
  }

  lemma KnightJumpSymmetric(s: Sq, t: Sq)
    ensures KnightJump(s, t) <==> KnightJump(t, s)
  {
    assert Distance(SqRank(s), SqRank(t)) == Distance(SqRank(t), SqRank(s));
    assert Distance(SqFile(s), SqFile(t)) == Distance(SqFile(t), SqFile(s));
  }

  /** `t` is in the entry of `s` exactly when `s` is in the entry of `t`. */
  lemma KnightMovesSymmetric(s: Sq, t: Sq)
    ensures Has(KnightMoves(s), t) <==> Has(KnightMoves(t), s)
  {
    KnightMovesHas(s, t);
    KnightMovesHas(t, s);
    KnightJumpSymmetric(s, t);
  }

  // ---------------------------------------------------------------------------
  // Sizes

  lemma KnightFirstCount(s: Sq)
    ensures var r, f := SqRank(s), SqFile(s);
            PopCount(KnightFirst(s)) == Ind(r < 6 && f > 0) + Ind(r < 6 && f < 7) + Ind(r < 7 && f < 6) + Ind(r > 0 && f < 6)
  {
    var r, f := SqRank(s), SqFile(s);
    EmptyPopCount();
    EmptyHasNothing(s);
    if r < 6 && f > 0 { EmptyHasNothing(s + 15); }
    if r < 6 && f < 7 { EmptyHasNothing(s + 17); }
    if r < 7 && f < 6 { EmptyHasNothing(s + 10); }
    if r > 0 && f < 6 { EmptyHasNothing(s - 6); }
    Add4Count(0, r < 6 && f > 0, s + 15, r < 6 && f < 7, s + 17, r < 7 && f < 6, s + 10, r > 0 && f < 6, s - 6);
  }

  lemma SecondNotFirst(s: Sq, t: Sq)
    requires SecondJump(s, t)
    ensures !Has(KnightFirst(s), t)
  {
    KnightFirstHas(s, t);
    JumpsAreKnightJumps(s, t);
  }

  lemma SecondsNotFirst(s: Sq)
    ensures var r, f, b := SqRank(s), SqFile(s), KnightFirst(s);
            (r > 1 && f < 7 ==> !Has(b, s - 15)) && (r > 1 && f > 0 ==> !Has(b, s - 17))
            && (r > 0 && f > 1 ==> !Has(b, s - 10)) && (r < 7 && f > 1 ==> !Has(b, s + 6))
  {
    var r, f := SqRank(s), SqFile(s);
    if r > 1 && f < 7 { SecondNotFirst(s, s - 15); }
    if r > 1 && f > 0 { SecondNotFirst(s, s - 17); }
    if r > 0 && f > 1 { SecondNotFirst(s, s - 10); }
    if r < 7 && f > 1 { SecondNotFirst(s, s + 6); }
  }

  /** The number of jumps whose guard holds. */
  function KnightCount(r: bv8, f: bv8): nat
  {
    Ind(r < 6 && f > 0) + Ind(r < 6 && f < 7) + Ind(r < 7 && f < 6) + Ind(r > 0 && f < 6)
    + Ind(r > 1 && f < 7) + Ind(r > 1 && f > 0) + Ind(r > 0 && f > 1) + Ind(r < 7 && f > 1)
  }

  lemma KnightSecondCount(s: Sq, b: Bitboard)
    requires b == KnightFirst(s)
    ensures var r, f := SqRank(s), SqFile(s);
            PopCount(KnightSecond(s, b)) == PopCount(b)
              + Ind(r > 1 && f < 7) + Ind(r > 1 && f > 0) + Ind(r > 0 && f > 1) + Ind(r < 7 && f > 1)
  {
    var r, f := SqRank(s), SqFile(s);
    SecondsNotFirst(s);
    Add4Count(b, r > 1 && f < 7, s - 15, r > 1 && f > 0, s - 17, r > 0 && f > 1, s - 10, r < 7 && f > 1, s + 6);
  }

  /** One square per jump that stays on the board. */
  lemma KnightMovesCount(s: Sq)
    ensures PopCount(KnightMoves(s)) == KnightCount(SqRank(s), SqFile(s))
  {
    KnightFirstCount(s);
    KnightSecondCount(s, KnightFirst(s));
  }

  /** From 2 on the corners to 8 when the file and the rank are both within
      2 .. 5. */
  lemma KnightMovesSizes(s: Sq)
    ensures var r, f := SqRank(s), SqFile(s);
            2 <= PopCount(KnightMoves(s)) <= 8
            && ((r == 0 || r == 7) && (f == 0 || f == 7) ==> PopCount(KnightMoves(s)) == 2)
            && (2 <= r <= 5 && 2 <= f <= 5 ==> PopCount(KnightMoves(s)) == 8)
  {
    KnightMovesCount(s);
  }

  // ---------------------------------------------------------------------------
  // The generator

  /** The body of `generateKnight`'s loops for the square on rank `r`, file `f`. */
  method KnightEntry(r: bv8, f: bv8) returns (bb: Bitboard)
    requires r < 8 && f < 8
    ensures bb == KnightMoves(f + r * 8)
  {
    bb := 0;
    if r < 6 && f > 0 {
      bb := bb | SquareBit(At(r + 2, f - 1));
    }
    if r < 6 && f < 7 {
      bb := bb | SquareBit(At(r + 2, f + 1));
    }
    if r < 7 && f < 6 {
      bb := bb | SquareBit(At(r + 1, f + 2));
    }
    if r > 0 && f < 6 {
      bb := bb | SquareBit(At(r - 1, f + 2));
    }
    if r > 1 && f < 7 {
      bb := bb | SquareBit(At(r - 2, f + 1));
    }
    if r > 1 && f > 0 {
      bb := bb | SquareBit(At(r - 2, f - 1));
    }
    if r > 0 && f > 1 {
      bb := bb | SquareBit(At(r - 1, f - 2));
    }
    if r < 7 && f > 1 {
      bb := bb | SquareBit(At(r + 1, f - 2));
    }
  }

  /** `generateKnight`: the 64 entries, the square on rank `r` and file `f`
      stored at index `f + r * 8`. */
  method GenerateKnight() returns (knightMoves: array<Bitboard>)
    ensures fresh(knightMoves) && knightMoves.Length == 64
    ensures forall s: Sq :: knightMoves[s] == KnightMoves(s)
  {
    knightMoves := new Bitboard[64](_ => 0);
    var r: bv8 := 0;
    while r < 8
      invariant r <= 8
      invariant forall s: Sq {:trigger knightMoves[s]} :: s < r * 8 ==> knightMoves[s] == KnightMoves(s)
    {
      var f: bv8 := 0;
      while f < 8
        invariant f <= 8
        invariant forall s: Sq {:trigger knightMoves[s]} :: s < r * 8 + f ==> knightMoves[s] == KnightMoves(s)
      {
        var bb := KnightEntry(r, f);
        knightMoves[f + r * 8] := bb;
        f := f + 1;
      }
      r := r + 1;
    }
  }
}
