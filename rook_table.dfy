/**
 * The rook tables of bitboard_generators/rook.go: the blocker mask of each
 * square (`generateRookMasks`), the squares that may hold a blocker
 * (`choices` in `fillRookMovesSquare`) and the moves of a rook for a given
 * set of blockers (its four ray loops).
 */
module RookTable {
  import opened Bitboards
  import opened TableBuilding
  import opened SlidingRays
  import opened BlockerSubsets

  // ---------------------------------------------------------------------------
  // Masks

  /** The rim squares `generateRookMasks` removes for a rook on rank `r`, file `f`. */
  function RookOuter(r: bv8, f: bv8): Bitboard
  {
    OrIf(OrIf(OrIf(OrIf(0, r > 0, Rank1), r < 7, ShiftLeft(Rank1, 56)), f > 0, FileA), f < 7, ShiftLeft(FileA, 7))
  }

  /** The mask of the rook on rank `r`, file `f`: its file and rank, without its square and the rim. */
  function RookMask(r: bv8, f: bv8): Bitboard
    requires r < 8 && f < 8
  {
    var lines := ShiftLeft(FileA, f) | ShiftLeft(Rank1, 8 * r);
    (lines & !SquareBit(At(r, f))) & !RookOuter(r, f)
  }

  /** The mask of a rook on `s`. */
  function RookMaskOf(s: Sq): Bitboard
  {
    RookMask(SqRank(s), SqFile(s))
  }

  /**
   * The squares that can block a rook on rank `r`, file `f`: those of its
   * rank strictly inside files B..G and those of its file strictly inside
   * ranks 2..7, other than its own.
   */
  predicate RookInner(r: bv8, f: bv8, t: Sq)
  {
    var rt, ft := SqRank(t), SqFile(t);
    (rt == r && 0 < ft < 7 && ft != f) || (ft == f && 0 < rt < 7 && rt != r)
  }

  lemma RookOuterHas(r: bv8, f: bv8, t: Sq)
    ensures Has(RookOuter(r, f), t) <==>
      (r > 0 && SqRank(t) == 0) || (r < 7 && SqRank(t) == 7) || (f > 0 && SqFile(t) == 0) || (f < 7 && SqFile(t) == 7)
  {
    var a := OrIf(0, r > 0, Rank1);
    var b := OrIf(a, r < 7, ShiftLeft(Rank1, 56));
    var c := OrIf(b, f > 0, FileA);
    EmptyHasNothing(t);
    RankHas(0, t);
    RankHas(7, t);
    FileHas(0, t);
    FileHas(7, t);
    OrIfHas(0, r > 0, Rank1, t);
    OrIfHas(a, r < 7, ShiftLeft(Rank1, 56), t);
    OrIfHas(b, f > 0, FileA, t);
    OrIfHas(c, f < 7, ShiftLeft(FileA, 7), t);
  }

  lemma RookMaskBits(hasLines: bool, isSquare: bool, isOuter: bool, r: bv8, f: bv8, rt: bv8, ft: bv8)
    requires r < 8 && f < 8 && rt < 8 && ft < 8
    requires hasLines <==> ft == f || rt == r
    requires isSquare <==> rt == r && ft == f
    requires isOuter <==> (r > 0 && rt == 0) || (r < 7 && rt == 7) || (f > 0 && ft == 0) || (f < 7 && ft == 7)
    ensures (hasLines && !isSquare && !isOuter) <==>
      (rt == r && 0 < ft < 7 && ft != f) || (ft == f && 0 < rt < 7 && rt != r)
  {
  }

  /** A file and a rank together. */
  lemma LinesHas(r: bv8, f: bv8, t: Sq)
    requires r < 8 && f < 8
    ensures Has(ShiftLeft(FileA, f) | ShiftLeft(Rank1, 8 * r), t) <==> SqFile(t) == f || SqRank(t) == r
  {
    FileHas(f, t);
    RankHas(r, t);
    OrHas(ShiftLeft(FileA, f), ShiftLeft(Rank1, 8 * r), t);
  }

  /** Removing two sets of squares in turn. */
  lemma RemoveTwice(a: Bitboard, b: Bitboard, c: Bitboard, ab: Bitboard, t: Sq)
    requires ab == a & !b
    ensures Has(ab & !c, t) <==> Has(a, t) && !Has(b, t) && !Has(c, t)
  {
    AndNotHas(a, b, t);
    AndNotHas(ab, c, t);
  }

  /** The square on rank `r`, file `f` is the only one with those coordinates. */
  lemma IsAt(r: bv8, f: bv8, t: Sq)
    requires r < 8 && f < 8
    ensures Has(SquareBit(At(r, f)), t) <==> SqRank(t) == r && SqFile(t) == f
  {
    SquareBitHas(At(r, f), t);
    if SqRank(t) == r && SqFile(t) == f {
      SameCoordinates(t, At(r, f));
    }
  }

  /** A rook mask holds exactly the squares that can block the rook. */
  lemma RookMaskHas(r: bv8, f: bv8, t: Sq)
    requires r < 8 && f < 8
    ensures Has(RookMask(r, f), t) <==> RookInner(r, f, t)
  {
    var lines := ShiftLeft(FileA, f) | ShiftLeft(Rank1, 8 * r);
    LinesHas(r, f, t);
    IsAt(r, f, t);
    RookOuterHas(r, f, t);
    RemoveTwice(lines, SquareBit(At(r, f)), RookOuter(r, f), lines & !SquareBit(At(r, f)), t);
    RookMaskBits(Has(lines, t), Has(SquareBit(At(r, f)), t), Has(RookOuter(r, f), t), r, f, SqRank(t), SqFile(t));
  }

  /** The loop body of `generateRookMasks` for rank `r`, file `f`. */
  method RookMaskEntry(r: bv8, f: bv8) returns (bb: Bitboard)
    requires r < 8 && f < 8
    ensures bb == RookMask(r, f)
  {
    bb := 0;
    bb := bb | ShiftLeft(FileA, f);
    bb := bb | ShiftLeft(Rank1, 8 * r);
    bb := bb & !SquareBit(At(r, f));
    var outer: Bitboard := 0;
    if r > 0 {
      outer := outer | Rank1;
    }
    if r < 7 {
      outer := outer | ShiftLeft(Rank1, 56);
    }
    if f > 0 {
      outer := outer | FileA;
    }
    if f < 7 {
      outer := outer | ShiftLeft(FileA, 7);
    }
    bb := bb & !outer;
  }

  /** `generateRookMasks`: the mask of the square on rank `r`, file `f` stored at `f + r * 8`. */
  method GenerateRookMasks() returns (masks: array<Bitboard>)
    ensures fresh(masks) && masks.Length == 64
    ensures forall s: Sq :: masks[s] == RookMaskOf(s)
  {
    masks := new Bitboard[64](_ => 0);
    var r: bv8 := 0;
    while r < 8
      invariant r <= 8
      invariant PassedWith(masks[..], RookMaskOf, r, 0)
    {
      var f: bv8 := 0;
      while f < 8
        invariant f <= 8
        invariant PassedWith(masks[..], RookMaskOf, r, f)
      {
        var bb := RookMaskEntry(r, f);
        PassStep(masks[..], RookMaskOf, r, f);
        masks[At(r, f)] := bb;
        f := f + 1;
      }
      PassNextRank(masks[..], RookMaskOf, r);
      r := r + 1;
    }
    PassDone(masks[..], RookMaskOf);
  }

  // ---------------------------------------------------------------------------
  // Choices

  /** The squares of rank `r` whose files lie in `lo .. hi-1`. */
  predicate OnRank(r: bv8, lo: bv8, hi: bv8, t: Sq)
  {
    SqRank(t) == r && lo <= SqFile(t) < hi
  }

  /** The squares of file `f` whose ranks lie in `lo .. hi-1`. */
  predicate OnFile(f: bv8, lo: bv8, hi: bv8, t: Sq)
  {
    SqFile(t) == f && lo <= SqRank(t) < hi
  }

  /** After the left loop, at file `f`. */
  ghost predicate LeftDone(cs: seq<Sq>, rank: bv8, f: bv8)
  {
    Distinct(cs) && forall t: Sq :: t in cs <==> OnRank(rank, 1, f, t)
  }

  /** In the right loop, about to list file `g`. */
  ghost predicate RightDone(cs: seq<Sq>, rank: bv8, file: bv8, g: bv8)
  {
    Distinct(cs) && forall t: Sq :: t in cs <==> OnRank(rank, 1, file, t) || OnRank(rank, g + 1, 7, t)
  }

  /** In the up loop, about to list rank `r`. */
  ghost predicate UpDone(cs: seq<Sq>, rank: bv8, file: bv8, r: bv8)
  {
    Distinct(cs) && forall t: Sq :: t in cs <==>
      OnRank(rank, 1, file, t) || OnRank(rank, file + 1, 7, t) || OnFile(file, r + 1, 7, t)
  }

  /** In the down loop, about to list rank `r`. */
  ghost predicate DownDone(cs: seq<Sq>, rank: bv8, file: bv8, r: bv8)
  {
    Distinct(cs) && forall t: Sq :: t in cs <==>
      OnRank(rank, 1, file, t) || OnRank(rank, file + 1, 7, t) || OnFile(file, rank + 1, 7, t) || OnFile(file, 1, r, t)
  }

  lemma AtIs(r: bv8, f: bv8, t: Sq)
    requires r < 8 && f < 8
    ensures t == At(r, f) <==> SqRank(t) == r && SqFile(t) == f
  {
    if SqRank(t) == r && SqFile(t) == f {
      SameCoordinates(t, At(r, f));
    }
  }

  /** Listing one more square that was not listed before. */
  lemma AppendNew(cs: seq<Sq>, x: Sq)
    requires Distinct(cs) && x !in cs
    ensures Distinct(cs + [x])
    ensures forall t :: t in cs + [x] <==> t in cs || t == x
  {
  }

  lemma LeftStep(cs: seq<Sq>, rank: bv8, f: bv8)
    requires rank < 8 && 1 <= f < 7 && LeftDone(cs, rank, f)
    ensures LeftDone(cs + [At(rank, f)], rank, f + 1)
  {
    AppendNew(cs, At(rank, f));
    forall t: Sq ensures t in cs + [At(rank, f)] <==> OnRank(rank, 1, f + 1, t) {
      AtIs(rank, f, t);
    }
  }

  lemma RightStep(cs: seq<Sq>, rank: bv8, file: bv8, g: bv8)
    requires rank < 8 && file < g <= 6 && RightDone(cs, rank, file, g)
    ensures RightDone(cs + [At(rank, g)], rank, file, g - 1)
  {
    AppendNew(cs, At(rank, g));
    forall t: Sq ensures t in cs + [At(rank, g)] <==> OnRank(rank, 1, file, t) || OnRank(rank, g, 7, t) {
      AtIs(rank, g, t);
    }
  }

  lemma UpStep(cs: seq<Sq>, rank: bv8, file: bv8, r: bv8)
    requires file < 8 && rank < r <= 6 && UpDone(cs, rank, file, r)
    ensures UpDone(cs + [At(r, file)], rank, file, r - 1)
  {
    AppendNew(cs, At(r, file));
    forall t: Sq ensures t in cs + [At(r, file)] <==>
      OnRank(rank, 1, file, t) || OnRank(rank, file + 1, 7, t) || OnFile(file, r, 7, t)
    {
      AtIs(r, file, t);
    }
  }

  lemma DownStep(cs: seq<Sq>, rank: bv8, file: bv8, r: bv8)
    requires file < 8 && rank < 8 && 1 <= r < rank && DownDone(cs, rank, file, r)
    ensures DownDone(cs + [At(r, file)], rank, file, r + 1)
  {
    AppendNew(cs, At(r, file));
    forall t: Sq ensures t in cs + [At(r, file)] <==>
      OnRank(rank, 1, file, t) || OnRank(rank, file + 1, 7, t) || OnFile(file, rank + 1, 7, t) || OnFile(file, 1, r + 1, t)
    {
      AtIs(r, file, t);
    }
  }

  lemma LeftToRight(cs: seq<Sq>, rank: bv8, file: bv8, f: bv8)
    requires 1 <= f && (f == file || (f == 1 && file <= 1)) && LeftDone(cs, rank, f)
    ensures RightDone(cs, rank, file, 6)
  {
  }

  lemma RightToUp(cs: seq<Sq>, rank: bv8, file: bv8, g: bv8)
    requires file < 8 && (g == file || (g == 6 && file == 7)) && RightDone(cs, rank, file, g)
    ensures UpDone(cs, rank, file, 6)
  {
  }

  lemma UpToDown(cs: seq<Sq>, rank: bv8, file: bv8, r: bv8)
    requires rank < 8 && (r == rank || (r == 6 && rank == 7)) && UpDone(cs, rank, file, r)
    ensures DownDone(cs, rank, file, 1)
  {
  }

  lemma DownAll(cs: seq<Sq>, rank: bv8, file: bv8, r: bv8)
    requires rank < 8 && file < 8 && (r == rank || (r == 1 && rank <= 1)) && DownDone(cs, rank, file, r)
    ensures forall t: Sq :: t in cs <==> RookInner(rank, file, t)
  {
  }

  /**
   * `choices` of `fillRookMovesSquare`: the squares that may hold a blocker
   * of a rook on rank `rank`, file `file`, each listed once, in the order
   * left, right, up, down.
   */
  method RookChoices(rank: bv8, file: bv8) returns (cs: seq<Sq>)
    requires rank < 8 && file < 8
    ensures Distinct(cs)
    ensures forall t: Sq :: t in cs <==> RookInner(rank, file, t)
  {
    cs := [];
    var f: bv8 := 1;
    while f < file
      invariant 1 <= f && (f <= file || f == 1)
      invariant LeftDone(cs, rank, f)
    {
      LeftStep(cs, rank, f);
      cs := cs + [At(rank, f)];
      f := f + 1;
    }
    LeftToRight(cs, rank, file, f);
    var g: bv8 := 6;
    while g > file
      invariant file <= g <= 6 || g == 6
      invariant RightDone(cs, rank, file, g)
    {
      RightStep(cs, rank, file, g);
      cs := cs + [At(rank, g)];
      g := g - 1;
    }
    RightToUp(cs, rank, file, g);
    var r: bv8 := 6;
    while r > rank
      invariant rank <= r <= 6 || r == 6
      invariant UpDone(cs, rank, file, r)
    {
      UpStep(cs, rank, file, r);
      cs := cs + [At(r, file)];
      r := r - 1;
    }
    UpToDown(cs, rank, file, r);
    r := 1;
    while r < rank
      invariant 1 <= r && (r <= rank || r == 1)
      invariant DownDone(cs, rank, file, r)
    {
      DownStep(cs, rank, file, r);
      cs := cs + [At(r, file)];
      r := r + 1;
    }
    DownAll(cs, rank, file, r);
  }

  // ---------------------------------------------------------------------------
  // Moves

  /** The ray loops of `fillRookMovesSquare`, in their order. */
  const RookDirections: seq<Direction> := [Left, Right, Up, Down]

  /** The squares a rook on `s` reaches when `blockers` are occupied. */
  function RookMoves(blockers: Bitboard, s: Sq): Bitboard
  {
    Slide(blockers, s, RookDirections)
  }

  /** The four ray loops of `fillRookMovesSquare` for a rook on rank `rank`, file `file`. */
  method ScanRookMoves(blockers: Bitboard, rank: bv8, file: bv8) returns (moves: Bitboard)
    requires rank < 8 && file < 8
    ensures moves == RookMoves(blockers, At(rank, file))
  {
    moves := ScanFour(blockers, At(rank, file), Left, Right, Up, Down);
  }

  /** A rook reaches `t` exactly when `t` lies on one of its four lines with nothing in between. */
  lemma RookMovesHas(blockers: Bitboard, s: Sq, t: Sq)
    ensures Has(RookMoves(blockers, s), t) <==>
      exists d :: d in RookDirections && Toward(d, s, t) && Clear(blockers, d, s, t)
  {
    SlideHas(blockers, s, RookDirections, t);
    forall d | d in RookDirections
      ensures Has(Ray(blockers, s, d), t) <==> Toward(d, s, t) && Clear(blockers, d, s, t)
    {
      RayHas(blockers, s, d, t);
    }
  }

  /** Every rook move leaves the square along its rank or its file. */
  lemma RookMovesStraight(blockers: Bitboard, s: Sq, t: Sq)
    requires Has(RookMoves(blockers, s), t)
    ensures t != s
    ensures SqRank(t) == SqRank(s) || SqFile(t) == SqFile(s)
  {
    RookMovesHas(blockers, s, t);
    var d :| d in RookDirections && Toward(d, s, t) && Clear(blockers, d, s, t);
    TowardIrreflexive(d, s);
  }

  /** A rook always has a move, whatever the blockers. */
  lemma RookMovesNonEmpty(blockers: Bitboard, s: Sq)
    ensures RookMoves(blockers, s) != 0
  {
    if SqFile(s) > 0 {
      SlideNonEmpty(blockers, s, RookDirections, Left);
    } else {
      SlideNonEmpty(blockers, s, RookDirections, Right);
    }
  }

  /** A square a rook line passes on its way to a further square lies in the rook's mask. */
  lemma RookLineInner(s: Sq, d: Direction, u: Sq)
    requires d.file == Stay || d.rank == Stay
    requires Toward(d, s, u) && Step(u, d).Some?
    ensures RookInner(SqRank(s), SqFile(s), u)
  {
    if d.file == Stay {
      InnerOfLine(d.rank, SqRank(s), SqRank(u));
    } else {
      InnerOfLine(d.file, SqFile(s), SqFile(u));
    }
  }

  /** Blocker sets that agree on the squares that can block a rook give it the same moves. */
  lemma RookMovesAgree(b1: Bitboard, b2: Bitboard, s: Sq)
    requires forall u: Sq :: RookInner(SqRank(s), SqFile(s), u) ==> (Has(b1, u) <==> Has(b2, u))
    ensures RookMoves(b1, s) == RookMoves(b2, s)
  {
    forall d, u: Sq | d in RookDirections && Toward(d, s, u) && Step(u, d).Some?
      ensures Has(b1, u) <==> Has(b2, u)
    {
      RookLineInner(s, d, u);
    }
    SlideAgrees(b1, b2, s, RookDirections);
  }

  /** Cutting the blockers down to the mask keeps those that can block. */
  lemma MaskKeepsInner(blockers: Bitboard, s: Sq, u: Sq)
    requires RookInner(SqRank(s), SqFile(s), u)
    ensures Has(blockers & RookMaskOf(s), u) <==> Has(blockers, u)
  {
    RookMaskHas(SqRank(s), SqFile(s), u);
    AndHas(blockers, RookMaskOf(s), u);
  }

  /**
   * Only the blockers inside the mask matter: the rook's moves for any
   * occupancy equal its moves for the occupancy cut down to its mask,
   * which is what lets a table indexed by masked blockers answer for every
   * board.
   */
  lemma RookMovesMasked(blockers: Bitboard, s: Sq)
    ensures RookMoves(blockers & RookMaskOf(s), s) == RookMoves(blockers, s)
  {
    forall u: Sq | RookInner(SqRank(s), SqFile(s), u)
      ensures Has(blockers & RookMaskOf(s), u) <==> Has(blockers, u)
    {
      MaskKeepsInner(blockers, s, u);
    }
    RookMovesAgree(blockers & RookMaskOf(s), blockers, s);
  }
}
