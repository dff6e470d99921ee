/**
 * The bishop tables of bitboard_generators/bishop.go: the blocker mask of
 * each square (`generateBishopMasks`), the squares that may hold a blocker
 * (`choices` in `fillBishopMovesSquare`) and the moves of a bishop for a
 * given set of blockers (its four diagonal ray loops).
 */
module BishopTable {
  import opened Bitboards
  import opened TableBuilding
  import opened SlidingRays
  import opened BlockerSubsets
  import opened Outcomes

  // ---------------------------------------------------------------------------
  // Masks

  /** The diagonal A1-H8. */
  const MainDiagonal: Bitboard := 0x8040_2010_0804_0201

  /** The anti-diagonal H1-A8. */
  const MainAntiDiagonal: Bitboard := 0x0102_0408_1020_4080

  /** The squares off the rim of the board. */
  const Inner: Bitboard := !(((Rank1 | ShiftLeft(Rank1, 56)) | FileA) | ShiftLeft(FileA, 7))

  /** The diagonal through rank `r`, file `f`, as `generateBishopMasks` shifts it. */
  function Diagonal(r: bv8, f: bv8): Bitboard
    requires r < 8 && f < 8
  {
    if f <= r then ShiftLeft(MainDiagonal, (r - f) * 8) else ShiftRight(MainDiagonal, (f - r) * 8)
  }

  /** The anti-diagonal through rank `r`, file `f`, as `generateBishopMasks` shifts it. */
  function AntiDiagonal(r: bv8, f: bv8): Bitboard
    requires r < 8 && f < 8
  {
    if f + r <= 7 then ShiftRight(MainAntiDiagonal, (7 - f - r) * 8) else ShiftLeft(MainAntiDiagonal, (f + r - 7) * 8)
  }

  /** The mask of the bishop on rank `r`, file `f`: its diagonals, without its square and the rim. */
  function BishopMask(r: bv8, f: bv8): Bitboard
    requires r < 8 && f < 8
  {
    ((Diagonal(r, f) | AntiDiagonal(r, f)) & !SquareBit(At(r, f))) & Inner
  }

  /** The mask of a bishop on `s`. */
  function BishopMaskOf(s: Sq): Bitboard
  {
    BishopMask(SqRank(s), SqFile(s))
  }

  /** `t` is off the rim of the board. */
  predicate InnerSq(t: Sq)
  {
    0 < SqRank(t) < 7 && 0 < SqFile(t) < 7
  }

  /** `t` shares a diagonal or an anti-diagonal with rank `r`, file `f`. */
  predicate OnDiagonals(r: bv8, f: bv8, t: Sq)
  {
    SqRank(t) + f == SqFile(t) + r || SqRank(t) + SqFile(t) == r + f
  }

  /**
   * The squares that can block a bishop on rank `r`, file `f`: those off
   * the rim on its diagonals, other than its own.
   */
  predicate BishopInner(r: bv8, f: bv8, t: Sq)
  {
    InnerSq(t) && OnDiagonals(r, f, t) && !(SqRank(t) == r && SqFile(t) == f)
  }

  /** The main diagonal shifted up `k` ranks. */
  lemma MainUp(k: bv8, t: Sq)
    requires k < 8
    ensures Has(ShiftLeft(MainDiagonal, k * 8), t) <==> SqRank(t) == SqFile(t) + k
  {
    if k == 0 {} else if k == 1 {} else if k == 2 {} else if k == 3 {}
    else if k == 4 {} else if k == 5 {} else if k == 6 {} else {}
  }

  /** The main diagonal shifted down `k` ranks. */
  lemma MainDown(k: bv8, t: Sq)
    requires k < 8
    ensures Has(ShiftRight(MainDiagonal, k * 8), t) <==> SqFile(t) == SqRank(t) + k
  {
    if k == 0 {} else if k == 1 {} else if k == 2 {} else if k == 3 {}
    else if k == 4 {} else if k == 5 {} else if k == 6 {} else {}
  }

  /** The anti-diagonal shifted down `k` ranks. */
  lemma AntiDown(k: bv8, t: Sq)
    requires k < 8
    ensures Has(ShiftRight(MainAntiDiagonal, k * 8), t) <==> SqRank(t) + SqFile(t) + k == 7
  {
    if k == 0 {} else if k == 1 {} else if k == 2 {} else if k == 3 {}
    else if k == 4 {} else if k == 5 {} else if k == 6 {} else {}
  }

  /** The anti-diagonal shifted up `k` ranks. */
  lemma AntiUp(k: bv8, t: Sq)
    requires k < 8
    ensures Has(ShiftLeft(MainAntiDiagonal, k * 8), t) <==> SqRank(t) + SqFile(t) == 7 + k
  {
    if k == 0 {} else if k == 1 {} else if k == 2 {} else if k == 3 {}
    else if k == 4 {} else if k == 5 {} else if k == 6 {} else {}
  }

  /** Small coordinates: `a - b == r - f` written without subtraction. */
  lemma SameDifference(a: bv8, b: bv8, r: bv8, f: bv8)
    requires a < 8 && b < 8 && r < 8 && f < 8
    ensures f <= r ==> (a == b + (r - f) <==> a + f == b + r)
    ensures r < f ==> (b == a + (f - r) <==> a + f == b + r)
  {
  }

  /** Small coordinates: `a + b == r + f` reached from either side of 7. */
  lemma SameSum(a: bv8, b: bv8, r: bv8, f: bv8)
    requires a < 8 && b < 8 && r < 8 && f < 8
    ensures f + r <= 7 ==> (a + b + (7 - f - r) == 7 <==> a + b == r + f)
    ensures 7 < f + r ==> (a + b == 7 + (f + r - 7) <==> a + b == r + f)
  {
  }

  lemma DiagonalUpHas(r: bv8, f: bv8, t: Sq)
    requires f <= r < 8
    ensures Has(ShiftLeft(MainDiagonal, (r - f) * 8), t) <==> SqRank(t) + f == SqFile(t) + r
  {
    SameDifference(SqRank(t), SqFile(t), r, f);
    MainUp(r - f, t);
  }

  lemma DiagonalDownHas(r: bv8, f: bv8, t: Sq)
    requires r < f < 8
    ensures Has(ShiftRight(MainDiagonal, (f - r) * 8), t) <==> SqRank(t) + f == SqFile(t) + r
  {
    SameDifference(SqRank(t), SqFile(t), r, f);
    MainDown(f - r, t);
  }

  lemma DiagonalHas(r: bv8, f: bv8, t: Sq)
    requires r < 8 && f < 8
    ensures Has(Diagonal(r, f), t) <==> SqRank(t) + f == SqFile(t) + r
  {
    if f <= r {
      DiagonalUpHas(r, f, t);
    } else {
      DiagonalDownHas(r, f, t);
    }
  }

  lemma AntiDiagonalHas(r: bv8, f: bv8, t: Sq)
    requires r < 8 && f < 8
    ensures Has(AntiDiagonal(r, f), t) <==> SqRank(t) + SqFile(t) == r + f
  {
    SameSum(SqRank(t), SqFile(t), r, f);
    if f + r <= 7 {
      AntiDown(7 - f - r, t);
    } else {
      AntiUp(f + r - 7, t);
    }
  }

  lemma InnerHas(t: Sq)
    ensures Has(Inner, t) <==> InnerSq(t)
  {
    RankHas(0, t);
    RankHas(7, t);
    FileHas(0, t);
    FileHas(7, t);
    OrHas(Rank1, ShiftLeft(Rank1, 56), t);
    OrHas(Rank1 | ShiftLeft(Rank1, 56), FileA, t);
    OrHas((Rank1 | ShiftLeft(Rank1, 56)) | FileA, ShiftLeft(FileA, 7), t);
    NotHas(((Rank1 | ShiftLeft(Rank1, 56)) | FileA) | ShiftLeft(FileA, 7), t);
  }

  /** Keeping two sets of squares and removing one. */
  lemma UnionWithout(a: Bitboard, b: Bitboard, c: Bitboard, m: Bitboard, t: Sq)
    ensures Has(((a | b) & !c) & m, t) <==> (Has(a, t) || Has(b, t)) && !Has(c, t) && Has(m, t)
  {
    var x := a | b;
    var y := x & !c;
    OrHas(a, b, t);
    AndNotHas(x, c, t);
    AndHas(y, m, t);
  }

  lemma BishopMaskBits(onDiagonal: bool, onAnti: bool, isSquare: bool, inner: bool, r: bv8, f: bv8, t: Sq)
    requires onDiagonal <==> SqRank(t) + f == SqFile(t) + r
    requires onAnti <==> SqRank(t) + SqFile(t) == r + f
    requires isSquare <==> SqRank(t) == r && SqFile(t) == f
    requires inner <==> InnerSq(t)
    ensures ((onDiagonal || onAnti) && !isSquare && inner) <==> BishopInner(r, f, t)
  {
  }

  /** A bishop mask holds exactly the squares that can block the bishop. */
  lemma BishopMaskHas(r: bv8, f: bv8, t: Sq)
    requires r < 8 && f < 8
    ensures Has(BishopMask(r, f), t) <==> BishopInner(r, f, t)
  {
    var diagonal, anti, square := Diagonal(r, f), AntiDiagonal(r, f), SquareBit(At(r, f));
    DiagonalHas(r, f, t);
    AntiDiagonalHas(r, f, t);
    InnerHas(t);
    IsAt(r, f, t);
    UnionWithout(diagonal, anti, square, Inner, t);
    BishopMaskBits(Has(diagonal, t), Has(anti, t), Has(square, t), Has(Inner, t), r, f, t);
  }

  /** The square on rank `r`, file `f` is the only one with those coordinates. */
  lemma IsAt(r: bv8, f: bv8, t: Sq)
    requires r < 8 && f < 8
    ensures Has(SquareBit(At(r, f)), t) <==> SqRank(t) == r && SqFile(t) == f
  {
    SquareBitHas(At(r, f), t);
    if SqRank(t) == r && SqFile(t) == f {
      SameCoordinates(t, At(r, f));
    }
  }

  /** The loop body of `generateBishopMasks` for rank `r`, file `f`. */
  method BishopMaskEntry(r: bv8, f: bv8) returns (bb: Bitboard)
    requires r < 8 && f < 8
    ensures bb == BishopMask(r, f)
  {
    bb := 0;
    var diagonal := DiagonalEntry(r, f);
    bb := bb | diagonal;
    var antiDiagonal := AntiDiagonalEntry(r, f);
    bb := bb | antiDiagonal;
    var squareBit := SquareBit(At(r, f));
    bb := bb & !squareBit;
    bb := bb & Inner;
    MaskSteps(r, f, diagonal, antiDiagonal, squareBit, bb);
  }

  /** The diagonal as the loop body picks its shift. */
  method DiagonalEntry(r: bv8, f: bv8) returns (diagonal: Bitboard)
    requires r < 8 && f < 8
    ensures diagonal == Diagonal(r, f)
  {
    if f <= r {
      diagonal := ShiftLeft(MainDiagonal, (r - f) * 8);
    } else {
      diagonal := ShiftRight(MainDiagonal, (f - r) * 8);
    }
  }

  /** The anti-diagonal as the loop body picks its shift. */
  method AntiDiagonalEntry(r: bv8, f: bv8) returns (antiDiagonal: Bitboard)
    requires r < 8 && f < 8
    ensures antiDiagonal == AntiDiagonal(r, f)
  {
    if f + r <= 7 {
      antiDiagonal := ShiftRight(MainAntiDiagonal, (7 - f - r) * 8);
    } else {
      antiDiagonal := ShiftLeft(MainAntiDiagonal, (f + r - 7) * 8);
    }
  }

  /** The steps of the loop body, starting from an empty word, give the mask's formula. */
  lemma MaskSteps(r: bv8, f: bv8, diagonal: Bitboard, antiDiagonal: Bitboard, squareBit: Bitboard, bb: Bitboard)
    requires r < 8 && f < 8
    requires diagonal == Diagonal(r, f) && antiDiagonal == AntiDiagonal(r, f) && squareBit == SquareBit(At(r, f))
    requires bb == (((0 | diagonal) | antiDiagonal) & !squareBit) & Inner
    ensures bb == BishopMask(r, f)
  {
    assert 0 | diagonal == diagonal;
  }

  /** `generateBishopMasks`: the mask of the square on rank `r`, file `f` stored at `f + r * 8`. */
  method GenerateBishopMasks() returns (masks: array<Bitboard>)
    ensures fresh(masks) && masks.Length == 64
    ensures forall s: Sq :: masks[s] == BishopMaskOf(s)
  {
    masks := new Bitboard[64](_ => 0);
    var r: bv8 := 0;
    while r < 8
      invariant r <= 8
      invariant PassedWith(masks[..], BishopMaskOf, r, 0)
    {
      var f: bv8 := 0;
      while f < 8
        invariant f <= 8
        invariant PassedWith(masks[..], BishopMaskOf, r, f)
      {
        var bb := BishopMaskEntry(r, f);
        PassStep(masks[..], BishopMaskOf, r, f);
        masks[At(r, f)] := bb;
        f := f + 1;
      }
      PassNextRank(masks[..], BishopMaskOf, r);
      r := r + 1;
    }
    PassDone(masks[..], BishopMaskOf);
  }

  // ---------------------------------------------------------------------------
  // The four diagonal directions

  /** The ray loops of `fillBishopMovesSquare`, in their order. */
  const BishopDirections: seq<Direction> := [LeftUp, LeftDown, RightDown, RightUp]

  lemma TowardLeftUp(s: Sq, t: Sq)
    ensures Toward(LeftUp, s, t) <==> SqFile(t) < SqFile(s) && SqRank(t) + SqFile(t) == SqRank(s) + SqFile(s)
  {
  }

  lemma TowardLeftDown(s: Sq, t: Sq)
    ensures Toward(LeftDown, s, t) <==> SqFile(t) < SqFile(s) && SqRank(t) + SqFile(s) == SqFile(t) + SqRank(s)
  {
  }

  lemma TowardRightDown(s: Sq, t: Sq)
    ensures Toward(RightDown, s, t) <==> SqFile(s) < SqFile(t) && SqRank(t) + SqFile(t) == SqRank(s) + SqFile(s)
  {
  }

  lemma TowardRightUp(s: Sq, t: Sq)
    ensures Toward(RightUp, s, t) <==> SqFile(s) < SqFile(t) && SqRank(t) + SqFile(s) == SqFile(t) + SqRank(s)
  {
  }

  /** Some diagonal direction leads from `s` to `t`. */
  predicate DiagonallyToward(s: Sq, t: Sq)
  {
    Toward(LeftUp, s, t) || Toward(LeftDown, s, t) || Toward(RightDown, s, t) || Toward(RightUp, s, t)
  }

  /** A square on a diagonal through the same file is the square itself. */
  lemma SameFileOnDiagonals(s: Sq, t: Sq)
    requires OnDiagonals(SqRank(s), SqFile(s), t) && SqFile(t) == SqFile(s)
    ensures t == s
  {
    SameCoordinates(s, t);
  }

  lemma OnMainToward(s: Sq, t: Sq)
    requires SqRank(t) + SqFile(s) == SqFile(t) + SqRank(s) && t != s
    ensures Toward(LeftDown, s, t) || Toward(RightUp, s, t)
  {
    TowardLeftDown(s, t);
    TowardRightUp(s, t);
    if SqFile(t) == SqFile(s) {
      SameFileOnDiagonals(s, t);
    }
  }

  lemma OnAntiToward(s: Sq, t: Sq)
    requires SqRank(t) + SqFile(t) == SqRank(s) + SqFile(s) && t != s
    ensures Toward(LeftUp, s, t) || Toward(RightDown, s, t)
  {
    TowardLeftUp(s, t);
    TowardRightDown(s, t);
    if SqFile(t) == SqFile(s) {
      SameFileOnDiagonals(s, t);
    }
  }

  lemma TowardOnDiagonals(s: Sq, t: Sq)
    requires DiagonallyToward(s, t)
    ensures OnDiagonals(SqRank(s), SqFile(s), t) && t != s
  {
    TowardLeftUp(s, t);
    TowardLeftDown(s, t);
    TowardRightDown(s, t);
    TowardRightUp(s, t);
  }

  /** The other squares on the bishop's diagonals are exactly those a diagonal direction leads to. */
  lemma DiagonalsToward(s: Sq, t: Sq)
    ensures OnDiagonals(SqRank(s), SqFile(s), t) && t != s <==> DiagonallyToward(s, t)
  {
    if DiagonallyToward(s, t) {
      TowardOnDiagonals(s, t);
    } else if t != s {
      if SqRank(t) + SqFile(s) == SqFile(t) + SqRank(s) {
        OnMainToward(s, t);
      } else if SqRank(t) + SqFile(t) == SqRank(s) + SqFile(s) {
        OnAntiToward(s, t);
      }
    }
  }

  /** Two different diagonal directions never lead to the same square. */
  lemma TowardOneWay(d1: Direction, d2: Direction, s: Sq, t: Sq)
    requires d1 != d2
    requires d1.file != Stay && d1.rank != Stay && d2.file != Stay && d2.rank != Stay
    ensures !(Toward(d1, s, t) && Toward(d2, s, t))
  {
  }

  // ---------------------------------------------------------------------------
  // Choices

  /** The squares off the rim that a walk from `s` towards `d` meets before it first reaches the rim. */
  function InnerRun(s: Sq, d: Direction): seq<Sq>
    decreases Room(s, d)
  {
    match Step(s, d)
    case None => []
    case Some(n) =>
      StepShrinksRoom(s, d);
      if InnerSq(n) then [n] + InnerRun(n, d) else []
  }

  /** What is left of such a walk once `next` is the square about to be listed. */
  function RunFrom(next: Option<Sq>, d: Direction): seq<Sq>
  {
    match next
    case None => []
    case Some(n) => if InnerSq(n) then [n] + InnerRun(n, d) else []
  }

  /** A coordinate that has reached the rim does not come back inside along the same motion. */
  lemma RimStays(m: Motion, x: bv8, y: bv8, z: bv8)
    requires x < 8 && y < 8 && z < 8
    requires Beyond(m, x, y) && Beyond(m, y, z) && !(0 < y < 7)
    ensures !(0 < z < 7)
  {
  }

  /** Past a square on the rim, a line stays on the rim. */
  lemma RimSquareStays(s: Sq, d: Direction, n: Sq, t: Sq)
    requires Toward(d, s, n) && Toward(d, n, t) && !InnerSq(n)
    ensures !InnerSq(t)
  {
    if !(0 < SqRank(n) < 7) {
      RimStays(d.rank, SqRank(s), SqRank(n), SqRank(t));
    } else {
      RimStays(d.file, SqFile(s), SqFile(n), SqFile(t));
    }
  }

  /** The walk lists exactly the squares off the rim towards `d`. */
  lemma {:induction false} InnerRunHas(s: Sq, d: Direction, t: Sq)
    ensures t in InnerRun(s, d) <==> Toward(d, s, t) && InnerSq(t)
    decreases Room(s, d)
  {
    match Step(s, d)
    case None =>
      if Toward(d, s, t) {
        TowardPastStep(s, d, t);
      }
    case Some(n) =>
      StepShrinksRoom(s, d);
      StepToward(s, d);
      if Toward(d, s, t) {
        TowardPastStep(s, d, t);
      }
      if Toward(d, n, t) {
        TowardThroughStep(s, d, t);
      }
      if InnerSq(n) {
        InnerRunHas(n, d, t);
      } else if Toward(d, n, t) {
        RimSquareStays(s, d, n, t);
      }
  }

  /** The walk lists no square twice. */
  lemma {:induction false} InnerRunDistinct(s: Sq, d: Direction)
    ensures Distinct(InnerRun(s, d))
    decreases Room(s, d)
  {
    match Step(s, d)
    case None =>
    case Some(n) =>
      StepShrinksRoom(s, d);
      if InnerSq(n) {
        InnerRunDistinct(n, d);
        InnerRunHas(n, d, n);
        TowardIrreflexive(d, n);
        DistinctCons(n, InnerRun(n, d));
      }
  }

  lemma DistinctCons(x: Sq, xs: seq<Sq>)
    requires Distinct(xs) && x !in xs
    ensures Distinct([x] + xs)
  {
  }

  /** Two lists with nothing in common, one after the other. */
  lemma DistinctAppend(a: seq<Sq>, b: seq<Sq>)
    requires Distinct(a) && Distinct(b)
    requires forall t :: t in a ==> t !in b
    ensures Distinct(a + b)
  {
    forall i, j | 0 <= i < j < |a + b|
      ensures (a + b)[i] != (a + b)[j]
    {
      if i < |a| && |a| <= j {
        assert (a + b)[i] in a && (a + b)[j] in b;
      }
    }
  }

  /** One loop of `choices`: walk from `s` towards `d`, listing the squares off the rim. */
  method ListInner(cs: seq<Sq>, s: Sq, d: Direction) returns (r: seq<Sq>)
    ensures r == cs + InnerRun(s, d)
  {
    r := cs;
    var next := Step(s, d);
    while next.Some? && InnerSq(next.value)
      invariant r + RunFrom(next, d) == cs + InnerRun(s, d)
      decreases Remaining(next, d)
    {
      var sq := next.value;
      assert r + ([sq] + InnerRun(sq, d)) == (r + [sq]) + InnerRun(sq, d);
      r := r + [sq];
      VisitShrinks(sq, d);
      next := Step(sq, d);
    }
  }

  /** The `choices` of a bishop on `s`, in the order of the generator's loops. */
  function BishopChoiceList(s: Sq): seq<Sq>
  {
    InnerRun(s, LeftUp) + InnerRun(s, LeftDown) + InnerRun(s, RightUp) + InnerRun(s, RightDown)
  }

  /**
   * `choices` of `fillBishopMovesSquare`: the squares off the rim towards
   * left-up, left-down, right-up and right-down in turn.
   */
  method BishopChoices(rank: bv8, file: bv8) returns (cs: seq<Sq>)
    requires rank < 8 && file < 8
    ensures cs == BishopChoiceList(At(rank, file))
  {
    var s := At(rank, file);
    cs := [];
    cs := ListInner(cs, s, LeftUp);
    cs := ListInner(cs, s, LeftDown);
    cs := ListInner(cs, s, RightUp);
    cs := ListInner(cs, s, RightDown);
  }

  lemma InRunsOf(s: Sq, t: Sq)
    ensures t in BishopChoiceList(s) <==>
      t in InnerRun(s, LeftUp) || t in InnerRun(s, LeftDown) || t in InnerRun(s, RightUp) || t in InnerRun(s, RightDown)
  {
  }

  /** The choices are exactly the squares that can block the bishop. */
  lemma BishopChoiceListHas(s: Sq, t: Sq)
    ensures t in BishopChoiceList(s) <==> BishopInner(SqRank(s), SqFile(s), t)
  {
    InRunsOf(s, t);
    InnerRunHas(s, LeftUp, t);
    InnerRunHas(s, LeftDown, t);
    InnerRunHas(s, RightUp, t);
    InnerRunHas(s, RightDown, t);
    DiagonalsToward(s, t);
    if SqRank(t) == SqRank(s) && SqFile(t) == SqFile(s) {
      SameCoordinates(s, t);
    }
  }

  /** Squares of two different diagonal walks differ. */
  lemma RunsApart(s: Sq, d1: Direction, d2: Direction, t: Sq)
    requires d1 != d2 && d1.file != Stay && d1.rank != Stay && d2.file != Stay && d2.rank != Stay
    ensures !(t in InnerRun(s, d1) && t in InnerRun(s, d2))
  {
    InnerRunHas(s, d1, t);
    InnerRunHas(s, d2, t);
    TowardOneWay(d1, d2, s, t);
  }

  /** No square is listed twice among the choices. */
  lemma BishopChoiceListDistinct(s: Sq)
    ensures Distinct(BishopChoiceList(s))
  {
    var a, b, c, d := InnerRun(s, LeftUp), InnerRun(s, LeftDown), InnerRun(s, RightUp), InnerRun(s, RightDown);
    InnerRunDistinct(s, LeftUp);
    InnerRunDistinct(s, LeftDown);
    InnerRunDistinct(s, RightUp);
    InnerRunDistinct(s, RightDown);
    forall t ensures t in a ==> t !in b {
      RunsApart(s, LeftUp, LeftDown, t);
    }
    DistinctAppend(a, b);
    forall t ensures t in a + b ==> t !in c {
      RunsApart(s, LeftUp, RightUp, t);
      RunsApart(s, LeftDown, RightUp, t);
    }
    DistinctAppend(a + b, c);
    forall t ensures t in a + b + c ==> t !in d {
      RunsApart(s, LeftUp, RightDown, t);
      RunsApart(s, LeftDown, RightDown, t);
      RunsApart(s, RightUp, RightDown, t);
    }
    DistinctAppend(a + b + c, d);
  }

  // ---------------------------------------------------------------------------
  // Moves

  /** The squares a bishop on `s` reaches when `blockers` are occupied. */
  function BishopMoves(blockers: Bitboard, s: Sq): Bitboard
  {
    Slide(blockers, s, BishopDirections)
  }

  /** The four ray loops of `fillBishopMovesSquare` for a bishop on rank `rank`, file `file`. */
  method ScanBishopMoves(blockers: Bitboard, rank: bv8, file: bv8) returns (moves: Bitboard)
    requires rank < 8 && file < 8
    ensures moves == BishopMoves(blockers, At(rank, file))
  {
    moves := ScanFour(blockers, At(rank, file), LeftUp, LeftDown, RightDown, RightUp);
  }

  /** A bishop reaches `t` exactly when `t` lies on one of its four diagonal rays with nothing in between. */
  lemma BishopMovesHas(blockers: Bitboard, s: Sq, t: Sq)
    ensures Has(BishopMoves(blockers, s), t) <==>
      exists d :: d in BishopDirections && Toward(d, s, t) && Clear(blockers, d, s, t)
  {
    SlideHas(blockers, s, BishopDirections, t);
    forall d | d in BishopDirections
      ensures Has(Ray(blockers, s, d), t) <==> Toward(d, s, t) && Clear(blockers, d, s, t)
    {
      RayHas(blockers, s, d, t);
    }
  }

  /** Every bishop move leaves the square along one of its diagonals. */
  lemma BishopMovesDiagonal(blockers: Bitboard, s: Sq, t: Sq)
    requires Has(BishopMoves(blockers, s), t)
    ensures t != s && OnDiagonals(SqRank(s), SqFile(s), t)
  {
    BishopMovesHas(blockers, s, t);
    var d :| d in BishopDirections && Toward(d, s, t) && Clear(blockers, d, s, t);
    TowardOnDiagonals(s, t);
  }

  /** A bishop always has a move, whatever the blockers. */
  lemma BishopMovesNonEmpty(blockers: Bitboard, s: Sq)
    ensures BishopMoves(blockers, s) != 0
  {
    var d := if SqRank(s) < 7 then (if SqFile(s) > 0 then LeftUp else RightUp)
      else (if SqFile(s) > 0 then LeftDown else RightDown);
    SlideNonEmpty(blockers, s, BishopDirections, d);
  }

  /** A square a diagonal passes on its way to a further square lies in the bishop's mask. */
  lemma BishopLineInner(s: Sq, d: Direction, u: Sq)
    requires d in BishopDirections
    requires Toward(d, s, u) && Step(u, d).Some?
    ensures BishopInner(SqRank(s), SqFile(s), u)
  {
    InnerOfLine(d.rank, SqRank(s), SqRank(u));
    InnerOfLine(d.file, SqFile(s), SqFile(u));
    TowardOnDiagonals(s, u);
  }

  /** Blocker sets that agree on the squares that can block a bishop give it the same moves. */
  lemma BishopMovesAgree(b1: Bitboard, b2: Bitboard, s: Sq)
    requires forall u: Sq :: BishopInner(SqRank(s), SqFile(s), u) ==> (Has(b1, u) <==> Has(b2, u))
    ensures BishopMoves(b1, s) == BishopMoves(b2, s)
  {
    forall d, u: Sq | d in BishopDirections && Toward(d, s, u) && Step(u, d).Some?
      ensures Has(b1, u) <==> Has(b2, u)
    {
      BishopLineInner(s, d, u);
    }
    SlideAgrees(b1, b2, s, BishopDirections);
  }

  /** Cutting the blockers down to the mask keeps those that can block. */
  lemma MaskKeepsInner(blockers: Bitboard, s: Sq, u: Sq)
    requires BishopInner(SqRank(s), SqFile(s), u)
    ensures Has(blockers & BishopMaskOf(s), u) <==> Has(blockers, u)
  {
    BishopMaskHas(SqRank(s), SqFile(s), u);
    AndHas(blockers, BishopMaskOf(s), u);
  }

  /** Only the blockers inside the mask matter to a bishop's moves. */
  lemma BishopMovesMasked(blockers: Bitboard, s: Sq)
    ensures BishopMoves(blockers & BishopMaskOf(s), s) == BishopMoves(blockers, s)
  {
    forall u: Sq | BishopInner(SqRank(s), SqFile(s), u)
      ensures Has(blockers & BishopMaskOf(s), u) <==> Has(blockers, u)
    {
      MaskKeepsInner(blockers, s, u);
    }
    BishopMovesAgree(blockers & BishopMaskOf(s), blockers, s);
  }
}
