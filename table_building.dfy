/**
 * Helpers shared by the table generators (bitboard_generators/): a square's
 * rank and file, a bitboard grown one guarded square at a time, and the
 * pop count of such a bitboard.
 */
module TableBuilding {
  import opened Bitboards

  /** The rank of a square, 0 for rank 1. */
  function SqRank(s: Sq): (r: bv8)
    ensures r < 8
  {
    s / 8
  }

  /** The file of a square, 0 for file A. */
  function SqFile(s: Sq): (f: bv8)
    ensures f < 8
  {
    s % 8
  }

  /** The square on rank `r` and file `f`. */
  function At(r: bv8, f: bv8): (s: Sq)
    requires r < 8 && f < 8
    ensures SqRank(s) == r && SqFile(s) == f
  {
    f + r * 8
  }

  /** A square is determined by its rank and file. */
  lemma AtOfCoordinates(s: Sq)
    ensures At(SqRank(s), SqFile(s)) == s
  {
    assert s == SqFile(s) + SqRank(s) * 8;
  }

  /** `a` and `b` differ by at most one. */
  predicate Adjacent(a: bv8, b: bv8)
  {
    a == b || a == b + 1 || b == a + 1
  }

  /** `b |= square` under the guard `c`. The square `t` is computed whether
      or not the guard holds, so it only has to be a square when it does. */
  function AddIf(b: Bitboard, c: bool, t: bv8): Bitboard
    requires c ==> t < 64
  {
    if c then b | SquareBit(t) else b
  }

  lemma AddIfHas(b: Bitboard, c: bool, t: bv8, u: Sq)
    requires c ==> t < 64
    ensures Has(AddIf(b, c, t), u) <==> Has(b, u) || (c && u == t)
  {
    if c {
      OrHas(b, SquareBit(t), u);
      SquareBitHas(t, u);
    }
  }

  /** Adding a guarded square on top of `b` is `b` or-ed with the square alone. */
  lemma AddIfOver(b: Bitboard, c: bool, t: bv8)
    requires c ==> t < 64
    ensures AddIf(b, c, t) == b | AddIf(0, c, t)
  {
  }

  lemma AddIfCount(b: Bitboard, c: bool, t: bv8)
    requires c ==> t < 64 && !Has(b, t)
    ensures PopCount(AddIf(b, c, t)) == PopCount(b) + (if c then 1 else 0)
  {
    if c {
      AddSquareCount(b, t);
    }
  }

  /** Four guarded squares added in order on top of `b`. */
  function Add4(b: Bitboard, c1: bool, t1: bv8, c2: bool, t2: bv8, c3: bool, t3: bv8, c4: bool, t4: bv8): Bitboard
    requires c1 ==> t1 < 64
    requires c2 ==> t2 < 64
    requires c3 ==> t3 < 64
    requires c4 ==> t4 < 64
  {
    AddIf(AddIf(AddIf(AddIf(b, c1, t1), c2, t2), c3, t3), c4, t4)
  }

  lemma Add4Has(b: Bitboard, c1: bool, t1: bv8, c2: bool, t2: bv8, c3: bool, t3: bv8, c4: bool, t4: bv8, u: Sq)
    requires c1 ==> t1 < 64
    requires c2 ==> t2 < 64
    requires c3 ==> t3 < 64
    requires c4 ==> t4 < 64
    ensures Has(Add4(b, c1, t1, c2, t2, c3, t3, c4, t4), u)
            <==> Has(b, u) || (c1 && u == t1) || (c2 && u == t2) || (c3 && u == t3) || (c4 && u == t4)
  {
    var b1 := AddIf(b, c1, t1);
    var b2 := AddIf(b1, c2, t2);
    var b3 := AddIf(b2, c3, t3);
    AddIfHas(b, c1, t1, u);
    AddIfHas(b1, c2, t2, u);
    AddIfHas(b2, c3, t3, u);
    AddIfHas(b3, c4, t4, u);
  }

  function Ind(c: bool): nat
  {
    if c then 1 else 0
  }

  /** Four distinct guarded squares, none of them already in `b`: each one
      whose guard holds adds one to the pop count. */
  lemma Add4Count(b: Bitboard, c1: bool, t1: bv8, c2: bool, t2: bv8, c3: bool, t3: bv8, c4: bool, t4: bv8)
    requires c1 ==> t1 < 64 && !Has(b, t1)
    requires c2 ==> t2 < 64 && !Has(b, t2)
    requires c3 ==> t3 < 64 && !Has(b, t3)
    requires c4 ==> t4 < 64 && !Has(b, t4)
    requires c2 && c1 ==> t2 != t1
    requires c3 && c1 ==> t3 != t1
    requires c3 && c2 ==> t3 != t2
    requires c4 && c1 ==> t4 != t1
    requires c4 && c2 ==> t4 != t2
    requires c4 && c3 ==> t4 != t3
    ensures PopCount(Add4(b, c1, t1, c2, t2, c3, t3, c4, t4)) == PopCount(b) + Ind(c1) + Ind(c2) + Ind(c3) + Ind(c4)
  {
    var b1 := AddIf(b, c1, t1);
    var b2 := AddIf(b1, c2, t2);
    var b3 := AddIf(b2, c3, t3);
    AddIfCount(b, c1, t1);
    if c2 {
      AddIfHas(b, c1, t1, t2);
    }
    AddIfCount(b1, c2, t2);
    if c3 {
      AddIfHas(b, c1, t1, t3);
      AddIfHas(b1, c2, t2, t3);
    }
    AddIfCount(b2, c3, t3);
    if c4 {
      AddIfHas(b, c1, t1, t4);
      AddIfHas(b1, c2, t2, t4);
      AddIfHas(b2, c3, t3, t4);
    }
    AddIfCount(b3, c4, t4);
  }

  lemma AddSquareHas(b: Bitboard, t: Sq, s: Sq)
    ensures Has(b | SquareBit(t), s) <==> Has(b, s) || s == t
  {
    OrHas(b, SquareBit(t), s);
    SquareBitHas(t, s);
  }

  /** Adding a square that is not there yet raises the pop count by one. */
  lemma AddSquareCount(b: Bitboard, t: Sq)
    requires !Has(b, t)
    ensures PopCount(b | SquareBit(t)) == PopCount(b) + 1
  {
    var p, q := SquaresOf(b), SquaresOf(b | SquareBit(t));
    forall s: Sq ensures q(s) <==> p(s) || s == t {
      AddSquareHas(b, t, s);
    }
    CountWithout(p, q, t, 64);
  }

  lemma {:induction false} CountDisjointUnion(p: Sq -> bool, q: Sq -> bool, u: Sq -> bool, n: bv8)
    requires n <= 64
    requires forall s: Sq :: u(s) == (p(s) || q(s))
    requires forall s: Sq :: !(p(s) && q(s))
    ensures Count(u, n) == Count(p, n) + Count(q, n)
    decreases n
  {
    if n > 0 {
      CountDisjointUnion(p, q, u, n - 1);
    }
  }

  /** Two bitboards with no square in common: the union counts both. */
  lemma DisjointPopCount(a: Bitboard, b: Bitboard)
    requires forall s: Sq :: !(Has(a, s) && Has(b, s))
    ensures PopCount(a | b) == PopCount(a) + PopCount(b)
  {
    var p, q, u := SquaresOf(a), SquaresOf(b), SquaresOf(a | b);
    forall s: Sq ensures u(s) == (p(s) || q(s)) {
      OrHas(a, b, s);
    }
    CountDisjointUnion(p, q, u, 64);
  }

  lemma EmptyPopCount()
    ensures PopCount(0) == 0
  {
    forall s: Sq
      ensures !SquaresOf(0)(s)
    {
      EmptyHasNothing(s);
    }
    CountBelowK(SquaresOf(0), 0, 64);
  }

  // ---------------------------------------------------------------------------
  // Go's shifts of a uint64, and the constant masks the generators shift

  /** Every square of the A file. */
  const FileA: Bitboard := 0x0101_0101_0101_0101

  /** Go's `x << n` on a `uint64`. */
  function ShiftLeft(x: Bitboard, n: bv8): Bitboard
  {
    if n < 64 then x << n else 0
  }

  /** Go's `x >> n` on a `uint64`. */
  function ShiftRight(x: Bitboard, n: bv8): Bitboard
  {
    if n < 64 then x >> n else 0
  }

  /** Shifting the A file by `f < 8` gives file `f`. */
  lemma FileHas(f: bv8, t: Sq)
    requires f < 8
    ensures Has(ShiftLeft(FileA, f), t) <==> SqFile(t) == f
  {
    if f == 0 {} else if f == 1 {} else if f == 2 {} else if f == 3 {}
    else if f == 4 {} else if f == 5 {} else if f == 6 {} else {}
  }

  lemma ShiftLeftByte(x: Bitboard, n: bv8)
    requires n < 56
    ensures x << (n + 8) == (x << n) << 8
  {
  }

  lemma ShiftRightByte(x: Bitboard, n: bv8)
    requires n < 56
    ensures x >> (n + 8) == (x >> n) >> 8
  {
  }

  lemma HasUpByte(y: Bitboard, t: Sq)
    ensures Has(y << 8, t) <==> 8 <= t && Has(y, t - 8)
  {
  }

  lemma HasDownByte(y: Bitboard, t: Sq)
    ensures Has(y >> 8, t) <==> t < 56 && Has(y, t + 8)
  {
  }

  /** Shifting one more rank up moves every square up a rank. */
  lemma UpStep(x: Bitboard, n: bv8, t: Sq)
    requires n < 56
    ensures Has(ShiftLeft(x, n + 8), t) <==> 8 <= t && Has(ShiftLeft(x, n), t - 8)
  {
    ShiftLeftByte(x, n);
    HasUpByte(x << n, t);
  }

  /** Shifting one more rank down moves every square down a rank. */
  lemma DownStep(x: Bitboard, n: bv8, t: Sq)
    requires n < 56
    ensures Has(ShiftRight(x, n + 8), t) <==> t < 56 && Has(ShiftRight(x, n), t + 8)
  {
    ShiftRightByte(x, n);
    HasDownByte(x >> n, t);
  }

  /** The square a rank below `t` is on the same file. */
  lemma RankBelow(t: Sq)
    requires 8 <= t
    ensures SqFile(t - 8) == SqFile(t) && SqRank(t - 8) + 1 == SqRank(t)
  {
  }

  /** The square a rank above `t` is on the same file. */
  lemma RankAbove(t: Sq)
    requires t < 56
    ensures SqFile(t + 8) == SqFile(t) && SqRank(t + 8) == SqRank(t) + 1
  {
  }

  /** Go's `b |= x` under the guard `c`. As with the generator, `x` is only
      meaningful when `c` holds (`f - 1` wraps round when `f` is 0). */
  function OrIf(b: Bitboard, c: bool, x: Bitboard): Bitboard
  {
    if c then b | x else b
  }

  lemma OrIfHas(b: Bitboard, c: bool, x: Bitboard, t: Sq)
    ensures Has(OrIf(b, c, x), t) <==> Has(b, t) || (c && Has(x, t))
  {
    if c {
      OrHas(b, x, t);
    }
  }

  /** Every square of the first rank. */
  const Rank1: Bitboard := 0xFF

  /** Shifting the first rank by `8 * r` for `r < 8` gives rank `r`. */
  lemma RankHas(r: bv8, t: Sq)
    requires r < 8
    ensures Has(ShiftLeft(Rank1, 8 * r), t) <==> SqRank(t) == r
  {
    if r == 0 {} else if r == 1 {} else if r == 2 {} else if r == 3 {}
    else if r == 4 {} else if r == 5 {} else if r == 6 {} else {}
  }

  // ---------------------------------------------------------------------------
  // Tables filled rank by rank, file by file within a rank (the loop order
  // of the king, knight, rook and bishop generators)

  /** The loops have passed square `s` when they stand at rank `rank`, file `file`. */
  predicate Passed(rank: bv8, file: bv8, s: Sq)
  {
    SqRank(s) < rank || (SqRank(s) == rank && SqFile(s) < file)
  }

  /** Every square the loops have passed holds its `table` entry. */
  ghost predicate PassedWith(t: seq<Bitboard>, table: Sq -> Bitboard, rank: bv8, file: bv8)
    requires |t| == 64
  {
    forall s: Sq :: Passed(rank, file, s) ==> t[s] == table(s)
  }

  lemma PassedStep(rank: bv8, file: bv8, s: Sq)
    requires rank < 8 && file < 8
    ensures Passed(rank, file + 1, s) <==> Passed(rank, file, s) || s == At(rank, file)
  {
    var r, f := SqRank(s), SqFile(s);
    assert f < file + 1 <==> f < file || f == file;
    if r == rank && f == file {
      AtOfCoordinates(s);
    }
  }

  /** Writing the entry of the current square extends the passed part by that square. */
  lemma PassStep(t: seq<Bitboard>, table: Sq -> Bitboard, rank: bv8, file: bv8)
    requires |t| == 64 && rank < 8 && file < 8
    requires PassedWith(t, table, rank, file)
    ensures PassedWith(t[At(rank, file) := table(At(rank, file))], table, rank, file + 1)
  {
    forall s: Sq | Passed(rank, file + 1, s)
      ensures t[At(rank, file) := table(At(rank, file))][s] == table(s)
    {
      PassedStep(rank, file, s);
    }
  }

  lemma PassNextRank(t: seq<Bitboard>, table: Sq -> Bitboard, rank: bv8)
    requires |t| == 64 && rank < 8
    requires PassedWith(t, table, rank, 8)
    ensures PassedWith(t, table, rank + 1, 0)
  {
  }

  lemma PassDone(t: seq<Bitboard>, table: Sq -> Bitboard)
    requires |t| == 64
    requires PassedWith(t, table, 8, 0)
    ensures forall s: Sq :: t[s] == table(s)
  {
    forall s: Sq ensures t[s] == table(s) {
      assert Passed(8, 0, s);
    }
  }
}
