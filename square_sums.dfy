/**
 * Sums of per-square values over the squares of a bitboard.
 *
 * The evaluation loops walk a bitboard from its lowest square up and add one
 * value per square, so their natural result is `WalkSum` over `Targets(b)`.
 * `BoardSum` is the same quantity stated without any order: the sum over the
 * 64 squares of the value of each set square. The lemmas show the two agree,
 * and that a sum over the board does not change when the board is read
 * through the rank mirror (rank r <-> rank 7 - r).
 */
module SquareSums {
  import opened Bitboards
  import opened PieceMoves

  /** The square on the same file and the opposite rank:
      `file + (7 - rank) * 8`. */
  function Mirror(s: Sq): (m: Sq)
    ensures m % 8 == s % 8 && m / 8 == 7 - s / 8
  {
    s % 8 + (7 - s / 8) * 8
  }

  lemma MirrorInvolution(s: Sq)
    ensures Mirror(Mirror(s)) == s
  {
  }

  /** The sum of `f` along a walk. */
  function WalkSum(f: Sq -> int, sqs: seq<Sq>): int
  {
    if |sqs| == 0 then 0 else f(sqs[0]) + WalkSum(f, sqs[1..])
  }

  /** `h` summed over the squares 0 .. n-1. */
  ghost function Total(h: Sq -> int, n: bv8): int
    requires n <= 64
    decreases n
  {
    if n == 0 then 0 else Total(h, n - 1) + h(n - 1)
  }

  /** `f` on the squares of `b`, zero elsewhere. */
  ghost function Masked(f: Sq -> int, b: Bitboard): Sq -> int
  {
    (s: Sq) => if Has(b, s) then f(s) else 0
  }

  /** The sum of `f` over the squares of `b`, in no particular order. */
  ghost function BoardSum(f: Sq -> int, b: Bitboard): int
  {
    Total(Masked(f, b), 64)
  }

  lemma {:induction false} TotalSame(g: Sq -> int, h: Sq -> int, n: bv8)
    requires n <= 64
    requires forall s: Sq :: g(s) == h(s)
    ensures Total(g, n) == Total(h, n)
    decreases n
  {
    if n > 0 {
      TotalSame(g, h, n - 1);
    }
  }

  /** Changing one square's value changes the total by the difference. */
  lemma {:induction false} TotalWithout(g: Sq -> int, h: Sq -> int, k: Sq, n: bv8)
    requires n <= 64
    requires forall s: Sq :: s != k ==> g(s) == h(s)
    ensures Total(g, n) == Total(h, n) + (if k < n then g(k) - h(k) else 0)
    decreases n
  {
    if n > 0 {
      TotalWithout(g, h, k, n - 1);
    }
  }

  lemma {:induction false} TotalZero(h: Sq -> int, n: bv8)
    requires n <= 64
    requires forall s: Sq :: h(s) == 0
    ensures Total(h, n) == 0
    decreases n
  {
    if n > 0 {
      TotalZero(h, n - 1);
    }
  }

  lemma EmptyBoardSum(f: Sq -> int)
    ensures BoardSum(f, 0) == 0
  {
    forall s: Sq ensures Masked(f, 0)(s) == 0 {
      EmptyHasNothing(s);
    }
    TotalZero(Masked(f, 0), 64);
  }

  /** Clearing the lowest square removes its value from the sum. */
  lemma BoardSumStep(f: Sq -> int, b: Bitboard)
    requires b != 0
    ensures BoardSum(f, b) == f(LowestSquare(b)) + BoardSum(f, ClearLeastSignificantBit(b))
  {
    var k := LowestSquare(b);
    var c := ClearLeastSignificantBit(b);
    ClearSquare(b, k, k);
    forall s: Sq | s != k ensures Masked(f, b)(s) == Masked(f, c)(s) {
      ClearSquare(b, k, s);
    }
    TotalWithout(Masked(f, b), Masked(f, c), k, 64);
  }

  /** One step of a walk: the lowest square's value, then the rest. */
  lemma WalkSumStep(f: Sq -> int, b: Bitboard)
    requires b != 0
    ensures WalkSum(f, Targets(b)) == f(LowestSquare(b)) + WalkSum(f, Targets(ClearLeastSignificantBit(b)))
    ensures PopCount(ClearLeastSignificantBit(b)) < PopCount(b)
  {
    ClearDecrementsCount(b);
    var t := Targets(ClearLeastSignificantBit(b));
    assert Targets(b) == [LowestSquare(b)] + t;
    assert Targets(b)[1..] == t;
  }

  /** Summing along the walk of `b` is summing over the squares of `b`. */
  lemma {:induction false} WalkSumIsBoardSum(f: Sq -> int, b: Bitboard)
    ensures WalkSum(f, Targets(b)) == BoardSum(f, b)
    decreases PopCount(b)
  {
    if b == 0 {
      EmptyBoardSum(f);
    } else {
      var c := ClearLeastSignificantBit(b);
      ClearDecrementsCount(b);
      WalkSumIsBoardSum(f, c);
      WalkSumStep(f, b);
      BoardSumStep(f, b);
    }
  }

  // ---------------------------------------------------------------------------
  // Reading the board through the rank mirror

  /** The eight squares of rank `r`. */
  function RankSum(h: Sq -> int, r: bv8): int
    requires r < 8
  {
    h(8 * r) + h(8 * r + 1) + h(8 * r + 2) + h(8 * r + 3)
      + h(8 * r + 4) + h(8 * r + 5) + h(8 * r + 6) + h(8 * r + 7)
  }

  lemma TotalRank(h: Sq -> int, r: bv8)
    requires r < 8
    ensures Total(h, 8 * r + 8) == Total(h, 8 * r) + RankSum(h, r)
  {
    var n := 8 * r;
    assert Total(h, n + 8) == Total(h, n + 7) + h(n + 7);
    assert Total(h, n + 7) == Total(h, n + 6) + h(n + 6);
    assert Total(h, n + 6) == Total(h, n + 5) + h(n + 5);
    assert Total(h, n + 5) == Total(h, n + 4) + h(n + 4);
    assert Total(h, n + 4) == Total(h, n + 3) + h(n + 3);
    assert Total(h, n + 3) == Total(h, n + 2) + h(n + 2);
    assert Total(h, n + 2) == Total(h, n + 1) + h(n + 1);
    assert Total(h, n + 1) == Total(h, n) + h(n);
  }

  lemma TotalByRanks(h: Sq -> int)
    ensures Total(h, 64) == RankSum(h, 0) + RankSum(h, 1) + RankSum(h, 2) + RankSum(h, 3)
                          + RankSum(h, 4) + RankSum(h, 5) + RankSum(h, 6) + RankSum(h, 7)
  {
    TotalRank(h, 0);
    TotalRank(h, 1);
    TotalRank(h, 2);
    TotalRank(h, 3);
    TotalRank(h, 4);
    TotalRank(h, 5);
    TotalRank(h, 6);
    TotalRank(h, 7);
  }

  /** Rank `r` read through the mirror is rank `7 - r`. */
  lemma MirroredRank(h: Sq -> int, g: Sq -> int, r: bv8)
    requires r < 8
    requires forall s: Sq :: g(s) == h(Mirror(s))
    ensures RankSum(g, r) == RankSum(h, 7 - r)
  {
  }

  /** A sum over the board is unchanged by reading it through the mirror. */
  lemma TotalMirror(h: Sq -> int, g: Sq -> int)
    requires forall s: Sq :: g(s) == h(Mirror(s))
    ensures Total(g, 64) == Total(h, 64)
  {
    TotalByRanks(h);
    TotalByRanks(g);
    MirroredRank(h, g, 0);
    MirroredRank(h, g, 1);
    MirroredRank(h, g, 2);
    MirroredRank(h, g, 3);
    MirroredRank(h, g, 4);
    MirroredRank(h, g, 5);
    MirroredRank(h, g, 6);
    MirroredRank(h, g, 7);
  }

  /** `m` holds the squares of `b` reflected across the middle of the board. */
  ghost predicate MirroredBoards(b: Bitboard, m: Bitboard)
  {
    forall s: Sq :: Has(m, s) <==> Has(b, Mirror(s))
  }

  /** Summing `f` over `b` is summing `f` read through the mirror over the
      mirrored board. */
  lemma MirroredBoardSum(f: Sq -> int, g: Sq -> int, b: Bitboard, m: Bitboard)
    requires MirroredBoards(b, m)
    requires forall s: Sq :: g(s) == f(Mirror(s))
    ensures BoardSum(g, m) == BoardSum(f, b)
  {
    forall s: Sq ensures Masked(g, m)(s) == Masked(f, b)(Mirror(s)) {
    }
    TotalMirror(Masked(f, b), Masked(g, m));
  }

  // ---------------------------------------------------------------------------
  // Counting and bounds

  /** The walk sum of a 0/1 indicator counts the squares it selects. */
  lemma {:induction false} TotalIsCount(h: Sq -> int, p: Sq -> bool, n: bv8)
    requires n <= 64
    requires forall s: Sq :: h(s) == if p(s) then 1 else 0
    ensures Total(h, n) == Count(p, n)
    decreases n
  {
    if n > 0 {
      TotalIsCount(h, p, n - 1);
    }
  }

  /** Every step adds between `lo` and `hi`. */
  lemma {:induction false} WalkSumBounds(f: Sq -> int, sqs: seq<Sq>, lo: int, hi: int)
    requires forall s: Sq :: lo <= f(s) <= hi
    ensures lo * |sqs| <= WalkSum(f, sqs) <= hi * |sqs|
  {
    if |sqs| > 0 {
      WalkSumBounds(f, sqs[1..], lo, hi);
      assert lo * |sqs| == lo * |sqs[1..]| + lo;
      assert hi * |sqs| == hi * |sqs[1..]| + hi;
    }
  }

  lemma BoardSumBounds(f: Sq -> int, b: Bitboard, lo: int, hi: int)
    requires forall s: Sq :: lo <= f(s) <= hi
    ensures lo * PopCount(b) <= BoardSum(f, b) <= hi * PopCount(b)
  {
    WalkSumBounds(f, Targets(b), lo, hi);
    TargetsCount(b);
    WalkSumIsBoardSum(f, b);
  }
}
