/**
 * Bitboards (chessboard/bitboard.go): a 64-bit word with one bit per square,
 * A1 being bit 0 and H8 bit 63. Go's `Bitboard` is a `uint64`, modelled as
 * `bv64`, so every operation wraps modulo 2^64 exactly as in Go.
 *
 * Square indices are 8-bit values below 64, the width of the `File` and
 * `Rank` fields of a Go `Square`.
 */
module Bitboards {

  type Bitboard = bv64

  /** A square index: file + 8 * rank. */
  type Sq = s: bv8 | s < 64

  const Full: Bitboard := 0xFFFF_FFFF_FFFF_FFFF

  /** The bitboard holding only square `s`. */
  function SquareBit(s: Sq): Bitboard
  {
    1 << s
  }

  /** Square `s` is set in `b`. */
  predicate Has(b: Bitboard, s: Sq)
  {
    b & SquareBit(s) != 0
  }

  // ---------------------------------------------------------------------------
  // Squares of the bitwise operators. The solver proves these on words; a
  // few go through a word-level identity first, which keeps them cheap.

  lemma OrMask(a: Bitboard, b: Bitboard, m: Bitboard)
    ensures (a | b) & m == (a & m) | (b & m)
  {
  }

  lemma OrNonZero(x: Bitboard, y: Bitboard)
    ensures x | y != 0 <==> x != 0 || y != 0
  {
  }

  lemma AndMask(a: Bitboard, b: Bitboard, m: Bitboard)
    ensures (a & b) & m == (a & m) & (b & m)
  {
  }

  lemma OrZero(b: Bitboard)
    ensures b | 0 == b
  {
  }

  lemma OrHas(a: Bitboard, b: Bitboard, s: Sq)
    ensures Has(a | b, s) <==> Has(a, s) || Has(b, s)
  {
    var m := SquareBit(s);
    OrMask(a, b, m);
    OrNonZero(a & m, b & m);
  }

  lemma AndHas(a: Bitboard, b: Bitboard, s: Sq)
    ensures Has(a & b, s) <==> Has(a, s) && Has(b, s)
  {
    AndMask(a, b, SquareBit(s));
  }

  lemma XorHas(a: Bitboard, b: Bitboard, s: Sq)
    ensures Has(a ^ b, s) <==> Has(a, s) != Has(b, s)
  {
  }

  lemma NotHas(a: Bitboard, s: Sq)
    ensures Has(!a, s) <==> !Has(a, s)
  {
  }

  /** Go's `a &^ b`. */
  lemma AndNotHas(a: Bitboard, b: Bitboard, s: Sq)
    ensures Has(a & !b, s) <==> Has(a, s) && !Has(b, s)
  {
    AndHas(a, !b, s);
    NotHas(b, s);
  }

  lemma SquareBitHas(s: Sq, t: Sq)
    ensures Has(SquareBit(s), t) <==> s == t
  {
  }

  lemma EmptyHasNothing(s: Sq)
    ensures !Has(0, s)
  {
  }

  lemma FullHasAll(s: Sq)
    ensures Has(Full, s)
  {
  }

  /** The squares below `k`. */
  function LowMask(k: bv8): Bitboard
    requires k <= 64
  {
    if k == 64 then Full else SquareBit(k) - 1
  }

  lemma LowMaskHas(k: bv8, s: Sq)
    requires k <= 64
    ensures Has(LowMask(k), s) <==> s < k
  {
  }

  lemma LowMaskStep(k: bv8)
    requires 0 < k <= 64
    ensures LowMask(k) == LowMask(k - 1) | SquareBit(k - 1)
  {
  }

  lemma AndOrZero(b: Bitboard, x: Bitboard, y: Bitboard)
    requires b & x == 0 && b & y == 0
    ensures b & (x | y) == 0
  {
  }

  lemma NoneStep(b: Bitboard, k: bv8)
    requires 0 < k <= 64
    requires b & LowMask(k - 1) == 0
    requires !Has(b, k - 1)
    ensures b & LowMask(k) == 0
  {
    LowMaskStep(k);
    AndOrZero(b, LowMask(k - 1), SquareBit(k - 1));
  }

  /** No square below `k` set means the mask of those squares selects nothing. */
  lemma {:induction false} NoneBelow(b: Bitboard, k: bv8)
    requires k <= 64
    requires forall s: Sq :: s < k ==> !Has(b, s)
    ensures b & LowMask(k) == 0
    decreases k
  {
    if k > 0 {
      NoneBelow(b, k - 1);
      NoneStep(b, k);
    }
  }

  /** Two bitboards with the same squares are the same word. */
  lemma Extensionality(a: Bitboard, b: Bitboard)
    requires forall s: Sq :: Has(a, s) <==> Has(b, s)
    ensures a == b
  {
    var d := a ^ b;
    forall s: Sq ensures !Has(d, s) {
      XorHas(a, b, s);
    }
    NoneBelow(d, 64);
  }

  /** Two bitboards share no square exactly when their AND is empty. */
  lemma DisjointIff(a: Bitboard, b: Bitboard)
    ensures a & b == 0 <==> forall s: Sq :: !(Has(a, s) && Has(b, s))
  {
    if forall s: Sq :: !(Has(a, s) && Has(b, s)) {
      forall s: Sq ensures Has(a & b, s) <==> Has(0, s) {
        AndHas(a, b, s);
      }
      Extensionality(a & b, 0);
    }
    if a & b == 0 {
      forall s: Sq ensures !(Has(a, s) && Has(b, s)) {
        AndHas(a, b, s);
      }
    }
  }

  // ---------------------------------------------------------------------------
  // Counting squares. Counting is stated over an arbitrary set of squares
  // given as a predicate; a bitboard's set is `SquaresOf(b)`.

  ghost function SquaresOf(b: Bitboard): Sq -> bool
  {
    (s: Sq) => Has(b, s)
  }

  /** Number of squares among 0 .. n-1 that satisfy `p`. */
  ghost function Count(p: Sq -> bool, n: bv8): nat
    requires n <= 64
    decreases n
  {
    if n == 0 then 0 else Count(p, n - 1) + (if p(n - 1) then 1 else 0)
  }

  /** The number of set squares: the specification of a pop count. */
  ghost function PopCount(b: Bitboard): nat
  {
    Count(SquaresOf(b), 64)
  }

  lemma {:induction false} CountBound(p: Sq -> bool, n: bv8)
    requires n <= 64
    ensures Count(p, n) <= n as int
    decreases n
  {
    if n > 0 { CountBound(p, n - 1); }
  }

  /** `q` is `p` plus the square `k`. */
  lemma {:induction false} CountWithout(p: Sq -> bool, q: Sq -> bool, k: Sq, n: bv8)
    requires n <= 64
    requires q(k) && !p(k)
    requires forall s: Sq :: s != k ==> p(s) == q(s)
    ensures Count(q, n) == Count(p, n) + (if k < n then 1 else 0)
    decreases n
  {
    if n > 0 {
      CountWithout(p, q, k, n - 1);
    }
  }

  /** The squares below `k`, counted among the first `n`. */
  lemma {:induction false} CountBelowK(p: Sq -> bool, k: bv8, n: bv8)
    requires k <= 64 && n <= 64
    requires forall s: Sq :: p(s) == (s < k)
    ensures Count(p, n) == if n <= k then n as int else k as int
    decreases n
  {
    if n > 0 {
      CountBelowK(p, k, n - 1);
    }
  }

  // ---------------------------------------------------------------------------
  // The lowest set square

  ghost predicate IsLowestBit(b: Bitboard, k: Sq)
  {
    Has(b, k) && forall s: Sq :: s < k ==> !Has(b, s)
  }

  /** A non-empty bitboard has a lowest square, found by scanning up from `from`. */
  lemma {:induction false} LowestExists(b: Bitboard, from: bv8) returns (k: Sq)
    requires from <= 64 && b != 0
    requires forall s: Sq :: s < from ==> !Has(b, s)
    ensures IsLowestBit(b, k)
    decreases 64 - from
  {
    if from == 64 {
      NoneBelow(b, 64);
      assert false;
    } else if Has(b, from) {
      k := from;
    } else {
      k := LowestExists(b, from + 1);
    }
  }

  lemma LowestIsUnique(b: Bitboard, k: Sq, l: Sq)
    requires IsLowestBit(b, k) && IsLowestBit(b, l)
    ensures k == l
  {
  }

  lemma IsolateLowest(b: Bitboard, l: Bitboard)
    requires l != 0 && l & (l - 1) == 0 && b & l != 0 && b & (l - 1) == 0
    ensures b & -b == l
  {
  }

  /** Two's complement isolates the lowest square: `b & -b` is that square alone. */
  lemma LowestIsolated(b: Bitboard, k: Sq)
    requires IsLowestBit(b, k)
    ensures b & -b == SquareBit(k)
  {
    NoneBelow(b, k);
    IsolateLowest(b, SquareBit(k));
  }

  lemma ClearByIsolate(b: Bitboard)
    ensures b & (b - 1) == b ^ (b & -b)
  {
  }

  /** Clearing the lowest square `k` toggles exactly that square. */
  lemma ClearLowest(b: Bitboard, k: Sq)
    requires IsLowestBit(b, k)
    ensures b & (b - 1) == b ^ SquareBit(k)
  {
    LowestIsolated(b, k);
    ClearByIsolate(b);
  }

  lemma ToggleSquare(b: Bitboard, r: Bitboard, k: Sq, s: Sq)
    requires r == b ^ SquareBit(k)
    ensures Has(r, s) <==> Has(b, s) != (s == k)
  {
    XorHas(b, SquareBit(k), s);
    SquareBitHas(k, s);
  }

  lemma ClearSquare(b: Bitboard, k: Sq, s: Sq)
    requires IsLowestBit(b, k)
    ensures Has(b & (b - 1), s) <==> Has(b, s) && s != k
  {
    ClearLowest(b, k);
    ToggleSquare(b, b & (b - 1), k, s);
  }

  /** `b & (b - 1)`: the bitboard without its lowest square. */
  function ClearLeastSignificantBit(b: Bitboard): (r: Bitboard)
    ensures forall k: Sq, s: Sq :: IsLowestBit(b, k) ==> (Has(r, s) <==> Has(b, s) && s != k)
    ensures b == 0 ==> r == 0
  {
    forall k: Sq, s: Sq | IsLowestBit(b, k)
      ensures Has(b & (b - 1), s) <==> Has(b, s) && s != k
    {
      ClearSquare(b, k, s);
    }
    b & (b - 1)
  }

  lemma ClearDecrementsCount(b: Bitboard)
    requires b != 0
    ensures PopCount(ClearLeastSignificantBit(b)) + 1 == PopCount(b)
  {
    var k := LowestExists(b, 0);
    var p, q := SquaresOf(ClearLeastSignificantBit(b)), SquaresOf(b);
    forall s: Sq ensures p(s) <==> q(s) && s != k {
      ClearSquare(b, k, s);
    }
    CountWithout(p, q, k, 64);
  }

  lemma PopCountZero(b: Bitboard)
    ensures PopCount(b) == 0 <==> b == 0
  {
    if b == 0 {
      CountBelowK(SquaresOf(b), 0, 64);
    } else {
      ClearDecrementsCount(b);
    }
  }

  // ---------------------------------------------------------------------------
  // Pop counts

  /** Kernighan's count: clear the lowest square until the board is empty. */
  function KernighanPopCount(b: Bitboard): (r: int)
    ensures r == PopCount(b)
    decreases PopCount(b)
  {
    if b == 0 then
      PopCountZero(b);
      0
    else
      ClearDecrementsCount(b);
      KernighanPopCount(ClearLeastSignificantBit(b)) + 1
  }

  lemma PopCountRange(b: Bitboard)
    ensures 0 <= KernighanPopCount(b) <= 64
  {
    CountBound(SquaresOf(b), 64);
  }

  /** The first three steps of the divide-and-conquer count: each byte of the
      result holds the number of set squares in the same byte of `b`. */
  function ByteCounts(b: Bitboard): Bitboard
  {
    var bb := b - ((b >> 1) & 0x5555555555555555);
    var bb := (bb & 0x3333333333333333) + ((bb >> 2) & 0x3333333333333333);
    (bb + (bb >> 4)) & 0x0f0f0f0f0f0f0f0f
  }

  /** The divide-and-conquer count: byte counts summed by one multiplication. */
  function ParallelPopCount(b: Bitboard): (r: int)
    ensures r == KernighanPopCount(b)
  {
    ParallelIsPopCount(b);
    ((ByteCounts(b) * 0x0101010101010101) >> 56) as int
  }

  lemma ByteCountsMask(b: Bitboard)
    ensures ByteCounts(b) & 0xF0F0F0F0F0F0F0F0 == 0
  {
  }

  lemma ByteCountsLocal0(b: Bitboard) ensures ByteCounts(b) & 0xFF == ByteCounts(b & 0xFF) {}
  lemma ByteCountsLocal1(b: Bitboard) ensures (ByteCounts(b) >> 8) & 0xFF == ByteCounts((b >> 8) & 0xFF) {}
  lemma ByteCountsLocal2(b: Bitboard) ensures (ByteCounts(b) >> 16) & 0xFF == ByteCounts((b >> 16) & 0xFF) {}
  lemma ByteCountsLocal3(b: Bitboard) ensures (ByteCounts(b) >> 24) & 0xFF == ByteCounts((b >> 24) & 0xFF) {}
  lemma ByteCountsLocal4(b: Bitboard) ensures (ByteCounts(b) >> 32) & 0xFF == ByteCounts((b >> 32) & 0xFF) {}
  lemma ByteCountsLocal5(b: Bitboard) ensures (ByteCounts(b) >> 40) & 0xFF == ByteCounts((b >> 40) & 0xFF) {}
  lemma ByteCountsLocal6(b: Bitboard) ensures (ByteCounts(b) >> 48) & 0xFF == ByteCounts((b >> 48) & 0xFF) {}
  lemma ByteCountsLocal7(b: Bitboard) ensures (ByteCounts(b) >> 56) & 0xFF == ByteCounts((b >> 56) & 0xFF) {}

  lemma {:induction false} Unfold4(p: Sq -> bool, n: bv8)
    requires n <= 60
    ensures Count(p, n + 4) == Count(p, n)
      + (if p(n) then 1 else 0) + (if p(n + 1) then 1 else 0)
      + (if p(n + 2) then 1 else 0) + (if p(n + 3) then 1 else 0)
  {
    assert Count(p, n + 4) == Count(p, n + 3) + (if p(n + 3) then 1 else 0);
    assert Count(p, n + 3) == Count(p, n + 2) + (if p(n + 2) then 1 else 0);
    assert Count(p, n + 2) == Count(p, n + 1) + (if p(n + 1) then 1 else 0);
  }

  lemma Unfold8(p: Sq -> bool, n: bv8)
    requires n <= 56
    ensures Count(p, n + 8) == Count(p, n)
      + (if p(n) then 1 else 0) + (if p(n + 1) then 1 else 0)
      + (if p(n + 2) then 1 else 0) + (if p(n + 3) then 1 else 0)
      + (if p(n + 4) then 1 else 0) + (if p(n + 5) then 1 else 0)
      + (if p(n + 6) then 1 else 0) + (if p(n + 7) then 1 else 0)
  {
    Unfold4(p, n);
    Unfold4(p, n + 4);
    assert n + 4 + 1 == n + 5 && n + 4 + 2 == n + 6 && n + 4 + 3 == n + 7 && n + 4 + 4 == n + 8;
  }

  /** The byte count of a single byte, as an integer. */
  lemma ByteCountOfByte(x: Bitboard)
    requires x < 256
    ensures ByteCounts(x) <= 8
    ensures ByteCounts(x) as int == Count(SquaresOf(x), 8)
  {
    Unfold8(SquaresOf(x), 0);
  }

  // ---------------------------------------------------------------------------
  // Splitting a count into bytes. Only shifts by one byte are used, which the
  // solver handles on words.

  lemma ShiftUp(s: Sq)
    requires s < 56
    ensures SquareBit(s + 8) == SquareBit(s) << 8
  {
  }

  lemma ShrAnd(b: Bitboard, m: Bitboard)
    ensures (b >> 8) & m == (b & (m << 8)) >> 8
  {
  }

  lemma ShrNonZero(x: Bitboard, m: Bitboard)
    requires m & 0xFF == 0
    ensures x & m != 0 <==> (x & m) >> 8 != 0
  {
  }

  lemma LowByteClear(m: Bitboard)
    requires m < 0x100_0000_0000_0000
    ensures (m << 8) & 0xFF == 0
  {
  }

  /** Shifting down a byte moves square `i + 8` to square `i`. */
  lemma ShiftHas(b: Bitboard, i: Sq)
    requires i < 56
    ensures Has(b >> 8, i) == Has(b, i + 8)
  {
    ShiftUp(i);
    var m := SquareBit(i);
    ShrAnd(b, m);
    LowByteClear(m);
    ShrNonZero(b, m << 8);
  }

  lemma LowByteHas(b: Bitboard, i: Sq)
    requires i < 8
    ensures Has(b & 0xFF, i) == Has(b, i)
  {
  }

  lemma {:induction false} CountSame(p: Sq -> bool, q: Sq -> bool, n: bv8)
    requires n <= 64
    requires forall s: Sq :: s < n ==> p(s) == q(s)
    ensures Count(p, n) == Count(q, n)
    decreases n
  {
    if n > 0 {
      CountSame(p, q, n - 1);
    }
  }

  /** `q` is `p` moved down by eight squares. */
  lemma {:induction false} CountShift(p: Sq -> bool, q: Sq -> bool, n: bv8)
    requires n <= 56
    requires forall s: Sq :: s < n ==> q(s) == p(s + 8)
    ensures Count(p, n + 8) == Count(p, 8) + Count(q, n)
    decreases n
  {
    if n > 0 {
      CountShift(p, q, n - 1);
      assert q(n - 1) == p(n - 1 + 8);
    }
  }

  lemma LowByteCount(c: Bitboard)
    ensures Count(SquaresOf(c), 8) == ByteCounts(c & 0xFF) as int
  {
    forall s: Sq | s < 8 ensures SquaresOf(c)(s) == SquaresOf(c & 0xFF)(s) {
      LowByteHas(c, s);
    }
    CountSame(SquaresOf(c), SquaresOf(c & 0xFF), 8);
    ByteCountOfByte(c & 0xFF);
  }

  /** The byte counts of the low `k` bytes of `c`, added as integers. */
  ghost function ByteTotal(c: Bitboard, k: bv8): nat
    requires k <= 8
    decreases k
  {
    if k == 0 then 0 else ByteCounts(c & 0xFF) as int + ByteTotal(c >> 8, k - 1)
  }

  lemma {:induction false} CountByBytes(c: Bitboard, k: bv8)
    requires k <= 8
    ensures Count(SquaresOf(c), 8 * k) == ByteTotal(c, k)
    decreases k
  {
    if k > 0 {
      CountByBytes(c >> 8, k - 1);
      var p, q := SquaresOf(c), SquaresOf(c >> 8);
      forall s: Sq | s < 8 * (k - 1) ensures q(s) == p(s + 8) {
        ShiftHas(c, s);
      }
      CountShift(p, q, 8 * (k - 1));
      LowByteCount(c);
    }
  }

  lemma ByteTotalUnfold(b: Bitboard)
    ensures ByteTotal(b, 8)
      == (ByteCounts(b & 0xFF) as int + ByteCounts((b >> 8) & 0xFF) as int)
       + (ByteCounts((b >> 16) & 0xFF) as int + ByteCounts((b >> 24) & 0xFF) as int)
       + (ByteCounts((b >> 32) & 0xFF) as int + ByteCounts((b >> 40) & 0xFF) as int)
       + (ByteCounts((b >> 48) & 0xFF) as int + ByteCounts((b >> 56) & 0xFF) as int)
  {
    assert ByteTotal(b >> 56, 1) == ByteCounts((b >> 56) & 0xFF) as int + ByteTotal(b >> 64, 0);
    assert ByteTotal(b >> 48, 2) == ByteCounts((b >> 48) & 0xFF) as int + ByteTotal(b >> 56, 1);
    assert ByteTotal(b >> 40, 3) == ByteCounts((b >> 40) & 0xFF) as int + ByteTotal(b >> 48, 2);
    assert ByteTotal(b >> 32, 4) == ByteCounts((b >> 32) & 0xFF) as int + ByteTotal(b >> 40, 3);
    assert ByteTotal(b >> 24, 5) == ByteCounts((b >> 24) & 0xFF) as int + ByteTotal(b >> 32, 4);
    assert ByteTotal(b >> 16, 6) == ByteCounts((b >> 16) & 0xFF) as int + ByteTotal(b >> 24, 5);
    assert ByteTotal(b >> 8, 7) == ByteCounts((b >> 8) & 0xFF) as int + ByteTotal(b >> 16, 6);
    assert ByteTotal(b, 8) == ByteCounts(b & 0xFF) as int + ByteTotal(b >> 8, 7);
  }

  /** The eight byte counts of `b`, each read at its own place in `ByteCounts(b)`. */
  lemma ByteTotalOfBoard(b: Bitboard)
    ensures ByteTotal(b, 8)
      == ((ByteCounts(b) & 0xFF) as int + ((ByteCounts(b) >> 8) & 0xFF) as int)
       + (((ByteCounts(b) >> 16) & 0xFF) as int + ((ByteCounts(b) >> 24) & 0xFF) as int)
       + (((ByteCounts(b) >> 32) & 0xFF) as int + ((ByteCounts(b) >> 40) & 0xFF) as int)
       + (((ByteCounts(b) >> 48) & 0xFF) as int + ((ByteCounts(b) >> 56) & 0xFF) as int)
  {
    ByteTotalUnfold(b);
    ByteCountsLocal0(b); ByteCountsLocal1(b); ByteCountsLocal2(b); ByteCountsLocal3(b);
    ByteCountsLocal4(b); ByteCountsLocal5(b); ByteCountsLocal6(b); ByteCountsLocal7(b);
  }

  // The multiplication by 0x0101010101010101 adds every byte into all the
  // bytes above it; with bytes below 16 nothing carries, so byte k of the
  // product is the sum of bytes 0 .. k.

  /** Adding a byte count to a partial sum does not wrap, so it commutes with `as int`. */
  lemma AddAsInt(x: Bitboard, y: Bitboard, m: Bitboard)
    requires m <= 105 && x <= m && y <= 15
    ensures x + y <= m + 15
    ensures (x + y) as int == x as int + y as int
  {
  }

  lemma SumStart(y: Bitboard)
    requires y & 0xF0F0F0F0F0F0F0F0 == 0
    ensures (y * 0x0101010101010101) & 0xFF == y & 0xFF <= 15
  {
  }

  lemma SumStep1(y: Bitboard)
    requires y & 0xF0F0F0F0F0F0F0F0 == 0
    ensures ((y * 0x0101010101010101) >> 8) & 0xFF == ((y * 0x0101010101010101) & 0xFF) + ((y >> 8) & 0xFF)
    ensures (y >> 8) & 0xFF <= 15
  {
  }

  lemma SumStepAsInt1(y: Bitboard)
    requires y & 0xF0F0F0F0F0F0F0F0 == 0 && ((y * 0x0101010101010101) & 0xFF) <= 15
    ensures (((y * 0x0101010101010101) >> 8) & 0xFF) as int == ((y * 0x0101010101010101) & 0xFF) as int + ((y >> 8) & 0xFF) as int
    ensures ((y * 0x0101010101010101) >> 8) & 0xFF <= 30
  {
    SumStep1(y);
    AddAsInt((y * 0x0101010101010101) & 0xFF, (y >> 8) & 0xFF, 15);
  }

  lemma SumStep2(y: Bitboard)
    requires y & 0xF0F0F0F0F0F0F0F0 == 0
    ensures ((y * 0x0101010101010101) >> 16) & 0xFF == (((y * 0x0101010101010101) >> 8) & 0xFF) + ((y >> 16) & 0xFF)
    ensures (y >> 16) & 0xFF <= 15
  {
  }

  lemma SumStepAsInt2(y: Bitboard)
    requires y & 0xF0F0F0F0F0F0F0F0 == 0 && (((y * 0x0101010101010101) >> 8) & 0xFF) <= 30
    ensures (((y * 0x0101010101010101) >> 16) & 0xFF) as int == (((y * 0x0101010101010101) >> 8) & 0xFF) as int + ((y >> 16) & 0xFF) as int
    ensures ((y * 0x0101010101010101) >> 16) & 0xFF <= 45
  {
    SumStep2(y);
    AddAsInt(((y * 0x0101010101010101) >> 8) & 0xFF, (y >> 16) & 0xFF, 30);
  }

  lemma SumStep3(y: Bitboard)
    requires y & 0xF0F0F0F0F0F0F0F0 == 0
    ensures ((y * 0x0101010101010101) >> 24) & 0xFF == (((y * 0x0101010101010101) >> 16) & 0xFF) + ((y >> 24) & 0xFF)
    ensures (y >> 24) & 0xFF <= 15
  {
  }

  lemma SumStepAsInt3(y: Bitboard)
    requires y & 0xF0F0F0F0F0F0F0F0 == 0 && (((y * 0x0101010101010101) >> 16) & 0xFF) <= 45
    ensures (((y * 0x0101010101010101) >> 24) & 0xFF) as int == (((y * 0x0101010101010101) >> 16) & 0xFF) as int + ((y >> 24) & 0xFF) as int
    ensures ((y * 0x0101010101010101) >> 24) & 0xFF <= 60
  {
    SumStep3(y);
    AddAsInt(((y * 0x0101010101010101) >> 16) & 0xFF, (y >> 24) & 0xFF, 45);
  }

  lemma SumStep4(y: Bitboard)
    requires y & 0xF0F0F0F0F0F0F0F0 == 0
    ensures ((y * 0x0101010101010101) >> 32) & 0xFF == (((y * 0x0101010101010101) >> 24) & 0xFF) + ((y >> 32) & 0xFF)
    ensures (y >> 32) & 0xFF <= 15
  {
  }

  lemma SumStepAsInt4(y: Bitboard)
    requires y & 0xF0F0F0F0F0F0F0F0 == 0 && (((y * 0x0101010101010101) >> 24) & 0xFF) <= 60
    ensures (((y * 0x0101010101010101) >> 32) & 0xFF) as int == (((y * 0x0101010101010101) >> 24) & 0xFF) as int + ((y >> 32) & 0xFF) as int
    ensures ((y * 0x0101010101010101) >> 32) & 0xFF <= 75
  {
    SumStep4(y);
    AddAsInt(((y * 0x0101010101010101) >> 24) & 0xFF, (y >> 32) & 0xFF, 60);
  }

  lemma SumStep5(y: Bitboard)
    requires y & 0xF0F0F0F0F0F0F0F0 == 0
    ensures ((y * 0x0101010101010101) >> 40) & 0xFF == (((y * 0x0101010101010101) >> 32) & 0xFF) + ((y >> 40) & 0xFF)
    ensures (y >> 40) & 0xFF <= 15
  {
  }

  lemma SumStepAsInt5(y: Bitboard)
    requires y & 0xF0F0F0F0F0F0F0F0 == 0 && (((y * 0x0101010101010101) >> 32) & 0xFF) <= 75
    ensures (((y * 0x0101010101010101) >> 40) & 0xFF) as int == (((y * 0x0101010101010101) >> 32) & 0xFF) as int + ((y >> 40) & 0xFF) as int
    ensures ((y * 0x0101010101010101) >> 40) & 0xFF <= 90
  {
    SumStep5(y);
    AddAsInt(((y * 0x0101010101010101) >> 32) & 0xFF, (y >> 40) & 0xFF, 75);
  }

  lemma SumStep6(y: Bitboard)
    requires y & 0xF0F0F0F0F0F0F0F0 == 0
    ensures ((y * 0x0101010101010101) >> 48) & 0xFF == (((y * 0x0101010101010101) >> 40) & 0xFF) + ((y >> 48) & 0xFF)
    ensures (y >> 48) & 0xFF <= 15
  {
  }

  lemma SumStepAsInt6(y: Bitboard)
    requires y & 0xF0F0F0F0F0F0F0F0 == 0 && (((y * 0x0101010101010101) >> 40) & 0xFF) <= 90
    ensures (((y * 0x0101010101010101) >> 48) & 0xFF) as int == (((y * 0x0101010101010101) >> 40) & 0xFF) as int + ((y >> 48) & 0xFF) as int
    ensures ((y * 0x0101010101010101) >> 48) & 0xFF <= 105
  {
    SumStep6(y);
    AddAsInt(((y * 0x0101010101010101) >> 40) & 0xFF, (y >> 48) & 0xFF, 90);
  }

  lemma SumStep7(y: Bitboard)
    requires y & 0xF0F0F0F0F0F0F0F0 == 0
    ensures (y * 0x0101010101010101) >> 56 == (((y * 0x0101010101010101) >> 48) & 0xFF) + ((y >> 56) & 0xFF)
    ensures (y >> 56) & 0xFF <= 15
  {
  }

  lemma SumStepAsInt7(y: Bitboard)
    requires y & 0xF0F0F0F0F0F0F0F0 == 0 && (((y * 0x0101010101010101) >> 48) & 0xFF) <= 105
    ensures ((y * 0x0101010101010101) >> 56) as int == (((y * 0x0101010101010101) >> 48) & 0xFF) as int + ((y >> 56) & 0xFF) as int
    ensures (y * 0x0101010101010101) >> 56 <= 120
  {
    SumStep7(y);
    AddAsInt(((y * 0x0101010101010101) >> 48) & 0xFF, (y >> 56) & 0xFF, 105);
  }

  lemma TopByteIsSum(y: Bitboard)
    requires y & 0xF0F0F0F0F0F0F0F0 == 0
    ensures ((y * 0x0101010101010101) >> 56) as int
      == ((y & 0xFF) as int + ((y >> 8) & 0xFF) as int)
       + (((y >> 16) & 0xFF) as int + ((y >> 24) & 0xFF) as int)
       + (((y >> 32) & 0xFF) as int + ((y >> 40) & 0xFF) as int)
       + (((y >> 48) & 0xFF) as int + ((y >> 56) & 0xFF) as int)
  {
    SumStart(y);
    SumStepAsInt1(y); SumStepAsInt2(y); SumStepAsInt3(y); SumStepAsInt4(y);
    SumStepAsInt5(y); SumStepAsInt6(y); SumStepAsInt7(y);
  }

  lemma TopByteIs(y: Bitboard, n: int)
    requires y & 0xF0F0F0F0F0F0F0F0 == 0
    requires n == ((y & 0xFF) as int + ((y >> 8) & 0xFF) as int)
       + (((y >> 16) & 0xFF) as int + ((y >> 24) & 0xFF) as int)
       + (((y >> 32) & 0xFF) as int + ((y >> 40) & 0xFF) as int)
       + (((y >> 48) & 0xFF) as int + ((y >> 56) & 0xFF) as int)
    ensures ((y * 0x0101010101010101) >> 56) as int == n
  {
    TopByteIsSum(y);
  }

  /** The multiplication sums the byte counts. */
  lemma TopByteIsByteTotal(b: Bitboard)
    ensures ((ByteCounts(b) * 0x0101010101010101) >> 56) as int == ByteTotal(b, 8)
  {
    ByteTotalOfBoard(b);
    ByteCountsMask(b);
    TopByteIs(ByteCounts(b), ByteTotal(b, 8));
  }

  lemma ParallelIsPopCount(b: Bitboard)
    ensures ((ByteCounts(b) * 0x0101010101010101) >> 56) as int == PopCount(b)
  {
    CountByBytes(b, 8);
    TopByteIsByteTotal(b);
  }

  /** The index of the lowest square; on an empty board the expression yields 64. */
  function LeastSignificantBit(b: Bitboard): (r: int)
    ensures forall k: Sq :: IsLowestBit(b, k) ==> r == k as int
    ensures b == 0 ==> r == 64
    ensures 0 <= r <= 64
  {
    LeastSignificantBitIsLowest(b);
    ParallelPopCount((b & -b) - 1)
  }

  /** `(b & -b) - 1` holds the squares below the lowest one. */
  lemma BelowLowest(b: Bitboard, k: Sq)
    requires IsLowestBit(b, k)
    ensures (b & -b) - 1 == LowMask(k)
  {
    LowestIsolated(b, k);
  }

  lemma PopCountOfLowMask(k: bv8)
    requires k <= 64
    ensures PopCount(LowMask(k)) == k as int
  {
    forall s: Sq ensures Has(LowMask(k), s) == (s < k) {
      LowMaskHas(k, s);
    }
    CountBelowK(SquaresOf(LowMask(k)), k, 64);
  }

  lemma LeastSignificantBitIsLowest(b: Bitboard)
    ensures forall k: Sq :: IsLowestBit(b, k) ==> PopCount((b & -b) - 1) == k as int
    ensures b == 0 ==> PopCount((b & -b) - 1) == 64
    ensures 0 <= PopCount((b & -b) - 1) <= 64
  {
    CountBound(SquaresOf((b & -b) - 1), 64);
    forall k: Sq | IsLowestBit(b, k) ensures PopCount((b & -b) - 1) == k as int {
      BelowLowest(b, k);
      PopCountOfLowMask(k);
    }
    if b == 0 {
      assert (b & -b) - 1 == LowMask(64);
      PopCountOfLowMask(64);
    }
  }

  // ---------------------------------------------------------------------------
  // Values fixed by the unit tests

  /** A one-square bitboard counts one square; its lowest square is itself. */
  lemma SingleSquare(s: Sq)
    ensures KernighanPopCount(SquareBit(s)) == 1
    ensures ParallelPopCount(SquareBit(s)) == 1
    ensures LeastSignificantBit(SquareBit(s)) == s as int
  {
    assert IsLowestBit(SquareBit(s), s) by {
      forall t: Sq ensures Has(SquareBit(s), t) <==> t == s {
        SquareBitHas(s, t);
      }
    }
    assert ClearLeastSignificantBit(SquareBit(s)) == 0;
  }

  lemma PopCountExamples()
    ensures KernighanPopCount(0x75) == 5 && ParallelPopCount(0x75) == 5
    ensures KernighanPopCount(0) == 0 && ParallelPopCount(0) == 0
  {
    assert ParallelPopCount(0x75) == 5;
    assert ParallelPopCount(0) == 0;
  }

  lemma LeastSignificantBitExamples()
    ensures LeastSignificantBit(0x75) == 0
    ensures LeastSignificantBit(0x70) == 4
    ensures LeastSignificantBit(SquareBit(20)) == 20
  {
    SingleSquare(20);
  }

  // ---------------------------------------------------------------------------
  // Text rendering: eight lines, rank 8 first, "1 " for a set square and ". "
  // for an empty one, lines separated by a newline. The layout is stated on
  // rows of booleans first, then tied to the squares of the board.

  /** The cells of one line: "1 " for a set square, ". " otherwise. */
  function CellsText(bits: seq<bool>): (t: string)
    ensures |t| == 2 * |bits|
  {
    if bits == [] then ""
    else CellsText(bits[..|bits| - 1]) + (if bits[|bits| - 1] then "1 " else ". ")
  }

  /** Every row followed by a newline. */
  function Lines(rows: seq<string>): string
  {
    if rows == [] then "" else Lines(rows[..|rows| - 1]) + rows[|rows| - 1] + "\n"
  }

  lemma {:induction false} CellsTextAt(bits: seq<bool>, j: int)
    requires 0 <= j < |bits|
    ensures CellsText(bits)[2 * j] == if bits[j] then '1' else '.'
    ensures CellsText(bits)[2 * j + 1] == ' '
    decreases |bits|
  {
    var n := |bits|;
    var a, c := CellsText(bits[..n - 1]), (if bits[n - 1] then "1 " else ". ");
    assert CellsText(bits) == a + c;
    if j < n - 1 {
      CellsTextAt(bits[..n - 1], j);
      assert (a + c)[2 * j] == a[2 * j];
      assert (a + c)[2 * j + 1] == a[2 * j + 1];
    } else {
      assert (a + c)[2 * j] == c[0];
      assert (a + c)[2 * j + 1] == c[1];
    }
  }

  /** With rows of 16 characters, character c of row i sits at 17 * i + c. */
  lemma {:induction false} LinesAt(rows: seq<string>, i: int, c: int)
    requires forall x :: 0 <= x < |rows| ==> |rows[x]| == 16
    requires 0 <= i < |rows| && 0 <= c <= 16
    ensures |Lines(rows)| == 17 * |rows|
    ensures Lines(rows)[17 * i + c] == (rows[i] + "\n")[c]
    decreases |rows|
  {
    var n := |rows|;
    var a, line := Lines(rows[..n - 1]), rows[n - 1] + "\n";
    assert Lines(rows) == a + line;
    if n > 1 {
      LinesAt(rows[..n - 1], if i < n - 1 then i else 0, c);
    }
    if i < n - 1 {
      assert (a + line)[17 * i + c] == a[17 * i + c];
    } else {
      assert (a + line)[17 * i + c] == line[c];
    }
  }

  /** 0 .. 7 as an 8-bit value. */
  function Eighth(k: int): (e: bv8)
    requires 0 <= k < 8
    ensures e < 8
  {
    if k == 0 then 0 else if k == 1 then 1 else if k == 2 then 2 else if k == 3 then 3
    else if k == 4 then 4 else if k == 5 then 5 else if k == 6 then 6 else 7
  }

  /** The square on rank `r` and file `f`, both counted from 0. */
  function SquareAt(r: int, f: int): Sq
    requires 0 <= r < 8 && 0 <= f < 8
  {
    Eighth(r) * 8 + Eighth(f)
  }

  lemma SquareAtIndex(r: int, f: int)
    requires 0 <= r < 8 && 0 <= f < 8
    ensures SquareAt(r, f) as int == r * 8 + f
  {
  }

  /** The square with index `i`, for 0 <= i < 64. */
  function IndexSq(i: int): (s: Sq)
    requires 0 <= i < 64
    ensures s as int == i
  {
    SquareAtIndex(i / 8, i % 8);
    SquareAt(i / 8, i % 8)
  }

  lemma SqAsInt(s: Sq, t: Sq)
    ensures s == t <==> s as int == t as int
  {
  }

  lemma IndexSqInjective(i: int, j: int)
    requires 0 <= i < 64 && 0 <= j < 64 && IndexSq(i) == IndexSq(j)
    ensures i == j
  {
  }

  /** Every square is on some rank and file. */
  lemma RankAndFile(s: Sq) returns (r: int, f: int)
    ensures 0 <= r < 8 && 0 <= f < 8 && SquareAt(r, f) == s
  {
    r, f := (s / 8) as int, (s % 8) as int;
    SquareAtIndex(r, f);
  }

  /** Which squares of rank `r` are set, file A first. */
  function RankBits(b: Bitboard, r: int): (bits: seq<bool>)
    requires 0 <= r < 8
    ensures |bits| == 8
    ensures forall f :: 0 <= f < 8 ==> bits[f] == Has(b, SquareAt(r, f))
  {
    seq(8, f requires 0 <= f < 8 => Has(b, SquareAt(r, f)))
  }

  /** The eight lines, rank 8 first. */
  function Rows(b: Bitboard): (rows: seq<string>)
    ensures |rows| == 8
    ensures forall i :: 0 <= i < 8 ==> rows[i] == CellsText(RankBits(b, 7 - i))
    ensures forall i :: 0 <= i < 8 ==> |rows[i]| == 16
  {
    seq(8, i requires 0 <= i < 8 => CellsText(RankBits(b, 7 - i)))
  }

  /** The rendering: the lines without the final newline. */
  function Render(b: Bitboard): string
  {
    LinesAt(Rows(b), 0, 0);
    Lines(Rows(b))[..135]
  }

  /** Line i (from the top) shows rank 8-i: its j-th cell is '1' exactly when
      that square is set, '.' otherwise, and every line but the last ends in a
      newline. */
  lemma RenderShows(b: Bitboard, i: int, j: int)
    requires 0 <= i < 8 && 0 <= j < 8
    ensures |Render(b)| == 8 * 17 - 1
    ensures Render(b)[17 * i + 2 * j] == if Has(b, SquareAt(7 - i, j)) then '1' else '.'
    ensures Render(b)[17 * i + 2 * j + 1] == ' '
    ensures i < 7 ==> Render(b)[17 * i + 16] == '\n'
  {
    var rows := Rows(b);
    LinesAt(rows, i, 2 * j);
    LinesAt(rows, i, 2 * j + 1);
    LinesAt(rows, i, 16);
    CellsTextAt(RankBits(b, 7 - i), j);
  }

  /** The rendering determines the board. */
  lemma RenderInjective(a: Bitboard, b: Bitboard)
    requires Render(a) == Render(b)
    ensures a == b
  {
    forall s: Sq ensures Has(a, s) == Has(b, s) {
      var r, f := RankAndFile(s);
      RenderShows(a, 7 - r, f);
      RenderShows(b, 7 - r, f);
    }
    Extensionality(a, b);
  }

  lemma CellStep(bits: seq<bool>, f: int)
    requires 0 <= f < |bits|
    ensures CellsText(bits[..f + 1]) == CellsText(bits[..f]) + if bits[f] then "1 " else ". "
  {
    assert bits[..f + 1][..f] == bits[..f];
  }

  lemma LineStep(rows: seq<string>, k: int)
    requires 0 <= k < |rows|
    ensures Lines(rows[..k + 1]) == Lines(rows[..k]) + rows[k] + "\n"
  {
    assert rows[..k + 1][..k] == rows[..k];
  }

  /** The cells of rank `r`, file A first. */
  method RankLine(b: Bitboard, r: int) returns (line: string)
    requires 0 <= r < 8
    ensures line == CellsText(RankBits(b, r))
  {
    var bits := RankBits(b, r);
    line := "";
    for f := 0 to 8
      invariant line == CellsText(bits[..f])
    {
      CellStep(bits, f);
      if Has(b, SquareAt(r, f)) {
        line := line + "1 ";
      } else {
        line := line + ". ";
      }
    }
    assert bits[..8] == bits;
  }

  /** Renders the board line by line, rank 8 first. */
  method String(b: Bitboard) returns (s: string)
    ensures s == Render(b)
  {
    s := "";
    for r := 8 downto 0
      invariant s == Lines(Rows(b)[..8 - r])
    {
      var line := RankLine(b, r);
      LineStep(Rows(b), 7 - r);
      s := s + line + "\n";
    }
    LinesAt(Rows(b), 0, 0);
    assert Rows(b)[..8] == Rows(b);
    s := s[..|s| - 1];
  }
}
