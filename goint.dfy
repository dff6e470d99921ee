/**
 * Go integer division. Go's `/` on signed integers truncates toward zero and
 * `%` takes the sign of the dividend, whereas Dafny's `/` and `%` are
 * Euclidean; these functions give the Go results.
 */
module GoInt {

  function Abs(x: int): (r: nat)
    ensures r == x || r == -x
  {
    if x < 0 then -x else x
  }

  /** Go's `a / b`: the quotient truncated toward zero. */
  function GoDiv(a: int, b: int): (q: int)
    requires b != 0
    ensures Abs(q) * Abs(b) <= Abs(a) < (Abs(q) + 1) * Abs(b)
    ensures q == 0 || (q < 0 <==> (a < 0) != (b < 0))
  {
    var m := Abs(a) / Abs(b);
    DivBounds(Abs(a), Abs(b));
    if (a < 0) != (b < 0) then -m else m
  }

  lemma DivBounds(x: nat, y: nat)
    requires y > 0
    ensures (x / y) * y <= x < (x / y + 1) * y
  {
    assert x == (x / y) * y + x % y;
  }

  /** Go's `a % b`: the remainder of the truncated quotient. */
  function GoRem(a: int, b: int): (r: int)
    requires b != 0
    ensures a == GoDiv(a, b) * b + r
    ensures Abs(r) < Abs(b)
    ensures r == 0 || (r < 0 <==> a < 0)
  {
    a - GoDiv(a, b) * b
  }

  /** Truncation is symmetric: negating the dividend negates the quotient,
      which Euclidean division does not satisfy (-1 / 2 is -1 there). */
  lemma GoDivNegate(a: int, b: int)
    requires b != 0
    ensures GoDiv(-a, b) == -GoDiv(a, b)
  {
  }

  /** On non-negative operands Go and Dafny agree. */
  lemma GoDivNonNegative(a: int, b: int)
    requires a >= 0 && b > 0
    ensures GoDiv(a, b) == a / b && GoRem(a, b) == a % b
  {
  }

  lemma GoDivExamples()
    ensures GoDiv(-7, 2) == -3 && GoRem(-7, 2) == -1
    ensures GoDiv(7, -2) == -3 && GoRem(7, -2) == 1
  {
  }

  // ---------------------------------------------------------------------------
  // Conversions to fixed-width words

  /** The word counted up to `n` one step at a time: it has the value `n`. */
  ghost function Word8(n: nat): (w: bv8)
    requires n < 0x100
    ensures w as int == n
  {
    if n == 0 then 0 else Next8(Word8(n - 1)); Word8(n - 1) + 1
  }

  lemma Next8(w: bv8)
    requires w < 0xFF
    ensures (w + 1) as int == w as int + 1
  {
  }

  lemma Back8(w: bv8)
    ensures (w as int) as bv8 == w
  {
  }

  /** `n as bv8` keeps the value of an `n` in 0..255. */
  lemma ToEightBits(n: int)
    requires 0 <= n < 0x100
    ensures (n as bv8) as int == n
  {
    Back8(Word8(n));
  }

  /** The word made of the bytes of `n`: it has the value `n`. */
  ghost function Word16(n: nat): (w: bv16)
    requires n < 0x1_0000
    ensures w as int == n
  {
    var hi, lo := Word8(n / 0x100), Word8(n % 0x100);
    Bytes16(hi, lo);
    ((hi as bv16) << 8) | (lo as bv16)
  }

  lemma Bytes16(hi: bv8, lo: bv8)
    ensures (((hi as bv16) << 8) | (lo as bv16)) as int == 0x100 * (hi as int) + lo as int
  {
  }

  lemma Back16(w: bv16)
    ensures (w as int) as bv16 == w
  {
  }

  /** `n as bv16` keeps the value of an `n` in 0..65535. */
  lemma ToSixteenBits(n: int)
    requires 0 <= n < 0x1_0000
    ensures (n as bv16) as int == n
  {
    Back16(Word16(n));
  }
}
