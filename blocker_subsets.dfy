/**
 * Enumerating blocker sets (bitboard_generators/rook.go and
 * bitboard_generators/bishop.go). The generators list the squares that may
 * hold a blocker as `choices` and count a number `k` from 0 up to
 * `2^len(choices)`; bit `i` of `k` says whether `choices[i]` is occupied.
 */
module BlockerSubsets {
  import opened Bitboards

  /** `2^n`, Go's `1 << n`. */
  function Pow2(n: nat): (p: nat)
    ensures p >= 1
  {
    if n == 0 then 1 else 2 * Pow2(n - 1)
  }

  /** Bit `i` of a non-negative `k`, Go's `k&(1<<i) != 0`. */
  predicate Bit(k: nat, i: nat)
  {
    if i == 0 then k % 2 == 1 else Bit(k / 2, i - 1)
  }

  /** No square is listed twice. */
  predicate Distinct(cs: seq<Sq>)
  {
    forall i, j :: 0 <= i < j < |cs| ==> cs[i] != cs[j]
  }

  /** The blockers named by bits `0 .. n-1` of `k`. */
  function BlockersUpTo(cs: seq<Sq>, k: nat, n: nat): Bitboard
    requires n <= |cs|
  {
    if n == 0 then 0
    else BlockersUpTo(cs, k, n - 1) | (if Bit(k, n - 1) then SquareBit(cs[n - 1]) else 0)
  }

  /** The blocker set that counter value `k` stands for. */
  function Blockers(cs: seq<Sq>, k: nat): Bitboard
  {
    BlockersUpTo(cs, k, |cs|)
  }

  /** Some `choices[i]` with `i < n` is `t` and has its bit set in `k`. */
  ghost predicate Named(cs: seq<Sq>, k: nat, n: nat, t: Sq)
    requires n <= |cs|
  {
    exists i :: 0 <= i < n && cs[i] == t && Bit(k, i)
  }

  /** One more bit of the counter: its choice joins the set when the bit is set. */
  lemma BlockersUpToNext(cs: seq<Sq>, k: nat, n: nat)
    requires n < |cs|
    ensures BlockersUpTo(cs, k, n + 1) == if Bit(k, n) then BlockersUpTo(cs, k, n) | SquareBit(cs[n]) else BlockersUpTo(cs, k, n)
  {
    if !Bit(k, n) {
      OrZero(BlockersUpTo(cs, k, n));
    }
  }

  lemma BlockersStep(cs: seq<Sq>, k: nat, n: nat, t: Sq)
    requires 0 < n <= |cs|
    ensures Has(BlockersUpTo(cs, k, n), t) <==> Has(BlockersUpTo(cs, k, n - 1), t) || (Bit(k, n - 1) && cs[n - 1] == t)
  {
    BlockersUpToNext(cs, k, n - 1);
    if Bit(k, n - 1) {
      OrHas(BlockersUpTo(cs, k, n - 1), SquareBit(cs[n - 1]), t);
      SquareBitHas(cs[n - 1], t);
    }
  }

  /** Bits `0 .. n-1` of `k` name exactly the squares they select. */
  lemma {:induction false} BlockersUpToHas(cs: seq<Sq>, k: nat, n: nat, t: Sq)
    requires n <= |cs|
    ensures Has(BlockersUpTo(cs, k, n), t) <==> Named(cs, k, n, t)
  {
    if n == 0 {
      EmptyHasNothing(t);
    } else {
      BlockersUpToHas(cs, k, n - 1, t);
      BlockersStep(cs, k, n, t);
      if Named(cs, k, n, t) && !Named(cs, k, n - 1, t) {
        var i :| 0 <= i < n && cs[i] == t && Bit(k, i);
        assert i == n - 1;
      }
    }
  }

  /** A counter value names exactly the choices whose bits it sets. */
  lemma BlockersHas(cs: seq<Sq>, k: nat, t: Sq)
    ensures Has(Blockers(cs, k), t) <==> exists i :: 0 <= i < |cs| && cs[i] == t && Bit(k, i)
  {
    BlockersUpToHas(cs, k, |cs|, t);
  }

  /** Every counter value names a subset of the choices. */
  lemma BlockersWithin(cs: seq<Sq>, k: nat, t: Sq)
    requires Has(Blockers(cs, k), t)
    ensures t in cs
  {
    BlockersHas(cs, k, t);
  }

  /**
   * The inner loop of the generators: set the blockers named by the bits
   * of `k`, one choice at a time.
   */
  method SelectBlockers(cs: seq<Sq>, k: nat) returns (blockers: Bitboard)
    ensures blockers == Blockers(cs, k)
  {
    blockers := 0;
    var i := 0;
    while i < |cs|
      invariant 0 <= i <= |cs|
      invariant blockers == BlockersUpTo(cs, k, i)
    {
      BlockersUpToNext(cs, k, i);
      if Bit(k, i) {
        blockers := blockers | SquareBit(cs[i]);
      }
      i := i + 1;
    }
  }

  // ---------------------------------------------------------------------------
  // Every blocker set is counted

  /** The counter value that stands for the blocker set `b`: bit `i` set when `choices[i]` is in `b`. */
  function Code(b: Bitboard, cs: seq<Sq>): nat
  {
    if |cs| == 0 then 0 else (if Has(b, cs[0]) then 1 else 0) + 2 * Code(b, cs[1..])
  }

  lemma {:induction false} ZeroHasNoBits(j: nat)
    ensures !Bit(0, j)
  {
    if j > 0 {
      ZeroHasNoBits(j - 1);
    }
  }

  /** Bit `j` of the code of `b` says whether `choices[j]` is in `b`. */
  lemma {:induction false} CodeBits(b: Bitboard, cs: seq<Sq>, j: nat)
    ensures Code(b, cs) < Pow2(|cs|)
    ensures Bit(Code(b, cs), j) <==> j < |cs| && Has(b, cs[j])
  {
    if |cs| == 0 {
      ZeroHasNoBits(j);
    } else {
      CodeBits(b, cs[1..], if j == 0 then 0 else j - 1);
    }
  }

  /**
   * Every blocker set made of choices is counted: its code is below
   * `2^len(choices)`, and the counter stands for exactly that set.
   */
  lemma CodeRecovers(b: Bitboard, cs: seq<Sq>)
    requires forall t: Sq :: Has(b, t) ==> t in cs
    ensures Code(b, cs) < Pow2(|cs|)
    ensures Blockers(cs, Code(b, cs)) == b
  {
    var k := Code(b, cs);
    CodeBits(b, cs, 0);
    forall t: Sq
      ensures Has(Blockers(cs, k), t) <==> Has(b, t)
    {
      BlockersHas(cs, k, t);
      if Has(b, t) {
        var i :| 0 <= i < |cs| && cs[i] == t;
        CodeBits(b, cs, i);
      }
      if Has(Blockers(cs, k), t) {
        var i :| 0 <= i < |cs| && cs[i] == t && Bit(k, i);
        CodeBits(b, cs, i);
      }
    }
    Extensionality(Blockers(cs, k), b);
  }
}
