/**
 * What `Board.Move` and `FillSupportBitboards` do to the squares of the
 * board (chessboard/board.go). Every fact is first stated square by square
 * (`Has`), then lifted to whole bitboards by extensionality.
 */
module BoardFacts {
  import opened Outcomes
  import opened Bitboards
  import opened Pieces
  import opened Boards
  import Moves

  // ---------------------------------------------------------------------------
  // The word updates, one square at a time. Each is proved on the bare word
  // expression with a case split on the squares involved, then carried over
  // to the named update.

  lemma TwoSquaresHas(from: Sq, to: Sq, s: Sq)
    ensures Has(SquareBit(from) | SquareBit(to), s) <==> s == from || s == to
  {
    OrHas(SquareBit(from), SquareBit(to), s);
    if s == from {
      SquareBitHas(from, s);
    } else if s == to {
      SquareBitHas(to, s);
    } else {
      SquareBitHas(from, s);
      SquareBitHas(to, s);
    }
  }

  lemma OrSquareHas(p: Bitboard, to: Sq, s: Sq)
    ensures Has(p | SquareBit(to), s) <==> Has(p, s) || s == to
  {
    OrHas(p, SquareBit(to), s);
    SquareBitHas(to, s);
  }

  lemma AndNotSquareHas(p: Bitboard, to: Sq, s: Sq)
    ensures Has(p & !SquareBit(to), s) <==> Has(p, s) && s != to
  {
    AndNotHas(p, SquareBit(to), s);
    SquareBitHas(to, s);
  }

  lemma XorSquareHas(p: Bitboard, to: Sq, s: Sq)
    ensures Has(p ^ SquareBit(to), s) <==> Has(p, s) != (s == to)
  {
    XorHas(p, SquareBit(to), s);
    SquareBitHas(to, s);
  }

  lemma AndNotTwoSquaresHas(p: Bitboard, from: Sq, to: Sq, s: Sq)
    ensures Has(p & !(SquareBit(from) | SquareBit(to)), s) <==> Has(p, s) && s != from && s != to
  {
    AndNotHas(p, SquareBit(from) | SquareBit(to), s);
    TwoSquaresHas(from, to, s);
  }

  lemma OrAndNotHas(e: Bitboard, from: Sq, to: Sq, s: Sq)
    ensures Has((e | SquareBit(from)) & !SquareBit(to), s) <==> (Has(e, s) || s == from) && s != to
  {
    AndNotSquareHas(e | SquareBit(from), to, s);
    OrSquareHas(e, from, s);
  }

  lemma OrXorHas(p: Bitboard, add: Sq, flip: Sq, s: Sq)
    ensures Has((p | SquareBit(add)) ^ SquareBit(flip), s) <==> (Has(p, s) || s == add) != (s == flip)
  {
    XorSquareHas(p | SquareBit(add), flip, s);
    OrSquareHas(p, add, s);
  }

  lemma XorOrHas(e: Bitboard, flip: Sq, add: Sq, s: Sq)
    ensures Has((e ^ SquareBit(flip)) | SquareBit(add), s) <==> (Has(e, s) != (s == flip)) || s == add
  {
    OrSquareHas(e ^ SquareBit(flip), add, s);
    XorSquareHas(e, flip, s);
  }

  lemma ClearedHas(p: Bitboard, from: Sq, to: Sq, s: Sq)
    ensures Has(Cleared(p, from, to), s) <==> Has(p, s) && s != from && s != to
  {
    AndNotTwoSquaresHas(p, from, to, s);
  }

  lemma PlacedHas(p: Bitboard, to: Sq, s: Sq)
    ensures Has(Placed(p, to), s) <==> Has(p, s) || s == to
  {
    OrSquareHas(p, to, s);
  }

  lemma VacatedHas(e: Bitboard, from: Sq, to: Sq, s: Sq)
    ensures Has(Vacated(e, from, to), s) <==> (Has(e, s) || s == from) && s != to
  {
    OrAndNotHas(e, from, to, s);
  }

  lemma EnteredHas(side: Bitboard, from: Sq, to: Sq, s: Sq)
    ensures Has(Entered(side, from, to), s) <==> (Has(side, s) || s == to) != (s == from)
  {
    OrXorHas(side, to, from, s);
  }

  lemma CapturedHas(side: Bitboard, to: Sq, s: Sq)
    ensures Has(Captured(side, to), s) <==> Has(side, s) && s != to
  {
    AndNotSquareHas(side, to, s);
  }

  lemma JumpedHas(p: Bitboard, dest: Sq, origin: Sq, s: Sq)
    ensures Has(Jumped(p, dest, origin), s) <==> (Has(p, s) || s == dest) != (s == origin)
  {
    OrXorHas(p, dest, origin, s);
  }

  lemma UnblockedHas(e: Bitboard, dest: Sq, origin: Sq, s: Sq)
    ensures Has(Unblocked(e, dest, origin), s) <==> (Has(e, s) != (s == dest)) || s == origin
  {
    XorOrHas(e, dest, origin, s);
  }

  lemma ToggledHas(p: Bitboard, pawn: Bitboard, s: Sq)
    ensures Has(Toggled(p, pawn), s) <==> Has(p, s) != Has(pawn, s)
  {
    XorHas(p, pawn, s);
  }

  lemma FreedHas(e: Bitboard, pawn: Bitboard, s: Sq)
    ensures Has(Freed(e, pawn), s) <==> Has(e, s) || Has(pawn, s)
  {
    OrHas(e, pawn, s);
  }

  lemma SquareBitboardOfHas(x: bv8, s: Sq)
    ensures Has(SquareBitboardOf(x), s) <==> x == s
  {
    if x < 64 {
      SquareBitHas(x, s);
    } else {
      EmptyHasNothing(s);
    }
  }

  // ---------------------------------------------------------------------------
  // The summaries, one square at a time. The union of six words is decided
  // square by square for literal squares, one rank per lemma: the same proof
  // over a symbolic square (`OrHas` five times) runs out of resource, and a
  // rank per lemma keeps each proof obligation small.

  lemma SixUnionHasRank1(a: Bitboard, b: Bitboard, c: Bitboard, d: Bitboard, e: Bitboard, f: Bitboard, s: Sq)
    requires 0 <= s < 8
    ensures Has(a | b | c | d | e | f, s) <==> Has(a, s) || Has(b, s) || Has(c, s) || Has(d, s) || Has(e, s) || Has(f, s)
  {
    if s == 0 {}
    else if s == 1 {}
    else if s == 2 {}
    else if s == 3 {}
    else if s == 4 {}
    else if s == 5 {}
    else if s == 6 {}
    else {}
  }

  lemma SixUnionHasRank2(a: Bitboard, b: Bitboard, c: Bitboard, d: Bitboard, e: Bitboard, f: Bitboard, s: Sq)
    requires 8 <= s < 16
    ensures Has(a | b | c | d | e | f, s) <==> Has(a, s) || Has(b, s) || Has(c, s) || Has(d, s) || Has(e, s) || Has(f, s)
  {
    if s == 8 {}
    else if s == 9 {}
    else if s == 10 {}
    else if s == 11 {}
    else if s == 12 {}
    else if s == 13 {}
    else if s == 14 {}
    else {}
  }

  lemma SixUnionHasRank3(a: Bitboard, b: Bitboard, c: Bitboard, d: Bitboard, e: Bitboard, f: Bitboard, s: Sq)
    requires 16 <= s < 24
    ensures Has(a | b | c | d | e | f, s) <==> Has(a, s) || Has(b, s) || Has(c, s) || Has(d, s) || Has(e, s) || Has(f, s)
  {
    if s == 16 {}
    else if s == 17 {}
    else if s == 18 {}
    else if s == 19 {}
    else if s == 20 {}
    else if s == 21 {}
    else if s == 22 {}
    else {}
  }

  lemma SixUnionHasRank4(a: Bitboard, b: Bitboard, c: Bitboard, d: Bitboard, e: Bitboard, f: Bitboard, s: Sq)
    requires 24 <= s < 32
    ensures Has(a | b | c | d | e | f, s) <==> Has(a, s) || Has(b, s) || Has(c, s) || Has(d, s) || Has(e, s) || Has(f, s)
  {
    if s == 24 {}
    else if s == 25 {}
    else if s == 26 {}
    else if s == 27 {}
    else if s == 28 {}
    else if s == 29 {}
    else if s == 30 {}
    else {}
  }

  lemma SixUnionHasRank5(a: Bitboard, b: Bitboard, c: Bitboard, d: Bitboard, e: Bitboard, f: Bitboard, s: Sq)
    requires 32 <= s < 40
    ensures Has(a | b | c | d | e | f, s) <==> Has(a, s) || Has(b, s) || Has(c, s) || Has(d, s) || Has(e, s) || Has(f, s)
  {
    if s == 32 {}
    else if s == 33 {}
    else if s == 34 {}
    else if s == 35 {}
    else if s == 36 {}
    else if s == 37 {}
    else if s == 38 {}
    else {}
  }

  lemma SixUnionHasRank6(a: Bitboard, b: Bitboard, c: Bitboard, d: Bitboard, e: Bitboard, f: Bitboard, s: Sq)
    requires 40 <= s < 48
    ensures Has(a | b | c | d | e | f, s) <==> Has(a, s) || Has(b, s) || Has(c, s) || Has(d, s) || Has(e, s) || Has(f, s)
  {
    if s == 40 {}
    else if s == 41 {}
    else if s == 42 {}
    else if s == 43 {}
    else if s == 44 {}
    else if s == 45 {}
    else if s == 46 {}
    else {}
  }

  lemma SixUnionHasRank7(a: Bitboard, b: Bitboard, c: Bitboard, d: Bitboard, e: Bitboard, f: Bitboard, s: Sq)
    requires 48 <= s < 56
    ensures Has(a | b | c | d | e | f, s) <==> Has(a, s) || Has(b, s) || Has(c, s) || Has(d, s) || Has(e, s) || Has(f, s)
  {
    if s == 48 {}
    else if s == 49 {}
    else if s == 50 {}
    else if s == 51 {}
    else if s == 52 {}
    else if s == 53 {}
    else if s == 54 {}
    else {}
  }

  lemma SixUnionHasRank8(a: Bitboard, b: Bitboard, c: Bitboard, d: Bitboard, e: Bitboard, f: Bitboard, s: Sq)
    requires 56 <= s < 64
    ensures Has(a | b | c | d | e | f, s) <==> Has(a, s) || Has(b, s) || Has(c, s) || Has(d, s) || Has(e, s) || Has(f, s)
  {
    if s == 56 {}
    else if s == 57 {}
    else if s == 58 {}
    else if s == 59 {}
    else if s == 60 {}
    else if s == 61 {}
    else if s == 62 {}
    else {}
  }

  lemma SixUnionHas(a: Bitboard, b: Bitboard, c: Bitboard, d: Bitboard, e: Bitboard, f: Bitboard, s: Sq)
    ensures Has(a | b | c | d | e | f, s) <==> Has(a, s) || Has(b, s) || Has(c, s) || Has(d, s) || Has(e, s) || Has(f, s)
  {
    if s < 8 { SixUnionHasRank1(a, b, c, d, e, f, s); }
    else if s < 16 { SixUnionHasRank2(a, b, c, d, e, f, s); }
    else if s < 24 { SixUnionHasRank3(a, b, c, d, e, f, s); }
    else if s < 32 { SixUnionHasRank4(a, b, c, d, e, f, s); }
    else if s < 40 { SixUnionHasRank5(a, b, c, d, e, f, s); }
    else if s < 48 { SixUnionHasRank6(a, b, c, d, e, f, s); }
    else if s < 56 { SixUnionHasRank7(a, b, c, d, e, f, s); }
    else { SixUnionHasRank8(a, b, c, d, e, f, s); }
  }

  /** Some piece bitboard among `lo .. hi - 1` holds `s`. */
  predicate Occupied(ps: PieceBoards, s: Sq, lo: int, hi: int)
    requires 0 <= lo <= hi <= 12
  {
    exists i :: lo <= i < hi && Has(ps[i], s)
  }

  lemma OccupiedSix(ps: PieceBoards, s: Sq, lo: int)
    requires lo == 0 || lo == 6
    ensures Occupied(ps, s, lo, lo + 6) <==>
      Has(ps[lo], s) || Has(ps[lo + 1], s) || Has(ps[lo + 2], s) || Has(ps[lo + 3], s) || Has(ps[lo + 4], s) || Has(ps[lo + 5], s)
  {
  }

  lemma SixUnionOfHas(a: Bitboard, b: Bitboard, c: Bitboard, d: Bitboard, e: Bitboard, f: Bitboard, s: Sq)
    ensures Has(SixUnion(a, b, c, d, e, f), s) <==> Has(a, s) || Has(b, s) || Has(c, s) || Has(d, s) || Has(e, s) || Has(f, s)
  {
    SixUnionHas(a, b, c, d, e, f, s);
  }

  lemma WhiteUnionHas(ps: PieceBoards, s: Sq)
    ensures Has(WhiteUnion(ps), s) <==> Occupied(ps, s, 0, 6)
  {
    SixUnionOfHas(ps[0], ps[1], ps[2], ps[3], ps[4], ps[5], s);
    OccupiedSix(ps, s, 0);
  }

  lemma BlackUnionHas(ps: PieceBoards, s: Sq)
    ensures Has(BlackUnion(ps), s) <==> Occupied(ps, s, 6, 12)
  {
    SixUnionOfHas(ps[6], ps[7], ps[8], ps[9], ps[10], ps[11], s);
    OccupiedSix(ps, s, 6);
  }

  lemma UnoccupiedHas(w: Bitboard, b: Bitboard, s: Sq)
    ensures Has(Unoccupied(w, b), s) <==> !Has(w, s) && !Has(b, s)
  {
    NorHas(w, b, s);
  }

  lemma NorHas(w: Bitboard, b: Bitboard, s: Sq)
    ensures Has(!(w | b), s) <==> !Has(w, s) && !Has(b, s)
  {
    NotHas(w | b, s);
    OrHas(w, b, s);
  }
}
