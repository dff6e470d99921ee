/**
 * Squares as file/rank pairs (chessboard/square.go). `File` and `Rank` are
 * Go `uint8`s, so conversions into them wrap modulo 256.
 */
module Squares {
  import opened Bitboards
  import opened GoInt
  import Pieces

  type Uint8 = x: int | 0 <= x < 256

  datatype Square = Square(file: Uint8, rank: Uint8)

  /** On the board: file A..H and rank 1..8. */
  predicate OnBoard(s: Square)
  {
    s.file < 8 && s.rank < 8
  }

  /** The bit that encodes the square: rank * 8 + file. */
  function Index(s: Square): (i: int)
    ensures 0 <= i <= 255 * 8 + 255
    ensures OnBoard(s) ==> 0 <= i < 64 && i % 8 == s.file && i / 8 == s.rank
  {
    s.rank * 8 + s.file
  }

  /** `1 << Index(s)` on a 64-bit word; Go shifts of 64 or more give 0. */
  function SquareBitboard(s: Square): Bitboard
  {
    if Index(s) < 64 then SquareBit(IndexSq(Index(s))) else 0
  }

  /** The bitboard of a square has exactly one square set, the one at
      `Index(s)`, and none when the index is off the 64-bit word. */
  lemma SquareBitboardHas(s: Square, t: Sq)
    ensures Has(SquareBitboard(s), t) <==> t as int == Index(s)
  {
    if Index(s) < 64 {
      var q := IndexSq(Index(s));
      SquareBitHas(q, t);
      SqAsInt(t, q);
    } else {
      EmptyHasNothing(t);
    }
  }

  /** Converts a square index; Go's `%` and `/` truncate and the conversion
      to `uint8` wraps. */
  function SquareFromIndex(index: int): Square
  {
    Square(GoRem(index, 8) % 256, GoDiv(index, 8) % 256)
  }

  lemma IndexRoundTrip(i: int)
    requires 0 <= i < 64
    ensures OnBoard(SquareFromIndex(i)) && Index(SquareFromIndex(i)) == i
  {
    GoDivNonNegative(i, 8);
  }

  /** Any file below 8 survives the round trip, whatever the rank. */
  lemma SquareRoundTrip(s: Square)
    requires s.file < 8
    ensures SquareFromIndex(Index(s)) == s
  {
    GoDivNonNegative(Index(s), 8);
  }

  /** Different squares on the board have different bitboards. */
  lemma SquareBitboardInjective(s: Square, t: Square)
    requires OnBoard(s) && OnBoard(t) && s != t
    ensures SquareBitboard(s) != SquareBitboard(t)
  {
    var q := IndexSq(Index(s));
    SquareBitboardHas(s, q);
    SquareBitboardHas(t, q);
  }

  lemma SquareBitboardA1()
    ensures SquareBitboard(Square(0, 0)) == 1
  {
  }

  lemma SquareBitboardD3()
    ensures SquareBitboard(Square(3, 2)) == 524_288
  {
  }

  lemma SquareBitboardH8()
    ensures SquareBitboard(Square(7, 7)) == 0x8000_0000_0000_0000
  {
  }

  /** The decimal digits of `n`. */
  function Decimal(n: nat): (r: string)
    ensures |r| >= 1
    ensures n < 10 ==> r == [('0' as int + n) as char]
    decreases n
  {
    if n < 10 then [('0' as int + n) as char] else Decimal(n / 10) + Decimal(n % 10)
  }

  /** The file letter followed by the 1-based rank; `Rank + 1` is computed
      in `uint8` and wraps. */
  function Name(s: Square): string
  {
    [(65 + s.file) as char] + Decimal((s.rank + 1) % 256)
  }

  /** A square on the board is named by a letter A..H and a digit 1..8. */
  lemma NameOnBoard(s: Square)
    requires OnBoard(s)
    ensures |Name(s)| == 2
    ensures 'A' <= Name(s)[0] <= 'H' && Name(s)[0] as int - 'A' as int == s.file
    ensures '1' <= Name(s)[1] <= '8' && Name(s)[1] as int - '1' as int == s.rank
  {
  }

  /** Names tell squares on the board apart. */
  lemma NameInjective(s: Square, t: Square)
    requires OnBoard(s) && OnBoard(t) && Name(s) == Name(t)
    ensures s == t
  {
    NameOnBoard(s);
    NameOnBoard(t);
  }

  /** Squares whose file and rank sum is even are dark. */
  function SquareColor(s: Square): (c: int)
    ensures c == Pieces.BlackColor || c == Pieces.WhiteColor
  {
    if (s.file + s.rank) % 2 == 0 then Pieces.BlackColor else Pieces.WhiteColor
  }

  /** Neighbours along a rank or a file have opposite colours. */
  lemma ColorAlternates(s: Square, t: Square)
    requires (t.file == s.file + 1 && t.rank == s.rank) || (t.file == s.file && t.rank == s.rank + 1)
    ensures SquareColor(t) == -SquareColor(s)
  {
  }

  lemma SquareColorExamples()
    ensures SquareColor(Square(0, 0)) == Pieces.BlackColor
    ensures SquareColor(Square(3, 2)) == Pieces.WhiteColor
    ensures SquareColor(Square(7, 7)) == Pieces.BlackColor
  {
  }
}
