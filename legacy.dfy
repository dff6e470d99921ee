/**
 * The older copies of the piece and square types at the repository root
 * (piece.go, square.go). They are separate definitions; the lemmas here show
 * they agree with the chessboard package.
 */
module LegacyPieces {
  import opened Outcomes
  import Pieces

  const NoPiece: int := 0
  const WhiteKing: int := 1
  const WhiteQueen: int := 2
  const WhiteRook: int := 3
  const WhiteBishop: int := 4
  const WhiteKnight: int := 5
  const WhitePawn: int := 6
  const BlackKing: int := 7
  const BlackQueen: int := 8
  const BlackRook: int := 9
  const BlackBishop: int := 10
  const BlackKnight: int := 11
  const BlackPawn: int := 12

  const WhiteColor: int := 1
  const BlackColor: int := -1
  const NoColor: int := 0

  function PieceName(p: int): (r: Option<string>)
    ensures r.Some? <==> NoPiece <= p <= BlackPawn
  {
    match p
    case 0 => Some("-")
    case 1 => Some("\U{265A}")
    case 2 => Some("\U{265B}")
    case 3 => Some("\U{265C}")
    case 4 => Some("\U{265D}")
    case 5 => Some("\U{265E}")
    case 6 => Some("\U{265F}\U{FE0E}")
    case 7 => Some("\U{2654}")
    case 8 => Some("\U{2655}")
    case 9 => Some("\U{2656}")
    case 10 => Some("\U{2657}")
    case 11 => Some("\U{2658}")
    case 12 => Some("\U{2659}")
    case _ => None
  }

  function PieceColor(p: int): (r: Option<int>)
    ensures r.Some? <==> NoPiece <= p <= BlackPawn
    ensures r == Some(NoColor) <==> p == NoPiece
    ensures r == Some(WhiteColor) <==> WhiteKing <= p <= WhitePawn
    ensures r == Some(BlackColor) <==> BlackKing <= p <= BlackPawn
  {
    match p
    case 0 => Some(NoColor)
    case 1 => Some(WhiteColor)
    case 2 => Some(WhiteColor)
    case 3 => Some(WhiteColor)
    case 4 => Some(WhiteColor)
    case 5 => Some(WhiteColor)
    case 6 => Some(WhiteColor)
    case 7 => Some(BlackColor)
    case 8 => Some(BlackColor)
    case 9 => Some(BlackColor)
    case 10 => Some(BlackColor)
    case 11 => Some(BlackColor)
    case 12 => Some(BlackColor)
    case _ => None
  }

  lemma PieceNamesDistinct(p: int, q: int)
    requires NoPiece <= p <= BlackPawn && NoPiece <= q <= BlackPawn && p != q
    ensures PieceName(p) != PieceName(q)
  {
  }

  /** The older enumeration is the chessboard one, constant for constant. */
  lemma SameConstants()
    ensures [NoPiece, WhiteKing, WhiteQueen, WhiteRook, WhiteBishop, WhiteKnight, WhitePawn,
             BlackKing, BlackQueen, BlackRook, BlackBishop, BlackKnight, BlackPawn] ==
            [Pieces.NoPiece, Pieces.WhiteKing, Pieces.WhiteQueen, Pieces.WhiteRook,
             Pieces.WhiteBishop, Pieces.WhiteKnight, Pieces.WhitePawn, Pieces.BlackKing,
             Pieces.BlackQueen, Pieces.BlackRook, Pieces.BlackBishop, Pieces.BlackKnight,
             Pieces.BlackPawn]
    ensures [WhiteColor, BlackColor, NoColor] == [Pieces.WhiteColor, Pieces.BlackColor, Pieces.NoColor]
  {
  }

  /** Names, colours and their failures agree with the chessboard package on every value. */
  lemma SameBehaviour(p: int)
    ensures PieceName(p) == Pieces.PieceName(p)
    ensures PieceColor(p) == Pieces.PieceColor(p)
  {
  }
}

module LegacySquares {
  import opened Bitboards
  import Squares

  datatype Square = Square(file: Squares.Uint8, rank: Squares.Uint8)

  /** `1 << (rank * 8 + file)`; Go shifts of 64 or more give 0. */
  function SquareBitboard(s: Square): Bitboard
  {
    var i := s.rank * 8 + s.file;
    if i < 64 then SquareBit(IndexSq(i)) else 0
  }

  function Name(s: Square): string
  {
    [(65 + s.file) as char] + Squares.Decimal((s.rank + 1) % 256)
  }

  /** On the board, the bitboard has exactly the square rank * 8 + file set. */
  lemma SquareBitboardHas(s: Square, t: Sq)
    requires s.file < 8 && s.rank < 8
    ensures Has(SquareBitboard(s), t) <==> t as int == s.rank * 8 + s.file
  {
    var q := Squares.Square(s.file, s.rank);
    assert SquareBitboard(s) == Squares.SquareBitboard(q);
    Squares.SquareBitboardHas(q, t);
  }

  /** Different squares on the board have different bitboards. */
  lemma SquareBitboardInjective(s: Square, t: Square)
    requires s.file < 8 && s.rank < 8 && t.file < 8 && t.rank < 8 && s != t
    ensures SquareBitboard(s) != SquareBitboard(t)
  {
    Squares.SquareBitboardInjective(Squares.Square(s.file, s.rank), Squares.Square(t.file, t.rank));
  }

  lemma SquareBitboardA1()
    ensures SquareBitboard(Square(0, 0)) == 1
  {
  }

  lemma SquareBitboardD3()
    ensures SquareBitboard(Square(3, 2)) == 524_288
  {
  }

  lemma SquareBitboardH8()
    ensures SquareBitboard(Square(7, 7)) == 0x8000_0000_0000_0000
  {
  }

  /** A square on the board is named by its file letter and rank digit. */
  lemma NameOnBoard(s: Square)
    requires s.file < 8 && s.rank < 8
    ensures Name(s) == [(65 + s.file) as char, ('1' as int + s.rank) as char]
  {
  }
}
