/**
 * Colours and pieces (chessboard/piece.go). Both are Go `int`s with named
 * constants; any other value makes `String`, `Other` and `Color` panic,
 * which is modelled as `None`.
 */
module Pieces {
  import opened Outcomes

  const WhiteColor: int := 1
  const BlackColor: int := -1
  const NoColor: int := 0

  predicate IsColor(c: int)
  {
    c == WhiteColor || c == BlackColor || c == NoColor
  }

  function ColorName(c: int): (r: Option<string>)
    ensures r.Some? <==> IsColor(c)
  {
    if c == WhiteColor then Some("White")
    else if c == BlackColor then Some("Black")
    else if c == NoColor then Some("NoColor")
    else None
  }

  /** The opposing colour; the encoding makes it the negation. */
  function Other(c: int): (r: Option<int>)
    ensures r.Some? <==> IsColor(c)
    ensures r.Some? ==> r.value == -c && IsColor(r.value)
  {
    if c == WhiteColor then Some(BlackColor)
    else if c == BlackColor then Some(WhiteColor)
    else if c == NoColor then Some(NoColor)
    else None
  }

  lemma OtherInvolution(c: int)
    requires IsColor(c)
    ensures Other(Other(c).value) == Some(c)
  {
  }

  lemma OtherSwaps()
    ensures Other(WhiteColor) == Some(BlackColor)
    ensures Other(BlackColor) == Some(WhiteColor)
    ensures Other(NoColor) == Some(NoColor)
  {
  }

  lemma ColorNamesDistinct(c: int, d: int)
    requires IsColor(c) && IsColor(d) && c != d
    ensures ColorName(c) != ColorName(d)
  {
  }

  const NoPiece: int := 0
  const WhiteKing: int := 1
  const WhiteQueen: int := 2
  const WhiteRook: int := 3
  const WhiteBishop: int := 4
  const WhiteKnight: int := 5
  const WhitePawn: int := 6
  const BlackKing: int := 7
  const BlackQueen: int := 8
  const BlackRook: int := 9
  const BlackBishop: int := 10
  const BlackKnight: int := 11
  const BlackPawn: int := 12

  /** A value of the enumeration. */
  type PieceCode = p: int | NoPiece <= p <= BlackPawn

  function PieceName(p: int): (r: Option<string>)
    ensures r.Some? <==> NoPiece <= p <= BlackPawn
  {
    if p == NoPiece then Some("-")
    else if p == WhiteKing then Some("\U{265A}")
    else if p == WhiteQueen then Some("\U{265B}")
    else if p == WhiteRook then Some("\U{265C}")
    else if p == WhiteBishop then Some("\U{265D}")
    else if p == WhiteKnight then Some("\U{265E}")
    else if p == WhitePawn then Some("\U{265F}\U{FE0E}")
    else if p == BlackKing then Some("\U{2654}")
    else if p == BlackQueen then Some("\U{2655}")
    else if p == BlackRook then Some("\U{2656}")
    else if p == BlackBishop then Some("\U{2657}")
    else if p == BlackKnight then Some("\U{2658}")
    else if p == BlackPawn then Some("\U{2659}")
    else None
  }

  /** The thirteen pieces have thirteen different glyphs. */
  lemma PieceNamesDistinct(p: PieceCode, q: PieceCode)
    requires p != q
    ensures PieceName(p) != PieceName(q)
  {
  }

  /** NoColor for NoPiece, white for codes 1 to 6, black for 7 to 12. */
  function PieceColor(p: int): (r: Option<int>)
    ensures r.Some? <==> NoPiece <= p <= BlackPawn
    ensures r == Some(NoColor) <==> p == NoPiece
    ensures r == Some(WhiteColor) <==> WhiteKing <= p <= WhitePawn
    ensures r == Some(BlackColor) <==> BlackKing <= p <= BlackPawn
  {
    if p == NoPiece then Some(NoColor)
    else if p == WhiteKing then Some(WhiteColor)
    else if p == WhiteQueen then Some(WhiteColor)
    else if p == WhiteRook then Some(WhiteColor)
    else if p == WhiteBishop then Some(WhiteColor)
    else if p == WhiteKnight then Some(WhiteColor)
    else if p == WhitePawn then Some(WhiteColor)
    else if p == BlackKing then Some(BlackColor)
    else if p == BlackQueen then Some(BlackColor)
    else if p == BlackRook then Some(BlackColor)
    else if p == BlackBishop then Some(BlackColor)
    else if p == BlackKnight then Some(BlackColor)
    else if p == BlackPawn then Some(BlackColor)
    else None
  }

  /** The black piece of the same kind is six codes further on. */
  lemma ColorPairs(p: int)
    requires WhiteKing <= p <= WhitePawn
    ensures PieceColor(p + 6) == Other(PieceColor(p).value)
  {
  }
}
