/**
 * A move: origin and target square, promotion piece, and the flags that
 * move generation attaches and the board reads when it applies the move.
 */
module Moves {
  import opened Bitboards
  import opened Pieces
  import Squares

  datatype Flag =
    | ResetHalfMoveClock
    | IsCapture
    | DoublePawnPush
    | WhiteKingCastle
    | WhiteQueenCastle
    | BlackKingCastle
    | BlackQueenCastle
    | WhiteEnPassant
    | BlackEnPassant

  datatype Move = Move(from: Sq, to: Sq, promotion: PieceCode, flags: set<Flag>)

  /** The name of an index square, e.g. "E4". */
  function SquareName(s: Sq): (r: string)
    ensures |r| == 2
  {
    Squares.IndexRoundTrip(s as int);
    Squares.NameOnBoard(Squares.SquareFromIndex(s as int));
    Squares.Name(Squares.SquareFromIndex(s as int))
  }

  lemma SquareNameInjective(s: Sq, t: Sq)
    requires SquareName(s) == SquareName(t)
    ensures s == t
  {
    var i, j := s as int, t as int;
    var a, b := Squares.SquareFromIndex(i), Squares.SquareFromIndex(j);
    Squares.IndexRoundTrip(i);
    Squares.IndexRoundTrip(j);
    Squares.NameInjective(a, b);
    assert i == j by {
      assert Squares.Index(a) == i && Squares.Index(b) == j;
    }
    SqAsInt(s, t);
  }

  /** "from-to", followed by "=" and the promotion glyph when there is one. */
  function MoveName(m: Move): string
  {
    var base := SquareName(m.from) + "-" + SquareName(m.to);
    if m.promotion != NoPiece then base + "=" + PieceName(m.promotion).value else base
  }

  /** The rendering has a fixed layout: name, dash, name, and either nothing
      or "=" followed by the glyph. */
  lemma MoveNameLayout(m: Move)
    ensures |MoveName(m)| >= 5
    ensures MoveName(m)[..2] == SquareName(m.from) && MoveName(m)[2] == '-'
    ensures MoveName(m)[3..5] == SquareName(m.to)
    ensures m.promotion == NoPiece <==> |MoveName(m)| == 5
    ensures m.promotion != NoPiece ==> MoveName(m)[5] == '=' && MoveName(m)[6..] == PieceName(m.promotion).value
  {
    var base := SquareName(m.from) + "-" + SquareName(m.to);
    assert |base| == 5;
    if m.promotion != NoPiece {
      assert |PieceName(m.promotion).value| >= 1;
    }
  }

  /** Two moves render the same iff they agree on origin, target and promotion. */
  lemma MoveNameInjective(m: Move, n: Move)
    ensures MoveName(m) == MoveName(n) <==> (m.from == n.from && m.to == n.to && m.promotion == n.promotion)
  {
    if MoveName(m) == MoveName(n) {
      MoveNameLayout(m);
      MoveNameLayout(n);
      SquareNameInjective(m.from, n.from);
      SquareNameInjective(m.to, n.to);
      if m.promotion != n.promotion {
        if m.promotion != NoPiece && n.promotion != NoPiece {
          PieceNamesDistinct(m.promotion, n.promotion);
        }
      }
    }
  }

  /** Flags do not show in the rendering. */
  lemma FlagsNotRendered(m: Move, flags: set<Flag>)
    ensures MoveName(m.(flags := flags)) == MoveName(m)
  {
    MoveNameInjective(m, m.(flags := flags));
  }

  lemma MoveNameExample()
    ensures MoveName(Move(12, 28, NoPiece, {ResetHalfMoveClock, DoublePawnPush})) == "E2-E4"
  {
  }
}
