/**
 * The invariant tying the summaries of a board to its piece bitboards
 * (chessboard/board.go): every square lies on at most one piece bitboard,
 * and the white, black and empty summaries say which colour, if any, that
 * piece has. `FillSupportBitboards` establishes it and `Move` keeps it.
 */
module BoardInvariant {
  import opened Bitboards
  import opened Pieces
  import opened Boards
  import opened BoardFacts

  /** Square `s` lies on the bitboard of `p` and on no other; for no piece,
      on none of them. */
  predicate HoldsOnly(ps: PieceBoards, s: Sq, p: PieceCode)
  {
    forall i :: 0 <= i < 12 ==> (Has(ps[i], s) <==> i == p - 1)
  }

  /** The summaries at `s` are those of a square holding `p`. */
  predicate SummariesAgree(b: BoardState, s: Sq, p: PieceCode)
  {
    && (Has(b.whiteSquares, s) <==> WhiteKing <= p <= WhitePawn)
    && (Has(b.blackSquares, s) <==> BlackKing <= p <= BlackPawn)
    && (Has(b.emptySquares, s) <==> p == NoPiece)
  }

  /** Square `s` of `b` holds exactly `p`, and the summaries say so. */
  predicate SquareHolds(b: BoardState, s: Sq, p: PieceCode)
  {
    HoldsOnly(b.pieces, s, p) && SummariesAgree(b, s, p)
  }

  predicate ConsistentAt(b: BoardState, s: Sq)
  {
    SquareHolds(b, s, PieceAt(b, s))
  }

  ghost predicate Consistent(b: BoardState)
  {
    forall s: Sq :: ConsistentAt(b, s)
  }

  /** No square lies on two piece bitboards. */
  predicate DisjointAt(ps: PieceBoards, s: Sq)
  {
    forall i, j :: 0 <= i < 12 && 0 <= j < 12 && Has(ps[i], s) && Has(ps[j], s) ==> i == j
  }

  ghost predicate Disjoint(ps: PieceBoards)
  {
    forall s: Sq :: DisjointAt(ps, s)
  }

  /** A square holding exactly `p` is reported as holding `p`. */
  lemma HoldsOnlyPieceAt(b: BoardState, s: Sq, p: PieceCode)
    requires HoldsOnly(b.pieces, s, p)
    ensures PieceAt(b, s) == p
  {
    if p != NoPiece {
      assert Has(b.pieces[p - 1], s);
    }
  }

  /** The first bitboard holding a square is its only one exactly when no
      two bitboards share it. */
  lemma HoldsOnlyIffDisjoint(b: BoardState, s: Sq)
    ensures HoldsOnly(b.pieces, s, PieceAt(b, s)) <==> DisjointAt(b.pieces, s)
  {
    var p := PieceAt(b, s);
    if DisjointAt(b.pieces, s) && p != NoPiece {
      forall i | 0 <= i < 12
        ensures Has(b.pieces[i], s) <==> i == p - 1
      {
        if Has(b.pieces[i], s) {
          assert Has(b.pieces[p - 1], s);
        }
      }
    }
  }

  /** The side summaries of a square that holds exactly `p`. */
  lemma OccupiedByColor(ps: PieceBoards, s: Sq, p: PieceCode)
    requires HoldsOnly(ps, s, p)
    ensures Occupied(ps, s, 0, 6) <==> WhiteKing <= p <= WhitePawn
    ensures Occupied(ps, s, 6, 12) <==> BlackKing <= p <= BlackPawn
  {
    if p != NoPiece {
      assert Has(ps[p - 1], s);
    }
  }

  // ---------------------------------------------------------------------------
  // FillSupportBitboards

  lemma FilledAt(b: BoardState, s: Sq)
    ensures ConsistentAt(Filled(b), s) <==> DisjointAt(b.pieces, s)
  {
    var f := Filled(b);
    assert f.pieces == b.pieces;
    var p := PieceAt(b, s);
    assert PieceAt(f, s) == p;
    HoldsOnlyIffDisjoint(b, s);
    if DisjointAt(b.pieces, s) {
      WhiteUnionHas(b.pieces, s);
      BlackUnionHas(b.pieces, s);
      UnoccupiedHas(WhiteUnion(b.pieces), BlackUnion(b.pieces), s);
      OccupiedByColor(b.pieces, s, p);
    }
  }

  /** After `FillSupportBitboards` the summaries agree with the piece
      bitboards exactly when no square lies on two of them. */
  lemma FilledConsistent(b: BoardState)
    ensures Consistent(Filled(b)) <==> Disjoint(b.pieces)
  {
    forall s: Sq
      ensures ConsistentAt(Filled(b), s) <==> DisjointAt(b.pieces, s)
    {
      FilledAt(b, s);
    }
  }

  lemma SummariesAt(b: BoardState, s: Sq)
    requires ConsistentAt(b, s)
    ensures Has(WhiteUnion(b.pieces), s) <==> Has(b.whiteSquares, s)
    ensures Has(BlackUnion(b.pieces), s) <==> Has(b.blackSquares, s)
    ensures Has(Unoccupied(WhiteUnion(b.pieces), BlackUnion(b.pieces)), s) <==> Has(b.emptySquares, s)
  {
    WhiteUnionHas(b.pieces, s);
    BlackUnionHas(b.pieces, s);
    UnoccupiedHas(WhiteUnion(b.pieces), BlackUnion(b.pieces), s);
    OccupiedByColor(b.pieces, s, PieceAt(b, s));
  }

  /** On a consistent board the summaries are what `FillSupportBitboards`
      would compute: recomputing them changes nothing. */
  lemma ConsistentSummariesFilled(b: BoardState)
    requires Consistent(b)
    ensures SummariesFilled(b) == b
  {
    var white := WhiteUnion(b.pieces);
    var black := BlackUnion(b.pieces);
    forall s: Sq
      ensures (Has(white, s) <==> Has(b.whiteSquares, s))
      ensures (Has(black, s) <==> Has(b.blackSquares, s))
      ensures (Has(Unoccupied(white, black), s) <==> Has(b.emptySquares, s))
    {
      SummariesAt(b, s);
    }
    Extensionality(white, b.whiteSquares);
    Extensionality(black, b.blackSquares);
    Extensionality(Unoccupied(white, black), b.emptySquares);
  }
}
