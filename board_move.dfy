/**
 * What `Board.Move` (chessboard/board.go) does to a consistent board, square
 * by square: the three stages of the method (relocation, the castling rook,
 * the en passant capture) each keep the invariant and change the piece on a
 * square in a way stated by a small function on piece codes.
 */
module BoardMove {
  import opened Outcomes
  import opened Bitboards
  import opened Pieces
  import opened Zobrist
  import opened Boards
  import opened BoardFacts
  import opened BoardInvariant
  import Moves

  // ---------------------------------------------------------------------------
  // Relocation: `from` and `to` cleared everywhere, `piece` placed on `to`

  /** The piece on `s` after `piece` goes from `from` to `to`, when `p` was there. */
  function AfterRelocation(p: PieceCode, from: Sq, to: Sq, piece: PieceCode, s: Sq): PieceCode
  {
    if s == to then piece else if s == from then NoPiece else p
  }

  /** One piece bitboard after relocation, at one square. */
  lemma RelocatedBoardAt(ps: PieceBoards, from: Sq, to: Sq, piece: PieceCode, s: Sq, i: int)
    requires piece != NoPiece && 0 <= i < 12
    ensures Has(PlacedAll(ClearedAll(ps, from, to), piece, to)[i], s) <==>
      (i == piece - 1 && s == to) || (Has(ps[i], s) && s != from && s != to)
  {
    var c := ClearedAll(ps, from, to);
    var x := c[i];
    assert x == Cleared(ps[i], from, to);
    ClearedHas(ps[i], from, to, s);
    if i == piece - 1 {
      PlacedHas(x, to, s);
    }
  }

  lemma RelocatedPiecesAt(b: BoardState, from: Sq, to: Sq, piece: PieceCode, s: Sq, p: PieceCode)
    requires piece != NoPiece
    requires HoldsOnly(b.pieces, s, p)
    ensures HoldsOnly(Relocated(b, from, to, piece).pieces, s, AfterRelocation(p, from, to, piece, s))
  {
    var n := PlacedAll(ClearedAll(b.pieces, from, to), piece, to);
    forall i | 0 <= i < 12
      ensures Has(n[i], s) <==> i + 1 == AfterRelocation(p, from, to, piece, s)
    {
      RelocatedBoardAt(b.pieces, from, to, piece, s, i);
    }
  }

  lemma SideAfterMoveHas(side: Bitboard, from: Sq, to: Sq, moving: bool, s: Sq)
    ensures moving ==> (Has(SideAfterMove(side, from, to, moving), s) <==> (Has(side, s) || s == to) != (s == from))
    ensures !moving ==> (Has(SideAfterMove(side, from, to, moving), s) <==> Has(side, s) && s != to)
  {
    if moving {
      EnteredHas(side, from, to, s);
    } else {
      CapturedHas(side, to, s);
    }
  }

  lemma RelocatedEmptyAt(b: BoardState, from: Sq, to: Sq, piece: PieceCode, s: Sq, p: PieceCode)
    requires piece != NoPiece && from != to
    requires Has(b.emptySquares, s) <==> p == NoPiece
    requires s == from ==> p != NoPiece
    ensures Has(Relocated(b, from, to, piece).emptySquares, s) <==> AfterRelocation(p, from, to, piece, s) == NoPiece
  {
    VacatedHas(b.emptySquares, from, to, s);
  }

  lemma RelocatedWhiteAt(b: BoardState, from: Sq, to: Sq, piece: PieceCode, s: Sq, p: PieceCode)
    requires piece != NoPiece && from != to
    requires Has(b.whiteSquares, s) <==> WhiteKing <= p <= WhitePawn
    requires s == from ==> PieceColor(p) == PieceColor(piece)
    ensures Has(Relocated(b, from, to, piece).whiteSquares, s) <==> WhiteKing <= AfterRelocation(p, from, to, piece, s) <= WhitePawn
  {
    SideAfterMoveHas(b.whiteSquares, from, to, PieceColor(piece) == Some(WhiteColor), s);
  }

  lemma RelocatedBlackAt(b: BoardState, from: Sq, to: Sq, piece: PieceCode, s: Sq, p: PieceCode)
    requires piece != NoPiece && from != to
    requires Has(b.blackSquares, s) <==> BlackKing <= p <= BlackPawn
    requires s == from ==> PieceColor(p) == PieceColor(piece)
    ensures Has(Relocated(b, from, to, piece).blackSquares, s) <==> BlackKing <= AfterRelocation(p, from, to, piece, s) <= BlackPawn
  {
    SideAfterMoveHas(b.blackSquares, from, to, PieceColor(piece) != Some(WhiteColor), s);
  }

  lemma RelocatedSummariesAt(b: BoardState, from: Sq, to: Sq, piece: PieceCode, s: Sq, p: PieceCode)
    requires piece != NoPiece && from != to
    requires SummariesAgree(b, s, p)
    requires s == from ==> PieceColor(p) == PieceColor(piece)
    ensures SummariesAgree(Relocated(b, from, to, piece), s, AfterRelocation(p, from, to, piece, s))
  {
    RelocatedEmptyAt(b, from, to, piece, s, p);
    RelocatedWhiteAt(b, from, to, piece, s, p);
    RelocatedBlackAt(b, from, to, piece, s, p);
  }

  // ---------------------------------------------------------------------------
  // Castling: the rook jumps from its corner to the square beside the king

  /** The piece on `s` after the castling rook of `flags` jumps, when `p` was there. */
  function AfterCastling(p: PieceCode, flags: set<Moves.Flag>, s: Sq): PieceCode
  {
    match CastlingRookJump(flags)
    case None => p
    case Some(j) => if s == j.dest then j.rook else if s == j.origin then NoPiece else p
  }

  /** The rook stands on its corner and the square it jumps to is free. */
  predicate RookReady(flags: set<Moves.Flag>, s: Sq, p: PieceCode)
  {
    match CastlingRookJump(flags)
    case None => true
    case Some(j) => (s == j.origin ==> p == j.rook) && (s == j.dest ==> p == NoPiece)
  }

  lemma RookJumpedPiecesAt(b: BoardState, j: RookJump, s: Sq, p: PieceCode)
    requires j.rook == WhiteRook || j.rook == BlackRook
    requires j.dest != j.origin
    requires HoldsOnly(b.pieces, s, p)
    requires s == j.origin ==> p == j.rook
    requires s == j.dest ==> p == NoPiece
    ensures HoldsOnly(RookJumped(b, j.rook, j.dest, j.origin).pieces, s,
                      if s == j.dest then j.rook else if s == j.origin then NoPiece else p)
  {
    JumpedHas(b.pieces[j.rook - 1], j.dest, j.origin, s);
  }

  lemma SideAfterJumpHas(side: Bitboard, dest: Sq, origin: Sq, jumping: bool, s: Sq)
    ensures Has(SideAfterJump(side, dest, origin, jumping), s) <==>
      if jumping then (Has(side, s) || s == dest) != (s == origin) else Has(side, s)
  {
    if jumping {
      JumpedHas(side, dest, origin, s);
    }
  }

  lemma RookJumpedEmptyAt(b: BoardState, j: RookJump, s: Sq, p: PieceCode)
    requires j.rook == WhiteRook || j.rook == BlackRook
    requires j.dest != j.origin
    requires Has(b.emptySquares, s) <==> p == NoPiece
    requires s == j.origin ==> p == j.rook
    requires s == j.dest ==> p == NoPiece
    ensures Has(RookJumped(b, j.rook, j.dest, j.origin).emptySquares, s) <==>
      (if s == j.dest then j.rook else if s == j.origin then NoPiece else p) == NoPiece
  {
    UnblockedHas(b.emptySquares, j.dest, j.origin, s);
    if s == j.dest {
      assert Has(b.emptySquares, s);
    }
  }

  lemma RookJumpedWhiteAt(b: BoardState, j: RookJump, s: Sq, p: PieceCode)
    requires j.rook == WhiteRook || j.rook == BlackRook
    requires j.dest != j.origin
    requires Has(b.whiteSquares, s) <==> WhiteKing <= p <= WhitePawn
    requires s == j.origin ==> p == j.rook
    requires s == j.dest ==> p == NoPiece
    ensures Has(RookJumped(b, j.rook, j.dest, j.origin).whiteSquares, s) <==>
      WhiteKing <= (if s == j.dest then j.rook else if s == j.origin then NoPiece else p) <= WhitePawn
  {
    SideAfterJumpHas(b.whiteSquares, j.dest, j.origin, j.rook == WhiteRook, s);
  }

  lemma RookJumpedBlackAt(b: BoardState, j: RookJump, s: Sq, p: PieceCode)
    requires j.rook == WhiteRook || j.rook == BlackRook
    requires j.dest != j.origin
    requires Has(b.blackSquares, s) <==> BlackKing <= p <= BlackPawn
    requires s == j.origin ==> p == j.rook
    requires s == j.dest ==> p == NoPiece
    ensures Has(RookJumped(b, j.rook, j.dest, j.origin).blackSquares, s) <==>
      BlackKing <= (if s == j.dest then j.rook else if s == j.origin then NoPiece else p) <= BlackPawn
  {
    SideAfterJumpHas(b.blackSquares, j.dest, j.origin, j.rook == BlackRook, s);
  }

  lemma RookJumpedSummariesAt(b: BoardState, j: RookJump, s: Sq, p: PieceCode)
    requires j.rook == WhiteRook || j.rook == BlackRook
    requires j.dest != j.origin
    requires SummariesAgree(b, s, p)
    requires s == j.origin ==> p == j.rook
    requires s == j.dest ==> p == NoPiece
    ensures SummariesAgree(RookJumped(b, j.rook, j.dest, j.origin), s,
                           if s == j.dest then j.rook else if s == j.origin then NoPiece else p)
  {
    RookJumpedEmptyAt(b, j, s, p);
    RookJumpedWhiteAt(b, j, s, p);
    RookJumpedBlackAt(b, j, s, p);
  }

  lemma CastledAt(b: BoardState, flags: set<Moves.Flag>, s: Sq, p: PieceCode)
    requires SquareHolds(b, s, p)
    requires RookReady(flags, s, p)
    ensures SquareHolds(Castled(b, flags), s, AfterCastling(p, flags, s))
  {
    match CastlingRookJump(flags)
    case None =>
    case Some(j) =>
      RookJumpedPiecesAt(b, j, s, p);
      RookJumpedSummariesAt(b, j, s, p);
  }

  // ---------------------------------------------------------------------------
  // En passant: the pawn one rank behind the target leaves the board

  /** The square of the pawn taken en passant. A target on the edge rank
      gives a shift of 64 or more, which takes nothing. */
  function EnPassantVictim(to: Sq, flags: set<Moves.Flag>): (v: Option<Sq>)
    ensures v.Some? ==> v.value != to
  {
    if Moves.WhiteEnPassant in flags then
      (if to >= 8 then Some(to - 8) else None)
    else if Moves.BlackEnPassant in flags then
      (if to < 56 then Some(to + 8) else None)
    else None
  }

  /** The colour of pawn an en passant flag takes. */
  function EnPassantPawn(flags: set<Moves.Flag>): PieceCode
  {
    if Moves.WhiteEnPassant in flags then BlackPawn else WhitePawn
  }

  function AfterEnPassant(p: PieceCode, to: Sq, flags: set<Moves.Flag>, s: Sq): PieceCode
  {
    if EnPassantVictim(to, flags) == Some(s) then NoPiece else p
  }

  lemma PawnSquareHas(to: Sq, flags: set<Moves.Flag>, s: Sq)
    ensures Moves.WhiteEnPassant in flags ==>
      (Has(SquareBitboardOf(to - 8), s) <==> EnPassantVictim(to, flags) == Some(s))
    ensures Moves.WhiteEnPassant !in flags && Moves.BlackEnPassant in flags ==>
      (Has(SquareBitboardOf(to + 8), s) <==> EnPassantVictim(to, flags) == Some(s))
  {
    SquareBitboardOfHas(to - 8, s);
    SquareBitboardOfHas(to + 8, s);
  }

  lemma EnPassantPiecesAt(b: BoardState, to: Sq, flags: set<Moves.Flag>, s: Sq, p: PieceCode)
    requires HoldsOnly(b.pieces, s, p)
    requires EnPassantVictim(to, flags) == Some(s) ==> p == EnPassantPawn(flags)
    ensures HoldsOnly(EnPassantCaptured(b, to, flags).pieces, s, AfterEnPassant(p, to, flags, s))
  {
    PawnSquareHas(to, flags, s);
    if Moves.WhiteEnPassant in flags {
      ToggledHas(b.pieces[BlackPawn - 1], SquareBitboardOf(to - 8), s);
    } else if Moves.BlackEnPassant in flags {
      ToggledHas(b.pieces[WhitePawn - 1], SquareBitboardOf(to + 8), s);
    }
  }

  lemma EnPassantSummariesAt(b: BoardState, to: Sq, flags: set<Moves.Flag>, s: Sq, p: PieceCode)
    requires SummariesAgree(b, s, p)
    requires EnPassantVictim(to, flags) == Some(s) ==> p == EnPassantPawn(flags)
    ensures SummariesAgree(EnPassantCaptured(b, to, flags), s, AfterEnPassant(p, to, flags, s))
  {
    PawnSquareHas(to, flags, s);
    if Moves.WhiteEnPassant in flags {
      var pawn := SquareBitboardOf(to - 8);
      ToggledHas(b.blackSquares, pawn, s);
      FreedHas(b.emptySquares, pawn, s);
    } else if Moves.BlackEnPassant in flags {
      var pawn := SquareBitboardOf(to + 8);
      ToggledHas(b.whiteSquares, pawn, s);
      FreedHas(b.emptySquares, pawn, s);
    }
  }

  // ---------------------------------------------------------------------------
  // The whole move

  /** What `Move` needs of the board to keep it consistent: a piece on the
      origin, a different target, a promotion of the mover's colour, for
      castling the rook on its corner and a free square beside the king (both
      away from the king's own squares), and for en passant the enemy pawn
      behind the target, castling and en passant not both flagged. */
  predicate Applicable(b: BoardState, m: Moves.Move)
  {
    var mover := PieceAt(b, m.from);
    && mover != NoPiece
    && m.from != m.to
    && PieceColor(PlacedPiece(mover, m)) == PieceColor(mover)
    && (match CastlingRookJump(m.flags)
        case None => true
        case Some(j) =>
          && j.origin != m.from && j.origin != m.to && j.dest != m.from && j.dest != m.to
          && PieceAt(b, j.origin) == j.rook && PieceAt(b, j.dest) == NoPiece)
    && (match EnPassantVictim(m.to, m.flags)
        case None => true
        case Some(v) =>
          && v != m.from
          && PieceAt(b, v) == EnPassantPawn(m.flags)
          && CastlingRookJump(m.flags) == None)
  }

  /** The piece on `s` after `m`, read off the board before it: the moved or
      promoted piece on the target, nothing on the origin, the castling rook
      moved, the pawn taken en passant gone, every other square as it was. */
  function OccupantAfter(b: BoardState, m: Moves.Move, s: Sq): PieceCode
  {
    var piece := PlacedPiece(PieceAt(b, m.from), m);
    var p := AfterRelocation(PieceAt(b, s), m.from, m.to, piece, s);
    AfterEnPassant(AfterCastling(p, m.flags, s), m.to, m.flags, s)
  }

  /** The board `Move` produces from `b`. */
  function MovedBoard(b: BoardState, m: Moves.Move): BoardState
    requires PieceAt(b, m.from) != NoPiece
  {
    var piece := PlacedPiece(PieceAt(b, m.from), m);
    EnPassantCaptured(Castled(Relocated(b, m.from, m.to, piece), m.flags), m.to, m.flags)
  }

  lemma MovedBoardIsMoved(b: BoardState, m: Moves.Move, keys: ZobristKeys)
    requires PieceAt(b, m.from) != NoPiece
    ensures Moved(b, m, keys).Ok? && Moved(b, m, keys).value.board == MovedBoard(b, m)
  {
  }

  /** What each stage of `Move` needs at square `s` holds on an applicable move. */
  lemma StagesReady(b: BoardState, m: Moves.Move, s: Sq)
    requires Applicable(b, m)
    ensures var piece := PlacedPiece(PieceAt(b, m.from), m);
      var p1 := AfterRelocation(PieceAt(b, s), m.from, m.to, piece, s);
      && (s == m.from ==> PieceColor(PieceAt(b, s)) == PieceColor(piece))
      && RookReady(m.flags, s, p1)
      && (EnPassantVictim(m.to, m.flags) == Some(s) ==> AfterCastling(p1, m.flags, s) == EnPassantPawn(m.flags))
  {
  }

  lemma MovedAt(b: BoardState, m: Moves.Move, s: Sq)
    requires ConsistentAt(b, s)
    requires Applicable(b, m)
    ensures SquareHolds(MovedBoard(b, m), s, OccupantAfter(b, m, s))
  {
    var piece := PlacedPiece(PieceAt(b, m.from), m);
    var p0 := PieceAt(b, s);
    StagesReady(b, m, s);
    RelocatedPiecesAt(b, m.from, m.to, piece, s, p0);
    RelocatedSummariesAt(b, m.from, m.to, piece, s, p0);
    var b1 := Relocated(b, m.from, m.to, piece);
    var p1 := AfterRelocation(p0, m.from, m.to, piece, s);
    CastledAt(b1, m.flags, s, p1);
    var b2 := Castled(b1, m.flags);
    var p2 := AfterCastling(p1, m.flags, s);
    EnPassantPiecesAt(b2, m.to, m.flags, s, p2);
    EnPassantSummariesAt(b2, m.to, m.flags, s, p2);
  }

  /** `Move` keeps a consistent board consistent, and the piece it leaves on
      each square is the one `OccupantAfter` names. */
  lemma MoveKeepsConsistent(b: BoardState, m: Moves.Move)
    requires Consistent(b)
    requires Applicable(b, m)
    ensures Consistent(MovedBoard(b, m))
    ensures forall s: Sq :: PieceAt(MovedBoard(b, m), s) == OccupantAfter(b, m, s)
  {
    var a := MovedBoard(b, m);
    forall s: Sq
      ensures ConsistentAt(a, s) && PieceAt(a, s) == OccupantAfter(b, m, s)
    {
      MovedAt(b, m, s);
      HoldsOnlyPieceAt(a, s, OccupantAfter(b, m, s));
    }
  }

  /** The origin empties and the target holds the moved or promoted piece. */
  lemma OccupantsOfMove(b: BoardState, m: Moves.Move)
    requires Applicable(b, m)
    ensures OccupantAfter(b, m, m.from) == NoPiece
    ensures OccupantAfter(b, m, m.to) == PlacedPiece(PieceAt(b, m.from), m)
  {
  }

  /** The castling rook leaves its corner for the square beside the king,
      and the pawn taken en passant leaves its square. */
  lemma OccupantsOfSideEffects(b: BoardState, m: Moves.Move)
    requires Applicable(b, m)
    ensures CastlingRookJump(m.flags).Some? ==>
      var j := CastlingRookJump(m.flags).value;
      OccupantAfter(b, m, j.dest) == j.rook && OccupantAfter(b, m, j.origin) == NoPiece
    ensures EnPassantVictim(m.to, m.flags).Some? ==>
      OccupantAfter(b, m, EnPassantVictim(m.to, m.flags).value) == NoPiece
  {
  }

  /** Every square the move does not touch keeps its piece. */
  lemma OccupantsUntouched(b: BoardState, m: Moves.Move, s: Sq)
    requires s != m.from && s != m.to && !Touched(m, s)
    ensures OccupantAfter(b, m, s) == PieceAt(b, s)
  {
  }

  /** The squares a move touches, as the source describes them: the origin
      empties, the target holds the moved or promoted piece and no other
      piece bitboard holds it, the castling rook goes from its corner to the
      king's side, the pawn taken en passant leaves, and every other square
      keeps its piece. */
  lemma MoveSquares(b: BoardState, m: Moves.Move)
    requires Consistent(b)
    requires Applicable(b, m)
    ensures PieceAt(MovedBoard(b, m), m.from) == NoPiece
    ensures PieceAt(MovedBoard(b, m), m.to) == PlacedPiece(PieceAt(b, m.from), m)
    ensures HoldsOnly(MovedBoard(b, m).pieces, m.to, PlacedPiece(PieceAt(b, m.from), m))
    ensures CastlingRookJump(m.flags).Some? ==>
      var j := CastlingRookJump(m.flags).value;
      PieceAt(MovedBoard(b, m), j.dest) == j.rook && PieceAt(MovedBoard(b, m), j.origin) == NoPiece
    ensures EnPassantVictim(m.to, m.flags).Some? ==>
      PieceAt(MovedBoard(b, m), EnPassantVictim(m.to, m.flags).value) == NoPiece
    ensures forall s: Sq :: s != m.from && s != m.to && !Touched(m, s) ==>
      PieceAt(MovedBoard(b, m), s) == PieceAt(b, s)
  {
    MoveKeepsConsistent(b, m);
    SquaresAfter(b, m, MovedBoard(b, m));
  }

  lemma SquaresAfter(b: BoardState, m: Moves.Move, a: BoardState)
    requires Applicable(b, m)
    requires Consistent(a)
    requires forall s: Sq :: PieceAt(a, s) == OccupantAfter(b, m, s)
    ensures PieceAt(a, m.from) == NoPiece
    ensures PieceAt(a, m.to) == PlacedPiece(PieceAt(b, m.from), m)
    ensures HoldsOnly(a.pieces, m.to, PlacedPiece(PieceAt(b, m.from), m))
    ensures CastlingRookJump(m.flags).Some? ==>
      var j := CastlingRookJump(m.flags).value;
      PieceAt(a, j.dest) == j.rook && PieceAt(a, j.origin) == NoPiece
    ensures EnPassantVictim(m.to, m.flags).Some? ==>
      PieceAt(a, EnPassantVictim(m.to, m.flags).value) == NoPiece
    ensures forall s: Sq :: s != m.from && s != m.to && !Touched(m, s) ==>
      PieceAt(a, s) == PieceAt(b, s)
  {
    OccupantsOfMove(b, m);
    OccupantsOfSideEffects(b, m);
    forall s: Sq | s != m.from && s != m.to && !Touched(m, s)
      ensures OccupantAfter(b, m, s) == PieceAt(b, s)
    {
      OccupantsUntouched(b, m, s);
    }
    TargetHoldsOnly(a, m.to);
  }

  lemma TargetHoldsOnly(a: BoardState, s: Sq)
    requires Consistent(a)
    ensures HoldsOnly(a.pieces, s, PieceAt(a, s))
  {
    assert ConsistentAt(a, s);
  }

  /** A square a castling rook or an en passant capture changes. */
  predicate Touched(m: Moves.Move, s: Sq)
  {
    || (CastlingRookJump(m.flags).Some? && (s == CastlingRookJump(m.flags).value.dest || s == CastlingRookJump(m.flags).value.origin))
    || EnPassantVictim(m.to, m.flags) == Some(s)
  }

  // ---------------------------------------------------------------------------
  // King squares

  /** Each king stands on the square its field records, and on no other. */
  ghost predicate KingsOn(b: BoardState)
  {
    && b.whiteKingSquare < 64 && b.blackKingSquare < 64
    && forall s: Sq ::
      && (PieceAt(b, s) == WhiteKing <==> s == b.whiteKingSquare)
      && (PieceAt(b, s) == BlackKing <==> s == b.blackKingSquare)
  }

  lemma SingleSquareFound(k: Bitboard, t: Sq)
    requires forall s: Sq {:trigger Has(k, s)} :: Has(k, s) <==> s == t
    ensures KingSquareOf(k) == t
  {
    LowestFromIsLowest(k, 0);
    assert Has(k, t);
  }

  /** A consistent board whose king fields name the one square of each king
      bitboard keeps its kings on those fields. */
  lemma KingsOnSingletons(a: BoardState, wk: Sq, bk: Sq)
    requires Consistent(a)
    requires a.whiteKingSquare == wk && a.blackKingSquare == bk
    requires forall s: Sq {:trigger Has(a.pieces[WhiteKing - 1], s)} :: Has(a.pieces[WhiteKing - 1], s) <==> s == wk
    requires forall s: Sq {:trigger Has(a.pieces[BlackKing - 1], s)} :: Has(a.pieces[BlackKing - 1], s) <==> s == bk
    ensures KingsOn(a)
  {
    forall s: Sq
      ensures PieceAt(a, s) == WhiteKing <==> s == wk
      ensures PieceAt(a, s) == BlackKing <==> s == bk
    {
      assert ConsistentAt(a, s);
      assert Has(a.pieces[WhiteKing - 1], s) <==> s == wk;
      assert Has(a.pieces[BlackKing - 1], s) <==> s == bk;
    }
  }

  /** `FillSupportBitboards` finds the king squares of a board whose king
      bitboards each hold one square and whose piece bitboards are disjoint. */
  lemma FilledFindsKings(b: BoardState, wk: Sq, bk: Sq)
    requires Disjoint(b.pieces)
    requires forall s: Sq {:trigger Has(b.pieces[WhiteKing - 1], s)} :: Has(b.pieces[WhiteKing - 1], s) <==> s == wk
    requires forall s: Sq {:trigger Has(b.pieces[BlackKing - 1], s)} :: Has(b.pieces[BlackKing - 1], s) <==> s == bk
    ensures Filled(b).whiteKingSquare == wk && Filled(b).blackKingSquare == bk
    ensures KingsOn(Filled(b))
  {
    SingleSquareFound(b.pieces[WhiteKing - 1], wk);
    SingleSquareFound(b.pieces[BlackKing - 1], bk);
    FilledConsistent(b);
    KingsOnSingletons(Filled(b), wk, bk);
  }

  /** The king squares after a move: a king's field follows the king onto
      the target and no other field changes. */
  lemma MovedKingSquares(b: BoardState, m: Moves.Move)
    requires PieceAt(b, m.from) != NoPiece
    ensures var piece := PlacedPiece(PieceAt(b, m.from), m);
      && MovedBoard(b, m).whiteKingSquare == KingSquareAfterMove(b.whiteKingSquare, m.to, piece == WhiteKing)
      && MovedBoard(b, m).blackKingSquare == KingSquareAfterMove(b.blackKingSquare, m.to, piece == BlackKing)
  {
  }

  /** What a move needs to keep the king fields right: it captures no king,
      and only a pawn promotes, never to a king. */
  predicate KeepsKings(b: BoardState, m: Moves.Move)
  {
    && PieceAt(b, m.to) != WhiteKing && PieceAt(b, m.to) != BlackKing
    && m.promotion != WhiteKing && m.promotion != BlackKing
    && (m.promotion != NoPiece ==> PieceAt(b, m.from) == WhitePawn || PieceAt(b, m.from) == BlackPawn)
  }

  /** A square the castling rook or an en passant capture touches holds no
      king before the move. */
  lemma TouchedHeldNoKing(b: BoardState, m: Moves.Move, s: Sq)
    requires Touched(m, s)
    requires CastlingRookJump(m.flags).Some? ==>
      var j := CastlingRookJump(m.flags).value;
      PieceAt(b, j.dest) == NoPiece && PieceAt(b, j.origin) == j.rook
    requires EnPassantVictim(m.to, m.flags).Some? ==>
      var v := PieceAt(b, EnPassantVictim(m.to, m.flags).value);
      v == WhitePawn || v == BlackPawn
    ensures PieceAt(b, s) != WhiteKing && PieceAt(b, s) != BlackKing
  {
  }


  lemma CastlingSquaresHeld(b: BoardState, m: Moves.Move, j: RookJump)
    requires Applicable(b, m)
    requires CastlingRookJump(m.flags) == Some(j)
    ensures PieceAt(b, j.dest) == NoPiece && PieceAt(b, j.origin) == j.rook
  {
  }

  lemma VictimHeld(b: BoardState, m: Moves.Move, v: Sq)
    requires Applicable(b, m)
    requires EnPassantVictim(m.to, m.flags) == Some(v)
    ensures PieceAt(b, v) == WhitePawn || PieceAt(b, v) == BlackPawn
  {
  }


  /** ... nor after it: the rook, or nothing, stands there. */
  lemma TouchedHoldsNoKing(b: BoardState, m: Moves.Move, s: Sq)
    requires s != m.from && s != m.to && Touched(m, s)
    ensures OccupantAfter(b, m, s) != WhiteKing && OccupantAfter(b, m, s) != BlackKing
  {
  }

  /** What a move does to the occupant of one square: the origin empties,
      the target receives the placed piece, and any other square either
      keeps its occupant or holds no king before and after. */
  predicate SquareMoved(m: Moves.Move, s: Sq, mover: PieceCode, before: PieceCode, after: PieceCode)
  {
    && (s == m.from ==> after == NoPiece)
    && (s == m.to ==> after == PlacedPiece(mover, m))
    && (s != m.from && s != m.to ==>
          after == before || (before != WhiteKing && before != BlackKing && after != WhiteKing && after != BlackKing))
  }

  lemma SquareChange(b: BoardState, m: Moves.Move, s: Sq)
    requires Applicable(b, m)
    ensures SquareMoved(m, s, PieceAt(b, m.from), PieceAt(b, s), OccupantAfter(b, m, s))
  {
    OccupantsOfMove(b, m);
    if s != m.from && s != m.to {
      if Touched(m, s) {
        if CastlingRookJump(m.flags).Some? {
          CastlingSquaresHeld(b, m, CastlingRookJump(m.flags).value);
        }
        if EnPassantVictim(m.to, m.flags).Some? {
          VictimHeld(b, m, EnPassantVictim(m.to, m.flags).value);
        }
        TouchedHeldNoKing(b, m, s);
        TouchedHoldsNoKing(b, m, s);
      } else {
        OccupantsUntouched(b, m, s);
      }
    }
  }

  lemma MovedSquares(b: BoardState, m: Moves.Move, a: BoardState)
    requires Applicable(b, m)
    requires forall s: Sq :: PieceAt(a, s) == OccupantAfter(b, m, s)
    ensures forall s: Sq :: SquareMoved(m, s, PieceAt(b, m.from), PieceAt(b, s), PieceAt(a, s))
  {
    forall s: Sq
      ensures SquareMoved(m, s, PieceAt(b, m.from), PieceAt(b, s), PieceAt(a, s))
    {
      SquareChange(b, m, s);
    }
  }

  /** A move that keeps the kings moves a king exactly when it places one. */
  lemma KingPlaced(b: BoardState, m: Moves.Move, king: PieceCode)
    requires KeepsKings(b, m)
    requires king == WhiteKing || king == BlackKing
    ensures PieceAt(b, m.to) != king
    ensures PlacedPiece(PieceAt(b, m.from), m) == king <==> PieceAt(b, m.from) == king
  {
  }

  /** A king stands on `s` after the move exactly when `s` is the square its
      field names after the move, given what the move does to `s`. */
  lemma KingAt(b: BoardState, m: Moves.Move, king: PieceCode, k: Sq, s: Sq, after: PieceCode)
    requires KeepsKings(b, m)
    requires king == WhiteKing || king == BlackKing
    requires m.from != m.to
    requires PieceAt(b, s) == king <==> s == k
    requires PieceAt(b, m.from) == king ==> m.from == k
    requires SquareMoved(m, s, PieceAt(b, m.from), PieceAt(b, s), after)
    ensures after == king <==> s == KingSquareAfterMove(k, m.to, PlacedPiece(PieceAt(b, m.from), m) == king)
  {
    KingPlaced(b, m, king);
  }

  /** The kings of a board whose occupants are those `m` leaves and whose
      king fields are those `Move` leaves. */
  lemma KingTracked(b: BoardState, m: Moves.Move, a: BoardState, king: PieceCode, k: Sq)
    requires king == WhiteKing || king == BlackKing
    requires forall s: Sq :: PieceAt(b, s) == king <==> s == k
    requires m.from != m.to && KeepsKings(b, m)
    requires forall s: Sq :: SquareMoved(m, s, PieceAt(b, m.from), PieceAt(b, s), PieceAt(a, s))
    ensures forall s: Sq :: PieceAt(a, s) == king <==> s == KingSquareAfterMove(k, m.to, PlacedPiece(PieceAt(b, m.from), m) == king)
  {
    assert PieceAt(b, m.from) == king ==> m.from == k;
    forall s: Sq
      ensures PieceAt(a, s) == king <==> s == KingSquareAfterMove(k, m.to, PlacedPiece(PieceAt(b, m.from), m) == king)
    {
      KingAt(b, m, king, k, s, PieceAt(a, s));
    }
  }

  lemma KingsAfter(b: BoardState, m: Moves.Move, a: BoardState)
    requires KingsOn(b)
    requires m.from != m.to && KeepsKings(b, m)
    requires forall s: Sq :: SquareMoved(m, s, PieceAt(b, m.from), PieceAt(b, s), PieceAt(a, s))
    requires var piece := PlacedPiece(PieceAt(b, m.from), m);
      && a.whiteKingSquare == KingSquareAfterMove(b.whiteKingSquare, m.to, piece == WhiteKing)
      && a.blackKingSquare == KingSquareAfterMove(b.blackKingSquare, m.to, piece == BlackKing)
    ensures KingsOn(a)
  {
    KingTracked(b, m, a, WhiteKing, b.whiteKingSquare as Sq);
    KingTracked(b, m, a, BlackKing, b.blackKingSquare as Sq);
  }



  /** `Move` keeps the king fields on the kings. */
  lemma MoveTracksKings(b: BoardState, m: Moves.Move)
    requires Consistent(b) && KingsOn(b)
    requires Applicable(b, m) && KeepsKings(b, m)
    ensures KingsOn(MovedBoard(b, m))
  {
    MoveKeepsConsistent(b, m);
    MovedKingSquares(b, m);
    MovedSquares(b, m, MovedBoard(b, m));
    KingsAfter(b, m, MovedBoard(b, m));
  }

}
