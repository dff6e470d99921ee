/**
 * The Zobrist delta `Move` returns (chessboard/board.go), read as the list
 * of (piece, square) placements whose keys it XORs together. A Zobrist
 * delta is right when every placement that appears or disappears is XORed
 * an odd number of times and every other placement an even number of
 * times. `Move` gets this right on every move except an en passant capture,
 * whose captured pawn is never XORed out.
 */
module BoardHash {
  import opened Outcomes
  import opened Bitboards
  import opened Pieces
  import opened Zobrist
  import opened Boards
  import opened BoardMove
  import Moves

  /** The delta as a list of placements. */
  function Placements(d: Delta): seq<Placement>
  {
    [d.moved, d.placed] + CapturedList(d.captured) + RookList(d.rook)
  }

  function CapturedList(c: Option<Placement>): seq<Placement>
  {
    match c
    case None => []
    case Some(x) => [x]
  }

  function RookList(r: Option<RookJump>): seq<Placement>
  {
    match r
    case None => []
    case Some(j) => [Placement(j.rook, j.dest), Placement(j.rook, j.origin)]
  }

  /** Placement `x` holds before the move and not after it, or after and not before. */
  predicate Changes(b: BoardState, m: Moves.Move, x: Placement)
  {
    x.piece != NoPiece && ((PieceAt(b, x.square) == x.piece) != (OccupantAfter(b, m, x.square) == x.piece))
  }

  /** How many times `x` appears in `xs`. */
  function Occurrences(xs: seq<Placement>, x: Placement): (n: nat)
    ensures n <= |xs|
  {
    if xs == [] then 0 else (if xs[0] == x then 1 else 0) + Occurrences(xs[1..], x)
  }

  lemma {:induction false} OccurrencesAppend(xs: seq<Placement>, ys: seq<Placement>, x: Placement)
    ensures Occurrences(xs + ys, x) == Occurrences(xs, x) + Occurrences(ys, x)
  {
    if xs != [] {
      assert (xs + ys)[1..] == xs[1..] + ys;
      OccurrencesAppend(xs[1..], ys, x);
    } else {
      assert xs + ys == ys;
    }
  }

  /** A delta list is right for a move when it XORs exactly the changed
      placements an odd number of times. */
  ghost predicate RightDelta(b: BoardState, m: Moves.Move, xs: seq<Placement>)
  {
    forall x: Placement :: x.piece != NoPiece ==> (Occurrences(xs, x) % 2 == 1 <==> Changes(b, m, x))
  }

  lemma OccurrencesOfPair(y: Placement, z: Placement, x: Placement)
    ensures Occurrences([y, z], x) == (if y == x then 1 else 0) + (if z == x then 1 else 0)
  {
    assert [y, z][1..] == [z];
    assert [z][1..] == [];
  }

  lemma OccurrencesOfCaptured(c: Option<Placement>, x: Placement)
    ensures Occurrences(CapturedList(c), x) == if c == Some(x) then 1 else 0
  {
    if c.Some? {
      assert CapturedList(c)[1..] == [];
    }
  }

  lemma OccurrencesOfRook(r: Option<RookJump>, x: Placement)
    ensures Occurrences(RookList(r), x)
      == (if r.Some? && Placement(r.value.rook, r.value.dest) == x then 1 else 0)
       + (if r.Some? && Placement(r.value.rook, r.value.origin) == x then 1 else 0)
  {
    if r.Some? {
      OccurrencesOfPair(Placement(r.value.rook, r.value.dest), Placement(r.value.rook, r.value.origin), x);
    }
  }

  /** How often `x` appears in a delta: once per field it fills. */
  lemma CountInDelta(d: Delta, x: Placement)
    ensures Occurrences(Placements(d), x)
      == (if d.moved == x then 1 else 0) + (if d.placed == x then 1 else 0)
       + (if d.captured == Some(x) then 1 else 0)
       + (if d.rook.Some? && Placement(d.rook.value.rook, d.rook.value.dest) == x then 1 else 0)
       + (if d.rook.Some? && Placement(d.rook.value.rook, d.rook.value.origin) == x then 1 else 0)
  {
    OccurrencesAppend([d.moved, d.placed] + CapturedList(d.captured), RookList(d.rook), x);
    OccurrencesAppend([d.moved, d.placed], CapturedList(d.captured), x);
    OccurrencesOfPair(d.moved, d.placed, x);
    OccurrencesOfCaptured(d.captured, x);
    OccurrencesOfRook(d.rook, x);
  }

  /** The squares of a delta do not clash: the origin is not the target,
      a capture sits on the target, and the rook squares are neither. */
  predicate WellFormed(d: Delta)
  {
    && d.moved.square != d.placed.square
    && (d.captured.Some? ==> d.captured.value.square == d.placed.square)
    && (d.rook.Some? ==>
          var j := d.rook.value;
          j.dest != j.origin
          && j.dest != d.moved.square && j.dest != d.placed.square
          && j.origin != d.moved.square && j.origin != d.placed.square)
  }

  /** Delta `d` accounts for square `s` going from `before` to `after`. */
  predicate Describes(d: Delta, s: Sq, before: PieceCode, after: PieceCode)
  {
    if s == d.moved.square then before == d.moved.piece && after == NoPiece
    else if s == d.placed.square then
      after == d.placed.piece
      && d.captured == (if before == NoPiece then None else Some(Placement(before, s)))
    else if d.rook.Some? && s == d.rook.value.dest then before == NoPiece && after == d.rook.value.rook
    else if d.rook.Some? && s == d.rook.value.origin then before == d.rook.value.rook && after == NoPiece
    else after == before
  }

  /** A delta that describes a square XORs a placement on it an odd number
      of times exactly when that placement appears or disappears. */
  lemma DescribedParity(d: Delta, x: Placement, before: PieceCode, after: PieceCode)
    requires WellFormed(d) && Describes(d, x.square, before, after)
    requires x.piece != NoPiece
    ensures Occurrences(Placements(d), x) % 2 == 1 <==> ((before == x.piece) != (after == x.piece))
  {
    CountInDelta(d, x);
  }

  lemma MoveDeltaWellFormed(b: BoardState, m: Moves.Move)
    requires Applicable(b, m)
    ensures WellFormed(MoveDelta(b, m))
  {
  }

  /** The delta of a move accounts for every square but the one a pawn is
      taken from en passant. */
  lemma MoveDeltaDescribes(b: BoardState, m: Moves.Move, s: Sq)
    requires Applicable(b, m) && EnPassantVictim(m.to, m.flags) != Some(s)
    ensures Describes(MoveDelta(b, m), s, PieceAt(b, s), OccupantAfter(b, m, s))
  {
    var d := MoveDelta(b, m);
    var before, after := PieceAt(b, s), OccupantAfter(b, m, s);
    if s == m.from || s == m.to {
      OccupantsOfMove(b, m);
    } else if Touched(m, s) {
      OccupantsOfSideEffects(b, m);
      assert d.rook == CastlingRookJump(m.flags);
    } else {
      OccupantsUntouched(b, m, s);
      assert after == before;
    }
  }

  /** Away from the square of a pawn taken en passant, the delta XORs a
      placement an odd number of times exactly when the move changes it. */
  lemma DeltaRightAt(b: BoardState, m: Moves.Move, x: Placement)
    requires Applicable(b, m) && EnPassantVictim(m.to, m.flags) != Some(x.square)
    requires x.piece != NoPiece
    ensures Occurrences(Placements(MoveDelta(b, m)), x) % 2 == 1 <==> Changes(b, m, x)
  {
    MoveDeltaWellFormed(b, m);
    MoveDeltaDescribes(b, m, x.square);
    DescribedParity(MoveDelta(b, m), x, PieceAt(b, x.square), OccupantAfter(b, m, x.square));
  }

  /** Every move that takes nothing en passant gets its delta right. */
  lemma MoveDeltaRight(b: BoardState, m: Moves.Move)
    requires Applicable(b, m) && EnPassantVictim(m.to, m.flags) == None
    ensures RightDelta(b, m, Placements(MoveDelta(b, m)))
  {
    forall x: Placement | x.piece != NoPiece
      ensures Occurrences(Placements(MoveDelta(b, m)), x) % 2 == 1 <==> Changes(b, m, x)
    {
      DeltaRightAt(b, m, x);
    }
  }

  /** No placement on the square of a pawn taken en passant is in the
      delta of the move. */
  lemma VictimNotInDelta(b: BoardState, m: Moves.Move, x: Placement)
    requires Applicable(b, m) && EnPassantVictim(m.to, m.flags) == Some(x.square)
    ensures Occurrences(Placements(MoveDelta(b, m)), x) == 0
  {
    CountInDelta(MoveDelta(b, m), x);
  }

  /** The pawn taken en passant disappears, and nothing else appears there. */
  lemma VictimChanges(b: BoardState, m: Moves.Move, x: Placement)
    requires Applicable(b, m) && EnPassantVictim(m.to, m.flags) == Some(x.square)
    requires x.piece != NoPiece
    ensures Changes(b, m, x) <==> x.piece == EnPassantPawn(m.flags)
  {
    OccupantsOfSideEffects(b, m);
  }

  /** An en passant capture leaves the captured pawn out of its delta: that
      placement disappears but is never XORed. */
  lemma EnPassantDeltaMissesPawn(b: BoardState, m: Moves.Move)
    requires Applicable(b, m) && EnPassantVictim(m.to, m.flags).Some?
    ensures var x := Placement(EnPassantPawn(m.flags), EnPassantVictim(m.to, m.flags).value);
      Changes(b, m, x) && Occurrences(Placements(MoveDelta(b, m)), x) == 0
    ensures !RightDelta(b, m, Placements(MoveDelta(b, m)))
  {
    var x := Placement(EnPassantPawn(m.flags), EnPassantVictim(m.to, m.flags).value);
    VictimNotInDelta(b, m, x);
    VictimChanges(b, m, x);
  }

  /** The placements the delta should XOR: those of `MoveDelta` and, on an
      en passant capture, the captured pawn on its square. */
  function CorrectedPlacements(b: BoardState, m: Moves.Move): seq<Placement>
    requires PieceAt(b, m.from) != NoPiece
  {
    Placements(MoveDelta(b, m)) + VictimList(EnPassantVictim(m.to, m.flags), EnPassantPawn(m.flags))
  }

  function VictimList(victim: Option<Sq>, pawn: PieceCode): seq<Placement>
  {
    match victim
    case None => []
    case Some(v) => [Placement(pawn, v)]
  }

  lemma OccurrencesOfVictim(victim: Option<Sq>, pawn: PieceCode, x: Placement)
    ensures Occurrences(VictimList(victim, pawn), x) == if victim == Some(x.square) && x.piece == pawn then 1 else 0
  {
    if victim.Some? {
      assert VictimList(victim, pawn)[1..] == [];
    }
  }

  /** On the square of a pawn taken en passant, the corrected delta XORs
      exactly that pawn, once. */
  lemma CorrectedRightAtVictim(b: BoardState, m: Moves.Move, x: Placement)
    requires Applicable(b, m) && x.piece != NoPiece
    requires EnPassantVictim(m.to, m.flags) == Some(x.square)
    ensures Occurrences(CorrectedPlacements(b, m), x) % 2 == 1 <==> Changes(b, m, x)
  {
    var extra := VictimList(EnPassantVictim(m.to, m.flags), EnPassantPawn(m.flags));
    OccurrencesAppend(Placements(MoveDelta(b, m)), extra, x);
    OccurrencesOfVictim(EnPassantVictim(m.to, m.flags), EnPassantPawn(m.flags), x);
    VictimNotInDelta(b, m, x);
    VictimChanges(b, m, x);
    if x.piece == EnPassantPawn(m.flags) {
      assert Occurrences(CorrectedPlacements(b, m), x) == 1;
    } else {
      assert Occurrences(CorrectedPlacements(b, m), x) == 0;
    }
  }

  /** Elsewhere the corrected delta counts a placement as `MoveDelta` does. */
  lemma CorrectedRightAtOther(b: BoardState, m: Moves.Move, x: Placement)
    requires Applicable(b, m) && x.piece != NoPiece
    requires EnPassantVictim(m.to, m.flags) != Some(x.square)
    ensures Occurrences(CorrectedPlacements(b, m), x) % 2 == 1 <==> Changes(b, m, x)
  {
    var extra := VictimList(EnPassantVictim(m.to, m.flags), EnPassantPawn(m.flags));
    OccurrencesAppend(Placements(MoveDelta(b, m)), extra, x);
    OccurrencesOfVictim(EnPassantVictim(m.to, m.flags), EnPassantPawn(m.flags), x);
    DeltaRightAt(b, m, x);
  }

  /** The corrected delta is right on every applicable move. */
  lemma CorrectedDeltaRight(b: BoardState, m: Moves.Move)
    requires Applicable(b, m)
    ensures RightDelta(b, m, CorrectedPlacements(b, m))
  {
    forall x: Placement | x.piece != NoPiece
      ensures Occurrences(CorrectedPlacements(b, m), x) % 2 == 1 <==> Changes(b, m, x)
    {
      if EnPassantVictim(m.to, m.flags) == Some(x.square) {
        CorrectedRightAtVictim(b, m, x);
      } else {
        CorrectedRightAtOther(b, m, x);
      }
    }
  }
}
