/**
 * The legal move list (`LegalMoves` and `checkMoveLegality`,
 * chessboard/game_legal_moves.go:1-58).
 *
 * The generators append the pseudolegal moves in a fixed order; each is
 * kept when the side to move's king is not attacked on a copy of the board
 * after it, and a kept move onto an occupied square is flagged as a capture
 * that resets the half-move clock. The list is cached in the position.
 *
 * Two Go runtime panics become errors: the king table indexed with the
 * square of a missing king (stored as 64), and a move from an empty square
 * (see `Boards.Moved`). A panic ends the computation, so the first error
 * met is the result and the game is left as it was.
 */
module Legality {
  import opened Outcomes
  import opened Bitboards
  import opened Pieces
  import opened Zobrist
  import opened Boards
  import opened Moves
  import opened Attacks
  import opened Games
  import opened PieceMoves
  import opened Pawns

  const IndexOutOfRange := "index out of range"

  /** The squares of the side to move's pieces. */
  function OwnSquares(b: BoardState, turn: int): Bitboard
  {
    if turn == WhiteColor then b.whiteSquares else b.blackSquares
  }

  // ---------------------------------------------------------------------------
  // Pseudolegal moves

  /** The generators' moves in their order: king, knights, rooks, bishops,
      queens, pawns. Without a king of the side to move the king generator
      indexes its table out of range. */
  function PseudolegalMoves(t: PrecomputedData, p: Position): Result<seq<Move>>
    requires Shaped(t)
  {
    var k := MoverKingSquare(p.board, p.turn);
    if k >= 64 then Err(IndexOutOfRange)
    else
      var own := OwnSquares(p.board, p.turn);
      Ok(KingMoves(t, p, own, k) + KindMoves(Knight, t, p.board, p.turn, own) +
         KindMoves(Rook, t, p.board, p.turn, own) + KindMoves(Bishop, t, p.board, p.turn, own) +
         KindMoves(Queen, t, p.board, p.turn, own) + PawnMoves(p))
  }

  method ComputePseudolegalMoves(t: PrecomputedData, p: Position) returns (r: Result<seq<Move>>)
    requires Shaped(t)
    ensures r == PseudolegalMoves(t, p)
  {
    if MoverKingSquare(p.board, p.turn) >= 64 {
      return Err(IndexOutOfRange);
    }
    var own: Bitboard;
    if p.turn == WhiteColor {
      own := p.board.whiteSquares;
    } else {
      own := p.board.blackSquares;
    }
    assert own == OwnSquares(p.board, p.turn);
    var k := MoverKingSquare(p.board, p.turn);
    var king := ComputeKingMoves([], t, p, own);
    assert king == KingMoves(t, p, own, k);
    var moves := AppendGenerated(king, t, p, own);
    r := Ok(moves);
  }

  /** The generators after the king's, in their order. */
  method AppendGenerated(moves: seq<Move>, t: PrecomputedData, p: Position, own: Bitboard) returns (r: seq<Move>)
    requires Shaped(t)
    ensures r == moves + KindMoves(Knight, t, p.board, p.turn, own) +
      KindMoves(Rook, t, p.board, p.turn, own) + KindMoves(Bishop, t, p.board, p.turn, own) +
      KindMoves(Queen, t, p.board, p.turn, own) + PawnMoves(p)
  {
    r := ComputeKnightMoves(moves, t, p.board, p.turn, own);
    r := ComputeRookMoves(r, t, p.board, p.turn, own);
    r := ComputeBishopMoves(r, t, p.board, p.turn, own);
    r := ComputeQueenMoves(r, t, p.board, p.turn, own);
    r := ComputePawnMoves(r, p);
  }

  // ---------------------------------------------------------------------------
  // One move's legality

  /** `checkMoveLegality`: plays `m` on a copy of the board and asks whether
      the side to move's king, wherever it now stands, is attacked. */
  function CheckMoveLegality(t: PrecomputedData, p: Position, m: Move, keys: ZobristKeys): Result<bool>
    requires Shaped(t)
  {
    KingSafeAfter(t, p.turn, Moved(p.board, m, keys))
  }

  /** Whether the king of `turn` is safe on the board a move produced; a
      failed move, or a missing king, is an error. */
  function KingSafeAfter(t: PrecomputedData, turn: int, moved: Result<MoveEffect>): Result<bool>
    requires Shaped(t)
  {
    match moved
    case Err(e) => Err(e)
    case Ok(effect) =>
      var k := MoverKingSquare(effect.board, turn);
      if k >= 64 then Err(IndexOutOfRange)
      else Ok(!IsUnderAttack(t, effect.board, turn, k))
  }

  /** A kept move onto a square that is not empty gets the capture and
      half-move-clock flags. */
  function Flagged(m: Move, empty: Bitboard): Move
  {
    if !Has(empty, m.to) then m.(flags := m.flags + {ResetHalfMoveClock, IsCapture}) else m
  }

  // ---------------------------------------------------------------------------
  // The filter

  /** `checkMoveLegality` for the moves of position `p`. */
  function LegalityCheck(t: PrecomputedData, p: Position, keys: ZobristKeys): Move -> Result<bool>
    requires Shaped(t)
  {
    m => CheckMoveLegality(t, p, m, keys)
  }

  /** One turn of the loop: an earlier error stands; else the check's error
      ends it; else the move is kept, flagged, when legal. */
  function Step(acc: Result<seq<Move>>, check: Result<bool>, flagged: Move): Result<seq<Move>>
  {
    match acc
    case Err(e) => Err(e)
    case Ok(kept) =>
      match check
      case Err(e) => Err(e)
      case Ok(legal) => Ok(if legal then kept + [flagged] else kept)
  }

  /** The loop over the pseudolegal moves, first to last: the legal ones,
      flagged against the empty squares, in order; the first failing check
      ends it. */
  function Filter(check: Move -> Result<bool>, empty: Bitboard, ms: seq<Move>): Result<seq<Move>>
    decreases |ms|
  {
    if |ms| == 0 then Ok([])
    else
      var last := ms[|ms| - 1];
      Step(Filter(check, empty, ms[..|ms| - 1]), check(last), Flagged(last, empty))
  }

  method FilterLegalMoves(t: PrecomputedData, p: Position, pseudo: seq<Move>, keys: ZobristKeys)
    returns (r: Result<seq<Move>>)
    requires Shaped(t)
    ensures r == Filter(LegalityCheck(t, p, keys), p.board.emptySquares, pseudo)
  {
    ghost var check := LegalityCheck(t, p, keys);
    var legal: seq<Move> := [];
    var i := 0;
    while i < |pseudo|
      invariant 0 <= i <= |pseudo|
      invariant Filter(check, p.board.emptySquares, pseudo[..i]) == Ok(legal)
    {
      var legality := CheckMoveLegality(t, p, pseudo[i], keys);
      FilterStep(check, p.board.emptySquares, pseudo, i);
      if legality.Err? {
        FilterKeepsError(check, p.board.emptySquares, pseudo, i + 1);
        return Err(legality.message);
      }
      if legality.value {
        legal := legal + [Flagged(pseudo[i], p.board.emptySquares)];
      }
      i := i + 1;
    }
    WholePrefix(pseudo);
    r := Ok(legal);
  }

  /** The loop's next turn extends the prefix by one move. */
  lemma FilterStep(check: Move -> Result<bool>, empty: Bitboard, ms: seq<Move>, i: nat)
    requires i < |ms|
    ensures Filter(check, empty, ms[..i + 1]) == Step(Filter(check, empty, ms[..i]), check(ms[i]), Flagged(ms[i], empty))
  {
    PrefixOfPrefix(ms, i);
  }

  lemma PrefixOfPrefix<T>(ms: seq<T>, i: nat)
    requires i < |ms|
    ensures ms[..i + 1][..i] == ms[..i] && ms[..i + 1][i] == ms[i]
  {
  }

  lemma WholePrefix<T>(ms: seq<T>)
    ensures ms[..|ms|] == ms
  {
  }

  /** An error on a prefix is the error of the whole list. */
  lemma {:induction false} FilterKeepsError(check: Move -> Result<bool>, empty: Bitboard, ms: seq<Move>, i: nat)
    requires i <= |ms| && Filter(check, empty, ms[..i]).Err?
    ensures Filter(check, empty, ms) == Filter(check, empty, ms[..i])
    decreases |ms| - i
  {
    if i < |ms| {
      FilterStep(check, empty, ms, i);
      FilterKeepsError(check, empty, ms, i + 1);
    } else {
      WholePrefix(ms);
    }
  }

  // ---------------------------------------------------------------------------
  // LegalMoves

  /** `LegalMoves`: the cached list when there is one, else the filtered
      pseudolegal moves. */
  function LegalMovesOf(t: PrecomputedData, p: Position, keys: ZobristKeys): Result<seq<Move>>
    requires Shaped(t)
  {
    if p.legalMoves.Some? then Ok(p.legalMoves.value)
    else
      match PseudolegalMoves(t, p)
      case Err(e) => Err(e)
      case Ok(ms) => Filter(LegalityCheck(t, p, keys), p.board.emptySquares, ms)
  }

  /** `Game.LegalMoves`: computes the list once and caches it in the current
      position, which is the last history entry; an error leaves the game
      unchanged. */
  method LegalMoves(g: Game, keys: ZobristKeys) returns (r: Result<seq<Move>>)
    modifies g
    requires g.Valid() && Shaped(g.tables)
    ensures g.Valid()
    ensures r == LegalMovesOf(old(g.tables), old(g.position), keys)
    ensures old(g.position.legalMoves).Some? || r.Err? ==> unchanged(g)
    ensures old(g.position.legalMoves).None? && r.Ok? ==>
      g.tables == old(g.tables) && g.moves == old(g.moves) &&
      g.position == old(g.position).(legalMoves := Some(r.value)) &&
      g.history == old(g.history)[..|old(g.history)| - 1] + [g.position]
  {
    if g.position.legalMoves.Some? {
      return Ok(g.position.legalMoves.value);
    }
    r := ComputeLegalMoves(g.tables, g.position, keys);
    if r.Ok? {
      CacheLegalMoves(g, r.value);
    }
  }

  /** The uncached branch of `LegalMoves`: generate, then filter. */
  method ComputeLegalMoves(t: PrecomputedData, p: Position, keys: ZobristKeys) returns (r: Result<seq<Move>>)
    requires Shaped(t) && p.legalMoves.None?
    ensures r == LegalMovesOf(t, p, keys)
  {
    var pseudo := ComputePseudolegalMoves(t, p);
    if pseudo.Err? {
      return Err(pseudo.message);
    }
    r := FilterLegalMoves(t, p, pseudo.value, keys);
  }

  /** Stores the list in the current position and so in the last history
      entry. */
  method CacheLegalMoves(g: Game, moves: seq<Move>)
    modifies g
    requires g.Valid()
    ensures g.Valid()
    ensures g.tables == old(g.tables) && g.moves == old(g.moves)
    ensures g.position == old(g.position).(legalMoves := Some(moves))
    ensures g.history == old(g.history)[..|old(g.history)| - 1] + [g.position]
  {
    var cached := g.position.(legalMoves := Some(moves));
    g.position := cached;
    g.history := g.history[..|g.history| - 1] + [cached];
  }

  // ---------------------------------------------------------------------------
  // What the filter keeps

  /** The moves `check` passes, flagged, in order, taken from the front:
      what the filter promises when no check fails. */
  function Kept(check: Move -> Result<bool>, empty: Bitboard, ms: seq<Move>): seq<Move>
  {
    if |ms| == 0 then []
    else (if check(ms[0]) == Ok(true) then [Flagged(ms[0], empty)] else []) + Kept(check, empty, ms[1..])
  }

  /** Taking the moves from the back, as the filter does, keeps the same. */
  lemma {:induction false} KeptSnoc(check: Move -> Result<bool>, empty: Bitboard, ms: seq<Move>)
    requires |ms| > 0
    ensures Kept(check, empty, ms) ==
      Kept(check, empty, ms[..|ms| - 1]) +
      (if check(ms[|ms| - 1]) == Ok(true) then [Flagged(ms[|ms| - 1], empty)] else [])
    decreases |ms|
  {
    if |ms| > 1 {
      KeptSnoc(check, empty, ms[1..]);
      assert ms[1..][..|ms[1..]| - 1] == ms[..|ms| - 1][1..];
      assert ms[..|ms| - 1][0] == ms[0];
    } else {
      assert ms[..0] == [];
    }
  }

  /** The filter succeeds exactly when every check succeeds, and then it
      returns the passed moves in order. */
  lemma {:induction false} FilterIsKept(check: Move -> Result<bool>, empty: Bitboard, ms: seq<Move>)
    ensures Filter(check, empty, ms).Ok? <==> forall i :: 0 <= i < |ms| ==> check(ms[i]).Ok?
    ensures Filter(check, empty, ms).Ok? ==> Filter(check, empty, ms).value == Kept(check, empty, ms)
    decreases |ms|
  {
    if |ms| > 0 {
      var init := ms[..|ms| - 1];
      FilterIsKept(check, empty, init);
      KeptSnoc(check, empty, ms);
      assert forall i :: 0 <= i < |init| ==> init[i] == ms[i];
    }
  }

  /** A failing filter fails with the error of the first failing check. */
  lemma {:induction false} FilterFirstError(check: Move -> Result<bool>, empty: Bitboard, ms: seq<Move>)
    requires Filter(check, empty, ms).Err?
    ensures exists i ::
      && 0 <= i < |ms|
      && check(ms[i]) == Err(Filter(check, empty, ms).message)
      && (forall j :: 0 <= j < i ==> check(ms[j]).Ok?)
    decreases |ms|
  {
    var init := ms[..|ms| - 1];
    if Filter(check, empty, init).Err? {
      FilterFirstError(check, empty, init);
      var i :| 0 <= i < |init| && check(init[i]) == Err(Filter(check, empty, init).message) &&
        (forall j :: 0 <= j < i ==> check(init[j]).Ok?);
      assert init[i] == ms[i];
      assert forall j :: 0 <= j < i ==> init[j] == ms[j];
    } else {
      FilterIsKept(check, empty, init);
      assert forall j :: 0 <= j < |init| ==> init[j] == ms[j];
      assert check(ms[|ms| - 1]) == Err(Filter(check, empty, ms).message);
    }
  }

  /** The kept moves are the passed moves, flagged. */
  lemma {:induction false} KeptIff(check: Move -> Result<bool>, empty: Bitboard, ms: seq<Move>, m: Move)
    ensures m in Kept(check, empty, ms) <==> exists n :: n in ms && check(n) == Ok(true) && m == Flagged(n, empty)
    decreases |ms|
  {
    if |ms| > 0 {
      KeptIff(check, empty, ms[1..], m);
      assert ms == [ms[0]] + ms[1..];
      assert forall n :: n in ms <==> n == ms[0] || n in ms[1..];
    }
  }

  /** No more moves are kept than were given. */
  lemma {:induction false} KeptLength(check: Move -> Result<bool>, empty: Bitboard, ms: seq<Move>)
    ensures |Kept(check, empty, ms)| <= |ms|
    decreases |ms|
  {
    if |ms| > 0 {
      KeptLength(check, empty, ms[1..]);
    }
  }

  /** The flags `Flagged` adds do not change what a move does to the board:
      only the castling and en passant flags do. */
  lemma FlaggedSameEffect(b: BoardState, m: Move, empty: Bitboard, keys: ZobristKeys)
    ensures Moved(b, Flagged(m, empty), keys) == Moved(b, m, keys)
  {
    var n := Flagged(m, empty);
    if n != m {
      ClockFlagsSameJump(m.flags, n.flags);
      if PieceAt(b, m.from) != NoPiece {
        var piece := PlacedPiece(PieceAt(b, m.from), m);
        var relocated := Relocated(b, m.from, m.to, piece);
        CastledSame(relocated, m.flags, n.flags);
        ClockFlagsSameCapture(Castled(relocated, m.flags), m.to, m.flags, n.flags);
        assert MoveDelta(b, n) == MoveDelta(b, m);
      }
    }
  }

  lemma ClockFlagsSameJump(f: set<Flag>, g: set<Flag>)
    requires g == f + {ResetHalfMoveClock, IsCapture}
    ensures CastlingRookJump(g) == CastlingRookJump(f)
  {
  }

  lemma CastledSame(b: BoardState, f: set<Flag>, g: set<Flag>)
    requires CastlingRookJump(g) == CastlingRookJump(f)
    ensures Castled(b, g) == Castled(b, f)
  {
  }

  lemma ClockFlagsSameCapture(b: BoardState, to: Sq, f: set<Flag>, g: set<Flag>)
    requires g == f + {ResetHalfMoveClock, IsCapture}
    ensures EnPassantCaptured(b, to, g) == EnPassantCaptured(b, to, f)
  {
    assert WhiteEnPassant in g <==> WhiteEnPassant in f;
    assert BlackEnPassant in g <==> BlackEnPassant in f;
  }

  /** Rechecking a flagged move gives the answer for the move itself. */
  lemma FlaggedSameCheck(t: PrecomputedData, p: Position, n: Move, keys: ZobristKeys)
    requires Shaped(t)
    ensures CheckMoveLegality(t, p, Flagged(n, p.board.emptySquares), keys) == CheckMoveLegality(t, p, n, keys)
  {
    FlaggedSameEffect(p.board, n, p.board.emptySquares, keys);
  }

  /** Every computed legal move is one of the generators' moves that passed
      the check, flagged. */
  lemma LegalMovesSound(t: PrecomputedData, p: Position, keys: ZobristKeys, m: Move)
    requires Shaped(t) && p.legalMoves.None? && LegalMovesOf(t, p, keys).Ok?
    requires m in LegalMovesOf(t, p, keys).value
    ensures PseudolegalMoves(t, p).Ok?
    ensures exists n ::
      && n in PseudolegalMoves(t, p).value
      && CheckMoveLegality(t, p, n, keys) == Ok(true)
      && m == Flagged(n, p.board.emptySquares)
  {
    var check, empty := LegalityCheck(t, p, keys), p.board.emptySquares;
    var ms := PseudolegalMoves(t, p).value;
    FilterIsKept(check, empty, ms);
    KeptIff(check, empty, ms, m);
  }

  /** Checked again, a computed legal move still passes: it leaves the side
      to move's king unattacked. One onto an occupied square is flagged as a
      capture that resets the half-move clock. */
  lemma LegalMovesSafe(t: PrecomputedData, p: Position, keys: ZobristKeys, m: Move)
    requires Shaped(t) && p.legalMoves.None? && LegalMovesOf(t, p, keys).Ok?
    requires m in LegalMovesOf(t, p, keys).value
    ensures CheckMoveLegality(t, p, m, keys) == Ok(true)
    ensures !Has(p.board.emptySquares, m.to) ==> ResetHalfMoveClock in m.flags && IsCapture in m.flags
  {
    LegalMovesSound(t, p, keys, m);
    var n :| n in PseudolegalMoves(t, p).value && CheckMoveLegality(t, p, n, keys) == Ok(true) &&
      m == Flagged(n, p.board.emptySquares);
    FlaggedSameCheck(t, p, n, keys);
  }

  /** Every pseudolegal move that passes the check is in the list, flagged. */
  lemma LegalMovesComplete(t: PrecomputedData, p: Position, keys: ZobristKeys, n: Move)
    requires Shaped(t) && p.legalMoves.None? && LegalMovesOf(t, p, keys).Ok?
    requires PseudolegalMoves(t, p).Ok? && n in PseudolegalMoves(t, p).value
    requires CheckMoveLegality(t, p, n, keys) == Ok(true)
    ensures Flagged(n, p.board.emptySquares) in LegalMovesOf(t, p, keys).value
  {
    var check, empty := LegalityCheck(t, p, keys), p.board.emptySquares;
    var ms := PseudolegalMoves(t, p).value;
    FilterIsKept(check, empty, ms);
    KeptIff(check, empty, ms, Flagged(n, empty));
  }
}
