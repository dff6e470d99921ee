/**
 * Pawn move generation (`computePawnMoves` and `appendPawnMove`,
 * chessboard/game_legal_moves.go:149-275).
 *
 * Squares are 8-bit values, so `from + 8` for a pawn on the last rank and
 * `from - 8` for one on the first are off the board (64 and above, or
 * wrapped to 248 and above). `IsSquareOccupied` then finds no bit, as a Go
 * shift by 64 or more yields 0; `Occupied` says so.
 *
 * White and black differ only in their offsets, their double-push rank and
 * their en passant flag, so one forward step and one capture step serve
 * both, given those.
 */
module Pawns {
  import opened Bitboards
  import opened Pieces
  import opened Boards
  import opened Moves
  import opened Games
  import opened PieceMoves

  const A2: bv8 := 8
  const A3: bv8 := 16
  const H6: bv8 := 47
  const H7: bv8 := 55

  /** `IsSquareOccupied` on an 8-bit square value: its bit is set; a value
      off the board has no bit. */
  predicate Occupied(b: Bitboard, x: bv8)
  {
    x < 64 && Has(b, x)
  }

  lemma OccupiedBitboard(b: Bitboard, x: bv8)
    ensures Occupied(b, x) <==> b & SquareBitboardOf(x) != 0
  {
    if x < 64 {
      OnBoardBit(b, x);
    }
  }

  lemma OnBoardBit(b: Bitboard, x: Sq)
    ensures Has(b, x) <==> b & SquareBitboardOf(x) != 0
  {
  }

  // ---------------------------------------------------------------------------
  // appendPawnMove

  const PromotionFlags: set<Flag> := {ResetHalfMoveClock, IsCapture}

  /** `appendPawnMove`: four promotions (bishop, knight, rook, queen) onto
      rank 8 for white or rank 1 for black, else one plain pawn move. */
  function PawnMovesTo(from: Sq, to: Sq): seq<Move>
  {
    if to > H7 then
      [Move(from, to, WhiteBishop, PromotionFlags), Move(from, to, WhiteKnight, PromotionFlags),
       Move(from, to, WhiteRook, PromotionFlags), Move(from, to, WhiteQueen, PromotionFlags)]
    else if to < A2 then
      [Move(from, to, BlackBishop, PromotionFlags), Move(from, to, BlackKnight, PromotionFlags),
       Move(from, to, BlackRook, PromotionFlags), Move(from, to, BlackQueen, PromotionFlags)]
    else
      [Move(from, to, NoPiece, {ResetHalfMoveClock})]
  }

  method AppendPawnMove(moves: seq<Move>, from: Sq, to: Sq) returns (r: seq<Move>)
    ensures r == moves + PawnMovesTo(from, to)
  {
    r := moves;
    if to > H7 {
      r := r + [Move(from, to, WhiteBishop, {ResetHalfMoveClock, IsCapture})];
      r := r + [Move(from, to, WhiteKnight, {ResetHalfMoveClock, IsCapture})];
      r := r + [Move(from, to, WhiteRook, {ResetHalfMoveClock, IsCapture})];
      r := r + [Move(from, to, WhiteQueen, {ResetHalfMoveClock, IsCapture})];
    } else if to < A2 {
      r := r + [Move(from, to, BlackBishop, {ResetHalfMoveClock, IsCapture})];
      r := r + [Move(from, to, BlackKnight, {ResetHalfMoveClock, IsCapture})];
      r := r + [Move(from, to, BlackRook, {ResetHalfMoveClock, IsCapture})];
      r := r + [Move(from, to, BlackQueen, {ResetHalfMoveClock, IsCapture})];
    } else {
      r := r + [Move(from, to, NoPiece, {ResetHalfMoveClock})];
    }
  }

  /** One move onto ranks 2 to 7, four onto rank 1 or 8; each goes from
      `from` to `to` and resets the half-move clock. */
  lemma PawnMovesToCount(from: Sq, to: Sq)
    ensures |PawnMovesTo(from, to)| == if to > H7 || to < A2 then 4 else 1
    ensures forall m <- PawnMovesTo(from, to) :: m.from == from && m.to == to && ResetHalfMoveClock in m.flags
  {
  }

  /** Onto rank 8 the four moves promote to a white bishop, knight, rook and
      queen; onto rank 1 to the black ones; elsewhere there is no promotion. */
  lemma PawnPromotions(from: Sq, to: Sq)
    ensures to > H7 ==> (set m <- PawnMovesTo(from, to) :: m.promotion) == {WhiteBishop, WhiteKnight, WhiteRook, WhiteQueen}
    ensures to < A2 ==> (set m <- PawnMovesTo(from, to) :: m.promotion) == {BlackBishop, BlackKnight, BlackRook, BlackQueen}
    ensures A2 <= to <= H7 ==> (set m <- PawnMovesTo(from, to) :: m.promotion) == {NoPiece}
  {
    var ms := PawnMovesTo(from, to);
    if to > H7 || to < A2 {
      assert ms[0] in ms && ms[1] in ms && ms[2] in ms && ms[3] in ms;
    } else {
      assert ms[0] in ms;
    }
  }

  /** Every promotion carries the capture flag, whether or not it captures. */
  lemma PromotionsFlaggedCapture(from: Sq, to: Sq, m: Move)
    requires m in PawnMovesTo(from, to) && m.promotion != NoPiece
    ensures IsCapture in m.flags
  {
  }
  // ---------------------------------------------------------------------------
  // One pawn's moves

  /** The squares one pawn looks at, as 8-bit values, with the guards on
      them: the push `one`, the double push `two` (allowed from the
      double-push rank), and the diagonal steps `left` and `right` (allowed
      unless the pawn stands on the edge file they would cross). */
  datatype Offsets = Offsets(
    one: bv8, two: bv8, doubleRank: bool,
    leftAllowed: bool, left: bv8,
    rightAllowed: bool, right: bv8)

  /** A white pawn moves up the board: +8 and +16, +7 (not from file a) and
      +9 (not from file h); the double push from below A3. */
  function WhiteOffsets(from: Sq): Offsets
  {
    Offsets(from + 8, from + 16, from < A3, from % 8 != 0, from + 7, from % 8 != 7, from + 9)
  }

  /** A black pawn moves down: -8 and -16, -9 (not from file a) and -7 (not
      from file h); the double push from above H6. Below square 0 the 8-bit
      value wraps to 240 and above, which is off the board. */
  function BlackOffsets(from: Sq): Offsets
  {
    Offsets(from - 8, from - 16, from > H6, from % 8 != 0, from - 9, from % 8 != 7, from - 7)
  }

  /** The push onto `one` when it is empty, and, from the double-push rank,
      the push onto `two` when that is empty too. */
  function ForwardMoves(empty: Bitboard, from: Sq, one: bv8, two: bv8, doubleRank: bool): seq<Move>
  {
    if Occupied(empty, one) then
      PawnMovesTo(from, one) +
      (if doubleRank && Occupied(empty, two) then [Move(from, two, NoPiece, {ResetHalfMoveClock, DoublePawnPush})] else [])
    else []
  }

  /** A diagonal step onto `to`, when the file allows it: a capture when an
      enemy piece stands there, else an en passant capture when `to` is the
      en passant square. */
  function CaptureMoves(enemy: Bitboard, ep: bv8, from: Sq, allowed: bool, to: bv8, epFlag: Flag): seq<Move>
  {
    if !allowed then []
    else if Occupied(enemy, to) then PawnMovesTo(from, to)
    else if ep == to && to < 64 then [Move(from, to, NoPiece, {ResetHalfMoveClock, epFlag})]
    else []
  }

  /** The loop body for one pawn: the pushes, the left step, the right step. */
  function PawnSteps(empty: Bitboard, enemy: Bitboard, ep: bv8, from: Sq, o: Offsets, epFlag: Flag): seq<Move>
  {
    ForwardMoves(empty, from, o.one, o.two, o.doubleRank) +
    CaptureMoves(enemy, ep, from, o.leftAllowed, o.left, epFlag) +
    CaptureMoves(enemy, ep, from, o.rightAllowed, o.right, epFlag)
  }

  function WhitePawnFrom(b: BoardState, ep: bv8): Sq -> seq<Move>
  {
    (from: Sq) => PawnSteps(b.emptySquares, b.blackSquares, ep, from, WhiteOffsets(from), WhiteEnPassant)
  }

  function BlackPawnFrom(b: BoardState, ep: bv8): Sq -> seq<Move>
  {
    (from: Sq) => PawnSteps(b.emptySquares, b.whiteSquares, ep, from, BlackOffsets(from), BlackEnPassant)
  }

  function PawnFrom(b: BoardState, turn: int, ep: bv8): Sq -> seq<Move>
  {
    if turn == WhiteColor then WhitePawnFrom(b, ep) else BlackPawnFrom(b, ep)
  }

  function PawnPiece(turn: int): PieceCode
  {
    if turn == WhiteColor then WhitePawn else BlackPawn
  }

  /** `computePawnMoves`: the moves of every pawn of the side to move, the
      pawns taken from the lowest square up. */
  function PawnMoves(p: Position): seq<Move>
  {
    Concat(PawnFrom(p.board, p.turn, p.enPassantSquare), Targets(OwnBoard(p.board, PawnPiece(p.turn))))
  }

  method AppendForward(moves: seq<Move>, empty: Bitboard, from: Sq, one: bv8, two: bv8, doubleRank: bool)
    returns (r: seq<Move>)
    ensures r == moves + ForwardMoves(empty, from, one, two, doubleRank)
  {
    r := moves;
    if Occupied(empty, one) {
      r := AppendPawnMove(r, from, one);
      if doubleRank && Occupied(empty, two) {
        r := r + [Move(from, two, NoPiece, {ResetHalfMoveClock, DoublePawnPush})];
      }
    }
  }

  method AppendCapture(moves: seq<Move>, enemy: Bitboard, ep: bv8, from: Sq, allowed: bool, to: bv8, epFlag: Flag)
    returns (r: seq<Move>)
    ensures r == moves + CaptureMoves(enemy, ep, from, allowed, to, epFlag)
  {
    r := moves;
    if allowed {
      if Occupied(enemy, to) {
        r := AppendPawnMove(r, from, to);
      } else if ep == to && to < 64 {
        r := r + [Move(from, to, NoPiece, {ResetHalfMoveClock, epFlag})];
      }
    }
  }

  /** The loop body of either colour for the pawn on `from`. */
  method AppendPawnSteps(moves: seq<Move>, empty: Bitboard, enemy: Bitboard, ep: bv8, from: Sq, o: Offsets, epFlag: Flag)
    returns (r: seq<Move>)
    ensures r == moves + PawnSteps(empty, enemy, ep, from, o, epFlag)
  {
    r := AppendForward(moves, empty, from, o.one, o.two, o.doubleRank);
    r := AppendCapture(r, enemy, ep, from, o.leftAllowed, o.left, epFlag);
    r := AppendCapture(r, enemy, ep, from, o.rightAllowed, o.right, epFlag);
    AppendThree(moves, ForwardMoves(empty, from, o.one, o.two, o.doubleRank),
      CaptureMoves(enemy, ep, from, o.leftAllowed, o.left, epFlag),
      CaptureMoves(enemy, ep, from, o.rightAllowed, o.right, epFlag));
  }

  lemma AppendThree(m: seq<Move>, a: seq<Move>, b: seq<Move>, c: seq<Move>)
    ensures ((m + a) + b) + c == m + (a + b + c)
  {
  }

  // ---------------------------------------------------------------------------
  // computePawnMoves

  /** `computePawnMoves`: one loop over the white pawns or one over the
      black pawns. */
  method ComputePawnMoves(moves: seq<Move>, p: Position) returns (r: seq<Move>)
    ensures r == moves + PawnMoves(p)
  {
    if p.turn == WhiteColor {
      r := AppendWhitePawns(moves, p.board, p.enPassantSquare, OwnBoard(p.board, WhitePawn));
    } else {
      r := AppendBlackPawns(moves, p.board, p.enPassantSquare, OwnBoard(p.board, BlackPawn));
    }
  }

  method AppendWhitePawns(moves: seq<Move>, b: BoardState, ep: bv8, pawns: Bitboard) returns (r: seq<Move>)
    ensures r == moves + Concat(WhitePawnFrom(b, ep), Targets(pawns))
  {
    var f := WhitePawnFrom(b, ep);
    r := moves;
    var bb := pawns;
    while bb != 0
      invariant r + Concat(f, Targets(bb)) == moves + Concat(f, Targets(pawns))
      decreases PopCount(bb)
    {
      var from := LowestSquare(bb);
      var before := r;
      r := AppendPawnSteps(r, b.emptySquares, b.blackSquares, ep, from, WhiteOffsets(from), WhiteEnPassant);
      WalkStep(f, before, bb, moves + Concat(f, Targets(pawns)));
      bb := ClearLeastSignificantBit(bb);
    }
  }

  method AppendBlackPawns(moves: seq<Move>, b: BoardState, ep: bv8, pawns: Bitboard) returns (r: seq<Move>)
    ensures r == moves + Concat(BlackPawnFrom(b, ep), Targets(pawns))
  {
    var f := BlackPawnFrom(b, ep);
    r := moves;
    var bb := pawns;
    while bb != 0
      invariant r + Concat(f, Targets(bb)) == moves + Concat(f, Targets(pawns))
      decreases PopCount(bb)
    {
      var from := LowestSquare(bb);
      var before := r;
      r := AppendPawnSteps(r, b.emptySquares, b.whiteSquares, ep, from, BlackOffsets(from), BlackEnPassant);
      WalkStep(f, before, bb, moves + Concat(f, Targets(pawns)));
      bb := ClearLeastSignificantBit(bb);
    }
  }

  // ---------------------------------------------------------------------------
  // Where pawns go: the offsets against the rule by rank and file

  /** Rank 1..8 as 0..7. */
  function RankOf(s: Sq): bv8 { s / 8 }

  /** File a..h as 0..7. */
  function FileOf(s: Sq): bv8 { s % 8 }

  /** The squares a list of moves goes to. */
  function Tos(ms: seq<Move>): set<Sq>
  {
    set m <- ms :: m.to
  }

  /** Where the code sends a pawn with offsets `o`: the push onto an empty
      square, the double push onto a second empty one, a diagonal step onto
      an enemy piece or the en passant square. */
  predicate OffsetTarget(empty: Bitboard, enemy: Bitboard, ep: bv8, o: Offsets, x: Sq)
  {
    (Occupied(empty, o.one) && (x == o.one || (o.doubleRank && Occupied(empty, o.two) && x == o.two))) ||
    (o.leftAllowed && x == o.left && (Occupied(enemy, o.left) || ep == o.left)) ||
    (o.rightAllowed && x == o.right && (Occupied(enemy, o.right) || ep == o.right))
  }

  /** Where a white pawn on `from` may go, by the rule: one rank up onto an
      empty square; two ranks up from rank 1 or 2 over an empty square onto
      an empty square; one rank up and one file aside onto a black piece or
      the en passant square. */
  predicate WhiteTarget(b: BoardState, ep: bv8, from: Sq, x: Sq)
  {
    var e := b.emptySquares;
    var file := FileOf(x) == FileOf(from);
    var aside := FileOf(x) + 1 == FileOf(from) || FileOf(x) == FileOf(from) + 1;
    (RankOf(x) == RankOf(from) + 1 && file && Has(e, x)) ||
    (RankOf(x) == RankOf(from) + 2 && file && RankOf(from) <= 1 && Has(e, x) && Has(e, x - 8)) ||
    (RankOf(x) == RankOf(from) + 1 && aside && (Has(b.blackSquares, x) || x == ep))
  }

  /** The same for a black pawn, down the board, from rank 7 or 8 for the
      double push, capturing white pieces. */
  predicate BlackTarget(b: BoardState, ep: bv8, from: Sq, x: Sq)
  {
    var e := b.emptySquares;
    var file := FileOf(x) == FileOf(from);
    var aside := FileOf(x) + 1 == FileOf(from) || FileOf(x) == FileOf(from) + 1;
    (RankOf(x) + 1 == RankOf(from) && file && Has(e, x)) ||
    (RankOf(x) + 2 == RankOf(from) && file && RankOf(from) >= 6 && Has(e, x) && Has(e, x + 8)) ||
    (RankOf(x) + 1 == RankOf(from) && aside && (Has(b.whiteSquares, x) || x == ep))
  }

  lemma TosAppend(a: seq<Move>, b: seq<Move>)
    ensures Tos(a + b) == Tos(a) + Tos(b)
  {
  }

  lemma ThreeTos(a: seq<Move>, b: seq<Move>, c: seq<Move>, x: Sq)
    ensures x in Tos(a + b + c) <==> x in Tos(a) || x in Tos(b) || x in Tos(c)
  {
    TosAppend(a + b, c);
    TosAppend(a, b);
  }

  lemma PawnMovesToTos(from: Sq, to: Sq)
    ensures Tos(PawnMovesTo(from, to)) == {to}
  {
    assert PawnMovesTo(from, to)[0] in PawnMovesTo(from, to);
  }

  /** The pushes reach `one` when it is empty, and `two` as well when the
      pawn stands on its double-push rank and `two` is empty too. */
  lemma ForwardTos(empty: Bitboard, from: Sq, one: bv8, two: bv8, doubleRank: bool, x: Sq)
    ensures x in Tos(ForwardMoves(empty, from, one, two, doubleRank)) <==>
      Occupied(empty, one) && (x == one || (doubleRank && Occupied(empty, two) && x == two))
  {
    if Occupied(empty, one) {
      var double := if doubleRank && Occupied(empty, two) then [Move(from, two, NoPiece, {ResetHalfMoveClock, DoublePawnPush})] else [];
      TosAppend(PawnMovesTo(from, one), double);
      PawnMovesToTos(from, one);
      if doubleRank && Occupied(empty, two) {
        assert double[0] in double;
      }
    }
  }

  /** A diagonal step reaches `to`, when allowed, if an enemy piece or the
      en passant square is there. */
  lemma CaptureTos(enemy: Bitboard, ep: bv8, from: Sq, allowed: bool, to: bv8, epFlag: Flag, x: Sq)
    ensures x in Tos(CaptureMoves(enemy, ep, from, allowed, to, epFlag)) <==>
      allowed && x == to && (Occupied(enemy, to) || ep == to)
  {
    if allowed && Occupied(enemy, to) {
      PawnMovesToTos(from, to);
    } else if allowed && ep == to && to < 64 {
      assert CaptureMoves(enemy, ep, from, allowed, to, epFlag)[0] in CaptureMoves(enemy, ep, from, allowed, to, epFlag);
    }
  }

  /** One pawn's moves go exactly where its offsets and guards send it. */
  lemma StepsTos(empty: Bitboard, enemy: Bitboard, ep: bv8, from: Sq, o: Offsets, epFlag: Flag, x: Sq)
    ensures x in Tos(PawnSteps(empty, enemy, ep, from, o, epFlag)) <==> OffsetTarget(empty, enemy, ep, o, x)
  {
    ThreeTos(ForwardMoves(empty, from, o.one, o.two, o.doubleRank),
      CaptureMoves(enemy, ep, from, o.leftAllowed, o.left, epFlag),
      CaptureMoves(enemy, ep, from, o.rightAllowed, o.right, epFlag), x);
    ForwardTos(empty, from, o.one, o.two, o.doubleRank, x);
    CaptureTos(enemy, ep, from, o.leftAllowed, o.left, epFlag, x);
    CaptureTos(enemy, ep, from, o.rightAllowed, o.right, epFlag, x);
  }

  /** A white pawn's moves go exactly to the squares the rule allows: the
      file guards keep a diagonal step from wrapping to the other edge. */
  lemma WhiteTargets(b: BoardState, ep: bv8, from: Sq, x: Sq)
    ensures x in Tos(WhitePawnFrom(b, ep)(from)) <==> WhiteTarget(b, ep, from, x)
  {
    StepsTos(b.emptySquares, b.blackSquares, ep, from, WhiteOffsets(from), WhiteEnPassant, x);
    WhiteOffsetsFollowRule(b, ep, from, x);
  }

  lemma WhiteOffsetsFollowRule(b: BoardState, ep: bv8, from: Sq, x: Sq)
    ensures OffsetTarget(b.emptySquares, b.blackSquares, ep, WhiteOffsets(from), x) <==> WhiteTarget(b, ep, from, x)
  {
    WhitePush(from, x);
    WhiteDouble(from, x);
    WhiteLeft(from, x);
    WhiteRight(from, x);
  }

  /** A black pawn's moves go exactly to the squares the rule allows; the
      offsets below rank 1 wrap off the board. */
  lemma BlackTargets(b: BoardState, ep: bv8, from: Sq, x: Sq)
    ensures x in Tos(BlackPawnFrom(b, ep)(from)) <==> BlackTarget(b, ep, from, x)
  {
    StepsTos(b.emptySquares, b.whiteSquares, ep, from, BlackOffsets(from), BlackEnPassant, x);
    BlackOffsetsFollowRule(b, ep, from, x);
  }

  lemma BlackOffsetsFollowRule(b: BoardState, ep: bv8, from: Sq, x: Sq)
    ensures OffsetTarget(b.emptySquares, b.whiteSquares, ep, BlackOffsets(from), x) <==> BlackTarget(b, ep, from, x)
  {
    BlackPush(from, x);
    BlackDouble(from, x);
    BlackLeft(from, x);
    BlackRight(from, x);
  }

  lemma WhitePush(from: Sq, x: Sq)
    ensures x == from + 8 <==> RankOf(x) == RankOf(from) + 1 && FileOf(x) == FileOf(from)
  {
  }

  lemma WhiteDouble(from: Sq, x: Sq)
    ensures from < A3 && x == from + 16 <==>
      RankOf(x) == RankOf(from) + 2 && FileOf(x) == FileOf(from) && RankOf(from) <= 1
    ensures from < A3 && x == from + 16 ==> x - 8 == from + 8
  {
  }

  lemma WhiteLeft(from: Sq, x: Sq)
    ensures from % 8 != 0 && x == from + 7 <==> RankOf(x) == RankOf(from) + 1 && FileOf(x) + 1 == FileOf(from)
  {
  }

  lemma WhiteRight(from: Sq, x: Sq)
    ensures from % 8 != 7 && x == from + 9 <==> RankOf(x) == RankOf(from) + 1 && FileOf(x) == FileOf(from) + 1
  {
  }

  lemma BlackPush(from: Sq, x: Sq)
    ensures x == from - 8 <==> RankOf(x) + 1 == RankOf(from) && FileOf(x) == FileOf(from)
  {
  }

  lemma BlackDouble(from: Sq, x: Sq)
    ensures from > H6 && x == from - 16 <==>
      RankOf(x) + 2 == RankOf(from) && FileOf(x) == FileOf(from) && RankOf(from) >= 6
    ensures from > H6 && x == from - 16 ==> x + 8 == from - 8
  {
  }

  lemma BlackLeft(from: Sq, x: Sq)
    ensures from % 8 != 0 && x == from - 9 <==> RankOf(x) + 1 == RankOf(from) && FileOf(x) + 1 == FileOf(from)
  {
  }

  lemma BlackRight(from: Sq, x: Sq)
    ensures from % 8 != 7 && x == from - 7 <==> RankOf(x) + 1 == RankOf(from) && FileOf(x) == FileOf(from) + 1
  {
  }

  // ---------------------------------------------------------------------------
  // What each pawn move carries

  /** A push starts on `from` and resets the half-move clock; it is a double
      push, flagged as one, exactly when it goes to `two`, which needs the
      double-push rank and both squares empty. Pushes never capture en
      passant. */
  lemma ForwardMoveShape(empty: Bitboard, from: Sq, one: bv8, two: bv8, doubleRank: bool, m: Move)
    requires m in ForwardMoves(empty, from, one, two, doubleRank)
    ensures m.from == from && ResetHalfMoveClock in m.flags && Occupied(empty, one)
    ensures DoublePawnPush in m.flags ==>
      m.to == two && doubleRank && Occupied(empty, two) && m.promotion == NoPiece
    ensures DoublePawnPush !in m.flags ==> m.to == one
    ensures m.flags <= {ResetHalfMoveClock, IsCapture, DoublePawnPush}
  {
  }

  /** A diagonal step starts on `from` and goes to `to`; it is flagged en
      passant exactly when no enemy piece stands on `to`, and then `to` is
      the en passant square. */
  lemma CaptureMoveShape(enemy: Bitboard, ep: bv8, from: Sq, allowed: bool, to: bv8, epFlag: Flag, m: Move)
    requires m in CaptureMoves(enemy, ep, from, allowed, to, epFlag)
    requires epFlag == WhiteEnPassant || epFlag == BlackEnPassant
    ensures allowed && m.from == from && m.to == to && ResetHalfMoveClock in m.flags && DoublePawnPush !in m.flags
    ensures epFlag in m.flags <==> !Occupied(enemy, to)
    ensures epFlag in m.flags ==> ep == to && m.promotion == NoPiece
    ensures m.flags <= {ResetHalfMoveClock, IsCapture, epFlag}
  {
  }

  /** A pawn move starts on its square and resets the half-move clock; a
      double push has both squares ahead empty; an en passant capture goes
      to the en passant square, where no enemy piece stands. */
  lemma StepsMoveShape(empty: Bitboard, enemy: Bitboard, ep: bv8, from: Sq, o: Offsets, epFlag: Flag, m: Move)
    requires m in PawnSteps(empty, enemy, ep, from, o, epFlag)
    requires epFlag == WhiteEnPassant || epFlag == BlackEnPassant
    ensures m.from == from && ResetHalfMoveClock in m.flags
    ensures DoublePawnPush in m.flags ==>
      m.to == o.two && o.doubleRank && Occupied(empty, o.one) && Occupied(empty, o.two)
    ensures epFlag in m.flags ==> m.to == ep && !Occupied(enemy, m.to)
    ensures m.flags <= {ResetHalfMoveClock, IsCapture, DoublePawnPush, epFlag}
  {
    var forward := ForwardMoves(empty, from, o.one, o.two, o.doubleRank);
    var left := CaptureMoves(enemy, ep, from, o.leftAllowed, o.left, epFlag);
    var right := CaptureMoves(enemy, ep, from, o.rightAllowed, o.right, epFlag);
    if m in forward {
      ForwardMoveShape(empty, from, o.one, o.two, o.doubleRank, m);
    } else if m in left {
      CaptureMoveShape(enemy, ep, from, o.leftAllowed, o.left, epFlag, m);
    } else {
      assert m in right;
      CaptureMoveShape(enemy, ep, from, o.rightAllowed, o.right, epFlag, m);
    }
  }

  /** Every pawn move starts on the square it was generated for. */
  lemma PawnFromStarts(b: BoardState, turn: int, ep: bv8)
    ensures StartsOnSquare(PawnFrom(b, turn, ep))
  {
    forall x: Sq, n: Move | n in PawnFrom(b, turn, ep)(x) ensures n.from == x {
      if turn == WhiteColor {
        StepsMoveShape(b.emptySquares, b.blackSquares, ep, x, WhiteOffsets(x), WhiteEnPassant, n);
      } else {
        StepsMoveShape(b.emptySquares, b.whiteSquares, ep, x, BlackOffsets(x), BlackEnPassant, n);
      }
    }
  }

  /** A move is among the pawn moves exactly when it starts on a pawn of the
      side to move and is one of that pawn's moves. */
  lemma PawnMovesIff(p: Position, m: Move)
    ensures m in PawnMoves(p) <==>
      Has(OwnBoard(p.board, PawnPiece(p.turn)), m.from) && m in PawnFrom(p.board, p.turn, p.enPassantSquare)(m.from)
  {
    var f := PawnFrom(p.board, p.turn, p.enPassantSquare);
    var pawns := OwnBoard(p.board, PawnPiece(p.turn));
    PawnFromStarts(p.board, p.turn, p.enPassantSquare);
    ConcatIff(f, Targets(pawns), m);
    TargetsHas(pawns, m.from);
  }

  /** The rule for the side to move. */
  predicate PawnTarget(p: Position, from: Sq, x: Sq)
  {
    if p.turn == WhiteColor then WhiteTarget(p.board, p.enPassantSquare, from, x)
    else BlackTarget(p.board, p.enPassantSquare, from, x)
  }

  /** Some pawn move goes from `from` to `x` exactly when a pawn of the side
      to move stands on `from` and the rule lets it go to `x`. */
  lemma PawnMovesTargets(p: Position, from: Sq, x: Sq)
    ensures (exists m :: m in PawnMoves(p) && m.from == from && m.to == x) <==>
      Has(OwnBoard(p.board, PawnPiece(p.turn)), from) && PawnTarget(p, from, x)
  {
    var pawns := OwnBoard(p.board, PawnPiece(p.turn));
    PawnFromStarts(p.board, p.turn, p.enPassantSquare);
    ConcatReach(PawnFrom(p.board, p.turn, p.enPassantSquare), Targets(pawns), from, x);
    TargetsHas(pawns, from);
    PawnRule(p, from, x);
  }

  /** Some move of the walk goes from `from` to `x` exactly when `from` is
      walked and its own moves reach `x`. */
  lemma ConcatReach(f: Sq -> seq<Move>, froms: seq<Sq>, from: Sq, x: Sq)
    requires StartsOnSquare(f)
    ensures (exists m :: m in Concat(f, froms) && m.from == from && m.to == x) <==> from in froms && x in Tos(f(from))
  {
    if exists m :: m in Concat(f, froms) && m.from == from && m.to == x {
      var m :| m in Concat(f, froms) && m.from == from && m.to == x;
      ConcatIff(f, froms, m);
    }
    if from in froms && x in Tos(f(from)) {
      var m :| m in f(from) && m.to == x;
      ConcatIff(f, froms, m);
    }
  }

  lemma PawnRule(p: Position, from: Sq, x: Sq)
    ensures x in Tos(PawnFrom(p.board, p.turn, p.enPassantSquare)(from)) <==> PawnTarget(p, from, x)
  {
    if p.turn == WhiteColor {
      WhiteTargets(p.board, p.enPassantSquare, from, x);
    } else {
      BlackTargets(p.board, p.enPassantSquare, from, x);
    }
  }

  /** Every pawn move resets the half-move clock, and only a capture en
      passant of the side to move's colour goes to the en passant square
      with that flag. */
  lemma PawnMovesFlags(p: Position, m: Move)
    requires m in PawnMoves(p)
    ensures ResetHalfMoveClock in m.flags
    ensures WhiteEnPassant in m.flags ==> p.turn == WhiteColor && m.to == p.enPassantSquare
    ensures BlackEnPassant in m.flags ==> p.turn != WhiteColor && m.to == p.enPassantSquare
  {
    PawnMovesIff(p, m);
    PawnFromFlags(p.board, p.turn, p.enPassantSquare, m.from, m);
  }

  lemma PawnFromFlags(b: BoardState, turn: int, ep: bv8, from: Sq, m: Move)
    requires m in PawnFrom(b, turn, ep)(from)
    ensures ResetHalfMoveClock in m.flags
    ensures WhiteEnPassant in m.flags ==> turn == WhiteColor && m.to == ep
    ensures BlackEnPassant in m.flags ==> turn != WhiteColor && m.to == ep
  {
    if turn == WhiteColor {
      assert m in PawnSteps(b.emptySquares, b.blackSquares, ep, from, WhiteOffsets(from), WhiteEnPassant);
      StepsMoveShape(b.emptySquares, b.blackSquares, ep, from, WhiteOffsets(from), WhiteEnPassant, m);
    } else {
      assert m in PawnSteps(b.emptySquares, b.whiteSquares, ep, from, BlackOffsets(from), BlackEnPassant);
      StepsMoveShape(b.emptySquares, b.whiteSquares, ep, from, BlackOffsets(from), BlackEnPassant, m);
    }
  }
}
