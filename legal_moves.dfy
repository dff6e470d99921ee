/**
 * Move generation (chessboard/game_legal_moves.go).
 *
 * Every generator walks a bitboard from its lowest square up, clearing one
 * square per step, and appends one move per square. `Targets(b)` is that
 * walk as a sequence; the generators are methods over a move list proved
 * equal to functions built from `Targets`.
 *
 * The source's move list holds pointers and sets the capture flags in place
 * on the moves it keeps; here moves are values and the flagged copy is kept.
 */
module PieceMoves {
  import opened Outcomes
  import opened Bitboards
  import opened Pieces
  import opened Boards
  import opened Moves
  import opened Attacks
  import opened Games

  // ---------------------------------------------------------------------------
  // Walking a bitboard

  /** The lowest square of a non-empty bitboard,
      `square(b.LeastSignificant1Bit())`. */
  function LowestSquare(b: Bitboard): (s: Sq)
    requires b != 0
    ensures IsLowestBit(b, s)
    ensures s as int == LeastSignificantBit(b)
  {
    LowestOnBoard(b);
    IndexSq(LeastSignificantBit(b))
  }

  lemma LowestOnBoard(b: Bitboard)
    requires b != 0
    ensures 0 <= LeastSignificantBit(b) < 64
    ensures IsLowestBit(b, IndexSq(LeastSignificantBit(b)))
  {
    var k := LowestExists(b, 0);
    SqAsInt(k, IndexSq(LeastSignificantBit(b)));
  }

  /** The squares of `b` in the order the generators visit them. */
  function Targets(b: Bitboard): (r: seq<Sq>)
    decreases PopCount(b)
  {
    if b == 0 then []
    else
      ClearDecrementsCount(b);
      [LowestSquare(b)] + Targets(ClearLeastSignificantBit(b))
  }

  /** The walk visits exactly the squares of the bitboard. */
  lemma {:induction false} TargetsHas(b: Bitboard, s: Sq)
    ensures s in Targets(b) <==> Has(b, s)
    decreases PopCount(b)
  {
    if b == 0 {
      EmptyHasNothing(s);
    } else {
      ClearDecrementsCount(b);
      TargetsHas(ClearLeastSignificantBit(b), s);
    }
  }

  predicate Ascending(s: seq<Sq>)
  {
    forall i, j :: 0 <= i < j < |s| ==> s[i] < s[j]
  }

  lemma AscendingCons(k: Sq, tail: seq<Sq>)
    requires Ascending(tail)
    requires forall j :: 0 <= j < |tail| ==> k < tail[j]
    ensures Ascending([k] + tail)
  {
    var t := [k] + tail;
    forall i, j | 0 <= i < j < |t| ensures t[i] < t[j] {
      if i > 0 {
        assert t[i] == tail[i - 1];
      }
      assert t[j] == tail[j - 1];
    }
  }

  /** Every square left after clearing the lowest one lies above it. */
  lemma AboveLowest(b: Bitboard, s: Sq)
    requires b != 0 && Has(ClearLeastSignificantBit(b), s)
    ensures LowestSquare(b) < s
  {
    var k := LowestSquare(b);
    ClearSquare(b, k, s);
    assert Has(b, s) && s != k;
  }

  /** The walk visits one square per set bit. */
  lemma {:induction false} TargetsCount(b: Bitboard)
    ensures |Targets(b)| == PopCount(b)
    decreases PopCount(b)
  {
    if b == 0 {
      PopCountZero(b);
    } else {
      ClearDecrementsCount(b);
      TargetsCount(ClearLeastSignificantBit(b));
    }
  }

  /** The walk visits the squares in increasing order, so each once. */
  lemma {:induction false} TargetsAscending(b: Bitboard)
    ensures Ascending(Targets(b))
    decreases PopCount(b)
  {
    if b != 0 {
      var c := ClearLeastSignificantBit(b);
      var k := LowestSquare(b);
      ClearDecrementsCount(b);
      TargetsAscending(c);
      TailAboveLowest(b);
      assert Targets(b) == [k] + Targets(c);
      AscendingCons(k, Targets(c));
    }
  }

  /** The rest of the walk lies above the lowest square. */
  lemma TailAboveLowest(b: Bitboard)
    requires b != 0
    ensures forall j :: 0 <= j < |Targets(ClearLeastSignificantBit(b))| ==>
              LowestSquare(b) < Targets(ClearLeastSignificantBit(b))[j]
  {
    var c := ClearLeastSignificantBit(b);
    var tail := Targets(c);
    forall j | 0 <= j < |tail| ensures LowestSquare(b) < tail[j] {
      TargetsHas(c, tail[j]);
      AboveLowest(b, tail[j]);
    }
  }

  // ---------------------------------------------------------------------------
  // Moves to the squares of a bitboard

  /** A plain move from `from` to each of `tos`, in order. */
  function QuietMoves(from: Sq, tos: seq<Sq>): seq<Move>
  {
    if |tos| == 0 then [] else [Move(from, tos[0], NoPiece, {})] + QuietMoves(from, tos[1..])
  }

  /** One step of the walk: the lowest square's move, then the rest. */
  lemma QuietStep(from: Sq, b: Bitboard)
    requires b != 0
    ensures QuietMoves(from, Targets(b)) ==
      [Move(from, LowestSquare(b), NoPiece, {})] + QuietMoves(from, Targets(ClearLeastSignificantBit(b)))
    ensures PopCount(ClearLeastSignificantBit(b)) < PopCount(b)
  {
    ClearDecrementsCount(b);
    assert Targets(b) == [LowestSquare(b)] + Targets(ClearLeastSignificantBit(b));
  }

  lemma AppendAssociates<T>(a: seq<T>, b: seq<T>, c: seq<T>)
    ensures (a + b) + c == a + (b + c)
  {
  }

  /** The inner loop of every non-pawn generator: one plain move from `from`
      to each square of `targets`, lowest square first. */
  method AppendQuietMoves(moves: seq<Move>, from: Sq, targets: Bitboard) returns (r: seq<Move>)
    ensures r == moves + QuietMoves(from, Targets(targets))
  {
    r := moves;
    var bb := targets;
    while bb != 0
      invariant r + QuietMoves(from, Targets(bb)) == moves + QuietMoves(from, Targets(targets))
      decreases PopCount(bb)
    {
      var to := LowestSquare(bb);
      QuietStep(from, bb);
      AppendAssociates(r, [Move(from, to, NoPiece, {})], QuietMoves(from, Targets(ClearLeastSignificantBit(bb))));
      r := r + [Move(from, to, NoPiece, {})];
      bb := ClearLeastSignificantBit(bb);
    }
  }

  // ---------------------------------------------------------------------------
  // Knights, rooks, bishops and queens

  datatype Mover = Knight | Rook | Bishop | Queen

  /** The squares a piece of this kind reaches from each square: the knight
      table, or the magic-bitboard lookups for sliders given the empty
      squares (a queen is a rook and a bishop together). */
  function ReachOf(kind: Mover, t: PrecomputedData, empty: Bitboard): Sq -> Bitboard
    requires Shaped(t)
  {
    match kind
    case Knight => (s: Sq) => t.knightMoves[s]
    case Rook => (s: Sq) => RookAttacks(t, empty, s)
    case Bishop => (s: Sq) => BishopAttacks(t, empty, s)
    case Queen => (s: Sq) => BishopAttacks(t, empty, s) | RookAttacks(t, empty, s)
  }

  /** The piece code of a mover of the side to move. */
  function MoverPiece(kind: Mover, turn: int): (p: PieceCode)
    ensures p != NoPiece
  {
    var white := match kind
      case Knight => WhiteKnight
      case Rook => WhiteRook
      case Bishop => WhiteBishop
      case Queen => WhiteQueen;
    if turn == WhiteColor then white else white + 6
  }

  /** The moves of each square of `froms` in turn: the outer walk of every
      generator, `f` giving one piece's moves. */
  function Concat(f: Sq -> seq<Move>, froms: seq<Sq>): seq<Move>
  {
    if |froms| == 0 then [] else f(froms[0]) + Concat(f, froms[1..])
  }

  /** Every move `f` gives for a square starts on that square. */
  ghost predicate StartsOnSquare(f: Sq -> seq<Move>)
  {
    forall x: Sq, n: Move :: n in f(x) ==> n.from == x
  }

  /** One step of the outer walk: the lowest piece's moves, then the rest. */
  lemma ConcatStep(f: Sq -> seq<Move>, b: Bitboard)
    requires b != 0
    ensures Concat(f, Targets(b)) == f(LowestSquare(b)) + Concat(f, Targets(ClearLeastSignificantBit(b)))
    ensures PopCount(ClearLeastSignificantBit(b)) < PopCount(b)
  {
    ClearDecrementsCount(b);
    assert Targets(b) == [LowestSquare(b)] + Targets(ClearLeastSignificantBit(b));
  }

  /** When each square's moves start on it, the walk over `froms` yields a
      move exactly when it starts on one of them and its own square yields it. */
  lemma {:induction false} ConcatIff(f: Sq -> seq<Move>, froms: seq<Sq>, m: Move)
    requires StartsOnSquare(f)
    ensures m in Concat(f, froms) <==> m.from in froms && m in f(m.from)
  {
    if |froms| > 0 {
      var from, rest := froms[0], froms[1..];
      ConcatIff(f, rest, m);
      assert froms == [from] + rest;
      assert m.from in froms <==> m.from == from || m.from in rest;
    }
  }

  /** One piece's moves: to every reached square not holding a piece of the
      side to move. */
  function PieceFrom(reach: Sq -> Bitboard, own: Bitboard): Sq -> seq<Move>
  {
    (from: Sq) => QuietMoves(from, Targets(reach(from) & !own))
  }

  /** The outer loop of the knight, rook, bishop and queen generators. */
  method AppendPieceMoves(moves: seq<Move>, reach: Sq -> Bitboard, pieces: Bitboard, own: Bitboard)
    returns (r: seq<Move>)
    ensures r == moves + Concat(PieceFrom(reach, own), Targets(pieces))
  {
    var f := PieceFrom(reach, own);
    r := moves;
    var bb := pieces;
    while bb != 0
      invariant r + Concat(f, Targets(bb)) == moves + Concat(f, Targets(pieces))
      decreases PopCount(bb)
    {
      var from := LowestSquare(bb);
      var before := r;
      r := AppendPieceFrom(r, reach, own, from);
      WalkStep(f, before, bb, moves + Concat(f, Targets(pieces)));
      bb := ClearLeastSignificantBit(bb);
    }
  }

  /** The inner loop for the piece on `from`. */
  method AppendPieceFrom(moves: seq<Move>, reach: Sq -> Bitboard, own: Bitboard, from: Sq) returns (r: seq<Move>)
    ensures r == moves + PieceFrom(reach, own)(from)
  {
    r := AppendQuietMoves(moves, from, reach(from) & !own);
  }

  /** The outer walk's invariant survives appending the lowest piece's moves
      and clearing its square. */
  lemma WalkStep(f: Sq -> seq<Move>, before: seq<Move>, b: Bitboard, total: seq<Move>)
    requires b != 0 && before + Concat(f, Targets(b)) == total
    ensures (before + f(LowestSquare(b))) + Concat(f, Targets(ClearLeastSignificantBit(b))) == total
    ensures PopCount(ClearLeastSignificantBit(b)) < PopCount(b)
  {
    ConcatStep(f, b);
    AppendAssociates(before, f(LowestSquare(b)), Concat(f, Targets(ClearLeastSignificantBit(b))));
  }

  /** The bitboard of the side to move's pieces of a kind. */
  function OwnBoard(b: BoardState, piece: PieceCode): Bitboard
    requires piece != NoPiece
  {
    b.pieces[piece - 1]
  }

  /** The moves of the side to move's pieces of one kind. */
  function KindMoves(kind: Mover, t: PrecomputedData, b: BoardState, turn: int, own: Bitboard): seq<Move>
    requires Shaped(t)
  {
    Concat(PieceFrom(ReachOf(kind, t, b.emptySquares), own), Targets(OwnBoard(b, MoverPiece(kind, turn))))
  }

  method ComputeKnightMoves(moves: seq<Move>, t: PrecomputedData, b: BoardState, turn: int, own: Bitboard)
    returns (r: seq<Move>)
    requires Shaped(t)
    ensures r == moves + KindMoves(Knight, t, b, turn, own)
  {
    var knights;
    if turn == WhiteColor {
      knights := b.pieces[WhiteKnight - 1];
    } else {
      knights := b.pieces[BlackKnight - 1];
    }
    assert knights == OwnBoard(b, MoverPiece(Knight, turn));
    r := AppendPieceMoves(moves, ReachOf(Knight, t, b.emptySquares), knights, own);
  }

  method ComputeRookMoves(moves: seq<Move>, t: PrecomputedData, b: BoardState, turn: int, own: Bitboard)
    returns (r: seq<Move>)
    requires Shaped(t)
    ensures r == moves + KindMoves(Rook, t, b, turn, own)
  {
    var rooks;
    if turn == WhiteColor {
      rooks := b.pieces[WhiteRook - 1];
    } else {
      rooks := b.pieces[BlackRook - 1];
    }
    assert rooks == OwnBoard(b, MoverPiece(Rook, turn));
    r := AppendPieceMoves(moves, ReachOf(Rook, t, b.emptySquares), rooks, own);
  }

  method ComputeBishopMoves(moves: seq<Move>, t: PrecomputedData, b: BoardState, turn: int, own: Bitboard)
    returns (r: seq<Move>)
    requires Shaped(t)
    ensures r == moves + KindMoves(Bishop, t, b, turn, own)
  {
    var bishops;
    if turn == WhiteColor {
      bishops := b.pieces[WhiteBishop - 1];
    } else {
      bishops := b.pieces[BlackBishop - 1];
    }
    assert bishops == OwnBoard(b, MoverPiece(Bishop, turn));
    r := AppendPieceMoves(moves, ReachOf(Bishop, t, b.emptySquares), bishops, own);
  }

  method ComputeQueenMoves(moves: seq<Move>, t: PrecomputedData, b: BoardState, turn: int, own: Bitboard)
    returns (r: seq<Move>)
    requires Shaped(t)
    ensures r == moves + KindMoves(Queen, t, b, turn, own)
  {
    var queens;
    if turn == WhiteColor {
      queens := b.pieces[WhiteQueen - 1];
    } else {
      queens := b.pieces[BlackQueen - 1];
    }
    assert queens == OwnBoard(b, MoverPiece(Queen, turn));
    r := AppendPieceMoves(moves, ReachOf(Queen, t, b.emptySquares), queens, own);
  }

  /** A plain move to a square the piece on `m.from` reaches and that holds
      no piece of the side to move. */
  predicate PlainReach(reach: Sq -> Bitboard, own: Bitboard, m: Move)
  {
    Has(reach(m.from), m.to) && !Has(own, m.to) && m.promotion == NoPiece && m.flags == {}
  }

  /** Every move of one piece starts on its square. */
  lemma PieceFromStarts(reach: Sq -> Bitboard, own: Bitboard)
    ensures StartsOnSquare(PieceFrom(reach, own))
  {
    forall x: Sq, n: Move | n in PieceFrom(reach, own)(x) ensures n.from == x {
      QuietMovesIff(x, Targets(reach(x) & !own), n);
    }
  }

  /** One piece's moves are the plain moves from its square that
      `PlainReach` admits. */
  lemma PieceFromIff(reach: Sq -> Bitboard, own: Bitboard, from: Sq, m: Move)
    ensures m in PieceFrom(reach, own)(from) <==> m.from == from && PlainReach(reach, own, m)
  {
    QuietReachIff(reach, own, from, m);
  }

  lemma QuietReachIff(reach: Sq -> Bitboard, own: Bitboard, from: Sq, m: Move)
    ensures m in QuietMoves(from, Targets(reach(from) & !own)) <==> m.from == from && PlainReach(reach, own, m)
  {
    QuietMovesIff(from, Targets(reach(from) & !own), m);
    TargetsHas(reach(from) & !own, m.to);
    AndNotHas(reach(from), own, m.to);
  }

  lemma PieceConcatIff(reach: Sq -> Bitboard, own: Bitboard, froms: seq<Sq>, m: Move)
    ensures m in Concat(PieceFrom(reach, own), froms) <==> m.from in froms && m in PieceFrom(reach, own)(m.from)
  {
    PieceFromStarts(reach, own);
    ConcatIff(PieceFrom(reach, own), froms, m);
  }

  /** A move is generated for pieces on `froms` exactly when it is a plain
      move from one of them to a reached square free of own pieces. */
  lemma PieceMovesIff(reach: Sq -> Bitboard, own: Bitboard, froms: seq<Sq>, m: Move)
    ensures m in Concat(PieceFrom(reach, own), froms) <==> m.from in froms && PlainReach(reach, own, m)
  {
    PieceConcatIff(reach, own, froms, m);
    PieceFromIff(reach, own, m.from, m);
  }

  lemma QuietMovesIff(from: Sq, tos: seq<Sq>, m: Move)
    ensures m in QuietMoves(from, tos) <==> m.from == from && m.to in tos && m.promotion == NoPiece && m.flags == {}
  {
    if |tos| > 0 {
      QuietMovesIff(from, tos[1..], m);
      assert tos == [tos[0]] + tos[1..];
    }
  }

  // ---------------------------------------------------------------------------
  // Plain moves to the squares of a bitboard, square by square

  /** The walk over `reached & !own` gives a plain move from `from` exactly to
      the squares of `reached` not holding a piece of the side to move. */
  lemma QuietTargetsIff(from: Sq, reached: Bitboard, own: Bitboard, m: Move)
    ensures m in QuietMoves(from, Targets(reached & !own)) <==>
      m.from == from && Has(reached, m.to) && !Has(own, m.to) && m.promotion == NoPiece && m.flags == {}
  {
    QuietMovesIff(from, Targets(reached & !own), m);
    TargetsHas(reached & !own, m.to);
    AndNotHas(reached, own, m.to);
  }

  lemma {:induction false} QuietMovesLength(from: Sq, tos: seq<Sq>)
    ensures |QuietMoves(from, tos)| == |tos|
  {
    if |tos| > 0 {
      QuietMovesLength(from, tos[1..]);
    }
  }

  /** One move per square of `reached & !own`. */
  lemma QuietTargetsCount(from: Sq, reached: Bitboard, own: Bitboard)
    ensures |QuietMoves(from, Targets(reached & !own))| == PopCount(reached & !own)
  {
    QuietMovesLength(from, Targets(reached & !own));
    TargetsCount(reached & !own);
  }

  // ---------------------------------------------------------------------------
  // The king: table moves and castling

  const B1: Sq := 1
  const C1: Sq := 2
  const E1: Sq := 4
  const G1: Sq := 6
  const B8: Sq := 57
  const C8: Sq := 58
  const E8: Sq := 60
  const G8: Sq := 62

  /** The squares between king and rook that must be empty to castle. */
  const InBetweenWhiteKingCastle: Bitboard := 96
  const InBetweenWhiteQueenCastle: Bitboard := 14
  const InBetweenBlackKingCastle: Bitboard := 6917529027641081856
  const InBetweenBlackQueenCastle: Bitboard := 1008806316530991104

  /** The stored king square of the side to move; it may be off the board
      (64 when that king is missing). */
  function MoverKingSquare(b: BoardState, turn: int): bv8
  {
    if turn == WhiteColor then b.whiteKingSquare else b.blackKingSquare
  }

  /** Castling to one side: the right is held, the squares between king and
      rook are empty, and the king's start, transit and destination squares
      are not attacked. */
  predicate CanCastle(t: PrecomputedData, b: BoardState, turn: int, right: bool, between: Bitboard,
                      start: Sq, transit: Sq, dest: Sq)
    requires Shaped(t)
  {
    right && between & b.emptySquares == between &&
    !IsUnderAttack(t, b, turn, start) && !IsUnderAttack(t, b, turn, transit) && !IsUnderAttack(t, b, turn, dest)
  }

  function CastleMove(allowed: bool, from: Sq, to: Sq, flag: Flag): seq<Move>
  {
    if allowed then [Move(from, to, NoPiece, {flag})] else []
  }

  /** White's castling moves, king side first. */
  function WhiteCastles(t: PrecomputedData, b: BoardState, turn: int, rights: CastleRights): seq<Move>
    requires Shaped(t)
  {
    CastleMove(CanCastle(t, b, turn, rights.whiteKingSide, InBetweenWhiteKingCastle, E1, F1, G1), E1, G1, WhiteKingCastle) +
    CastleMove(CanCastle(t, b, turn, rights.whiteQueenSide, InBetweenWhiteQueenCastle, E1, D1, C1), E1, C1, WhiteQueenCastle)
  }

  /** Black's castling moves, king side first. */
  function BlackCastles(t: PrecomputedData, b: BoardState, turn: int, rights: CastleRights): seq<Move>
    requires Shaped(t)
  {
    CastleMove(CanCastle(t, b, turn, rights.blackKingSide, InBetweenBlackKingCastle, E8, F8, G8), E8, G8, BlackKingCastle) +
    CastleMove(CanCastle(t, b, turn, rights.blackQueenSide, InBetweenBlackQueenCastle, E8, D8, C8), E8, C8, BlackQueenCastle)
  }

  /** The castling moves of the side to move. */
  function CastleMoves(t: PrecomputedData, p: Position): seq<Move>
    requires Shaped(t)
  {
    if p.turn == WhiteColor then WhiteCastles(t, p.board, p.turn, p.castleRights)
    else BlackCastles(t, p.board, p.turn, p.castleRights)
  }

  /** The king's moves from `k`: one step to each table square free of own
      pieces, then castling. */
  function KingMoves(t: PrecomputedData, p: Position, own: Bitboard, k: Sq): seq<Move>
    requires Shaped(t)
  {
    QuietMoves(k, Targets(t.kingMoves[k] & !own)) + CastleMoves(t, p)
  }

  /** The castling tests of `computeKingMoves`, in its order. */
  method AppendCastles(moves: seq<Move>, t: PrecomputedData, p: Position) returns (r: seq<Move>)
    requires Shaped(t)
    ensures r == moves + CastleMoves(t, p)
  {
    if p.turn == WhiteColor {
      r := AppendWhiteCastles(moves, t, p.board, p.turn, p.castleRights);
    } else {
      r := AppendBlackCastles(moves, t, p.board, p.turn, p.castleRights);
    }
  }

  method AppendWhiteCastles(moves: seq<Move>, t: PrecomputedData, b: BoardState, turn: int, rights: CastleRights)
    returns (r: seq<Move>)
    requires Shaped(t)
    ensures r == moves + WhiteCastles(t, b, turn, rights)
  {
    var kingSide := rights.whiteKingSide && InBetweenWhiteKingCastle & b.emptySquares == InBetweenWhiteKingCastle &&
      !IsUnderAttack(t, b, turn, E1) && !IsUnderAttack(t, b, turn, F1) && !IsUnderAttack(t, b, turn, G1);
    var queenSide := rights.whiteQueenSide && InBetweenWhiteQueenCastle & b.emptySquares == InBetweenWhiteQueenCastle &&
      !IsUnderAttack(t, b, turn, E1) && !IsUnderAttack(t, b, turn, D1) && !IsUnderAttack(t, b, turn, C1);
    r := AppendCastle(moves, kingSide, E1, G1, WhiteKingCastle);
    r := AppendCastle(r, queenSide, E1, C1, WhiteQueenCastle);
    AppendAssociates(moves, CastleMove(kingSide, E1, G1, WhiteKingCastle), CastleMove(queenSide, E1, C1, WhiteQueenCastle));
  }

  method AppendBlackCastles(moves: seq<Move>, t: PrecomputedData, b: BoardState, turn: int, rights: CastleRights)
    returns (r: seq<Move>)
    requires Shaped(t)
    ensures r == moves + BlackCastles(t, b, turn, rights)
  {
    var kingSide := rights.blackKingSide && InBetweenBlackKingCastle & b.emptySquares == InBetweenBlackKingCastle &&
      !IsUnderAttack(t, b, turn, E8) && !IsUnderAttack(t, b, turn, F8) && !IsUnderAttack(t, b, turn, G8);
    var queenSide := rights.blackQueenSide && InBetweenBlackQueenCastle & b.emptySquares == InBetweenBlackQueenCastle &&
      !IsUnderAttack(t, b, turn, E8) && !IsUnderAttack(t, b, turn, D8) && !IsUnderAttack(t, b, turn, C8);
    r := AppendCastle(moves, kingSide, E8, G8, BlackKingCastle);
    r := AppendCastle(r, queenSide, E8, C8, BlackQueenCastle);
    AppendAssociates(moves, CastleMove(kingSide, E8, G8, BlackKingCastle), CastleMove(queenSide, E8, C8, BlackQueenCastle));
  }

  /** Appends the castling move when it is allowed. */
  method AppendCastle(moves: seq<Move>, allowed: bool, from: Sq, to: Sq, flag: Flag) returns (r: seq<Move>)
    ensures r == moves + CastleMove(allowed, from, to, flag)
  {
    r := moves;
    if allowed {
      r := r + [Move(from, to, NoPiece, {flag})];
    }
  }

  /** `computeKingMoves`, for a side whose king is on the board. */
  method ComputeKingMoves(moves: seq<Move>, t: PrecomputedData, p: Position, own: Bitboard) returns (r: seq<Move>)
    requires Shaped(t) && MoverKingSquare(p.board, p.turn) < 64
    ensures r == moves + KingMoves(t, p, own, MoverKingSquare(p.board, p.turn))
  {
    var k: Sq;
    if p.turn == WhiteColor {
      k := p.board.whiteKingSquare;
    } else {
      k := p.board.blackKingSquare;
    }
    assert k == MoverKingSquare(p.board, p.turn);
    var steps := t.kingMoves[k] & !own;
    r := AppendQuietMoves(moves, k, steps);
    r := AppendCastles(r, t, p);
    AppendAssociates(moves, QuietMoves(k, Targets(steps)), CastleMoves(t, p));
  }

  // The in-between masks, square by square.

  lemma HasBit(e: Bitboard, s: Sq, bit: Bitboard)
    requires bit == SquareBit(s)
    ensures Has(e, s) <==> e & bit != 0
  {
  }

  lemma WhiteKingSideBetween(e: Bitboard)
    ensures InBetweenWhiteKingCastle & e == InBetweenWhiteKingCastle <==> Has(e, F1) && Has(e, G1)
  {
    HasBit(e, F1, 0x20);
    HasBit(e, G1, 0x40);
    assert InBetweenWhiteKingCastle & e == InBetweenWhiteKingCastle <==> e & 0x20 != 0 && e & 0x40 != 0;
  }

  lemma WhiteQueenSideBetween(e: Bitboard)
    ensures InBetweenWhiteQueenCastle & e == InBetweenWhiteQueenCastle <==> Has(e, B1) && Has(e, C1) && Has(e, D1)
  {
    HasBit(e, B1, 0x2);
    HasBit(e, C1, 0x4);
    HasBit(e, D1, 0x8);
    assert InBetweenWhiteQueenCastle & e == InBetweenWhiteQueenCastle <==> e & 0x2 != 0 && e & 0x4 != 0 && e & 0x8 != 0;
  }

  lemma BlackKingSideBetween(e: Bitboard)
    ensures InBetweenBlackKingCastle & e == InBetweenBlackKingCastle <==> Has(e, F8) && Has(e, G8)
  {
    HasBit(e, F8, 0x2000_0000_0000_0000);
    HasBit(e, G8, 0x4000_0000_0000_0000);
    assert InBetweenBlackKingCastle & e == InBetweenBlackKingCastle <==>
      e & 0x2000_0000_0000_0000 != 0 && e & 0x4000_0000_0000_0000 != 0;
  }

  lemma BlackQueenSideBetween(e: Bitboard)
    ensures InBetweenBlackQueenCastle & e == InBetweenBlackQueenCastle <==> Has(e, B8) && Has(e, C8) && Has(e, D8)
  {
    HasBit(e, B8, 0x0200_0000_0000_0000);
    HasBit(e, C8, 0x0400_0000_0000_0000);
    HasBit(e, D8, 0x0800_0000_0000_0000);
    assert InBetweenBlackQueenCastle & e == InBetweenBlackQueenCastle <==>
      e & 0x0200_0000_0000_0000 != 0 && e & 0x0400_0000_0000_0000 != 0 && e & 0x0800_0000_0000_0000 != 0;
  }


  // Castling, move by move

  lemma CastleMoveIn(allowed: bool, from: Sq, to: Sq, flag: Flag, m: Move)
    ensures m in CastleMove(allowed, from, to, flag) <==> allowed && m == Move(from, to, NoPiece, {flag})
  {
  }

  /** White castles king side exactly when the right is held, F1 and G1 are
      empty, and E1, F1 and G1 are not attacked. */
  lemma WhiteKingCastleIff(t: PrecomputedData, p: Position)
    requires Shaped(t) && p.turn == WhiteColor
    ensures Move(E1, G1, NoPiece, {WhiteKingCastle}) in CastleMoves(t, p) <==>
      p.castleRights.whiteKingSide && Has(p.board.emptySquares, F1) && Has(p.board.emptySquares, G1) &&
      !IsUnderAttack(t, p.board, p.turn, E1) && !IsUnderAttack(t, p.board, p.turn, F1) && !IsUnderAttack(t, p.board, p.turn, G1)
  {
    var b, rights, m := p.board, p.castleRights, Move(E1, G1, NoPiece, {WhiteKingCastle});
    WhiteKingSideBetween(b.emptySquares);
    CastleMoveIn(CanCastle(t, b, p.turn, rights.whiteKingSide, InBetweenWhiteKingCastle, E1, F1, G1), E1, G1, WhiteKingCastle, m);
    CastleMoveIn(CanCastle(t, b, p.turn, rights.whiteQueenSide, InBetweenWhiteQueenCastle, E1, D1, C1), E1, C1, WhiteQueenCastle, m);
  }

  /** White castles queen side exactly when the right is held, B1, C1 and D1
      are empty, and E1, D1 and C1 are not attacked. */
  lemma WhiteQueenCastleIff(t: PrecomputedData, p: Position)
    requires Shaped(t) && p.turn == WhiteColor
    ensures Move(E1, C1, NoPiece, {WhiteQueenCastle}) in CastleMoves(t, p) <==>
      p.castleRights.whiteQueenSide && Has(p.board.emptySquares, B1) && Has(p.board.emptySquares, C1) && Has(p.board.emptySquares, D1) &&
      !IsUnderAttack(t, p.board, p.turn, E1) && !IsUnderAttack(t, p.board, p.turn, D1) && !IsUnderAttack(t, p.board, p.turn, C1)
  {
    var b, rights, m := p.board, p.castleRights, Move(E1, C1, NoPiece, {WhiteQueenCastle});
    WhiteQueenSideBetween(b.emptySquares);
    CastleMoveIn(CanCastle(t, b, p.turn, rights.whiteKingSide, InBetweenWhiteKingCastle, E1, F1, G1), E1, G1, WhiteKingCastle, m);
    CastleMoveIn(CanCastle(t, b, p.turn, rights.whiteQueenSide, InBetweenWhiteQueenCastle, E1, D1, C1), E1, C1, WhiteQueenCastle, m);
  }

  /** Black castles king side exactly when the right is held, F8 and G8 are
      empty, and E8, F8 and G8 are not attacked. */
  lemma BlackKingCastleIff(t: PrecomputedData, p: Position)
    requires Shaped(t) && p.turn != WhiteColor
    ensures Move(E8, G8, NoPiece, {BlackKingCastle}) in CastleMoves(t, p) <==>
      p.castleRights.blackKingSide && Has(p.board.emptySquares, F8) && Has(p.board.emptySquares, G8) &&
      !IsUnderAttack(t, p.board, p.turn, E8) && !IsUnderAttack(t, p.board, p.turn, F8) && !IsUnderAttack(t, p.board, p.turn, G8)
  {
    var b, rights, m := p.board, p.castleRights, Move(E8, G8, NoPiece, {BlackKingCastle});
    BlackKingSideBetween(b.emptySquares);
    CastleMoveIn(CanCastle(t, b, p.turn, rights.blackKingSide, InBetweenBlackKingCastle, E8, F8, G8), E8, G8, BlackKingCastle, m);
    CastleMoveIn(CanCastle(t, b, p.turn, rights.blackQueenSide, InBetweenBlackQueenCastle, E8, D8, C8), E8, C8, BlackQueenCastle, m);
  }

  /** Black castles queen side exactly when the right is held, B8, C8 and D8
      are empty, and E8, D8 and C8 are not attacked. */
  lemma BlackQueenCastleIff(t: PrecomputedData, p: Position)
    requires Shaped(t) && p.turn != WhiteColor
    ensures Move(E8, C8, NoPiece, {BlackQueenCastle}) in CastleMoves(t, p) <==>
      p.castleRights.blackQueenSide && Has(p.board.emptySquares, B8) && Has(p.board.emptySquares, C8) && Has(p.board.emptySquares, D8) &&
      !IsUnderAttack(t, p.board, p.turn, E8) && !IsUnderAttack(t, p.board, p.turn, D8) && !IsUnderAttack(t, p.board, p.turn, C8)
  {
    var b, rights, m := p.board, p.castleRights, Move(E8, C8, NoPiece, {BlackQueenCastle});
    BlackQueenSideBetween(b.emptySquares);
    CastleMoveIn(CanCastle(t, b, p.turn, rights.blackKingSide, InBetweenBlackKingCastle, E8, F8, G8), E8, G8, BlackKingCastle, m);
    CastleMoveIn(CanCastle(t, b, p.turn, rights.blackQueenSide, InBetweenBlackQueenCastle, E8, D8, C8), E8, C8, BlackQueenCastle, m);
  }

  /** Castling moves are the king's: from E1 (white) or E8 (black), to two
      files aside on the same rank, no promotion, and one castling flag of
      the side to move. */
  lemma CastleMovesShape(t: PrecomputedData, p: Position, m: Move)
    requires Shaped(t) && m in CastleMoves(t, p)
    ensures m.promotion == NoPiece
    ensures p.turn == WhiteColor ==> m.from == E1 && (m.to, m.flags) in {(G1, {WhiteKingCastle}), (C1, {WhiteQueenCastle})}
    ensures p.turn != WhiteColor ==> m.from == E8 && (m.to, m.flags) in {(G8, {BlackKingCastle}), (C8, {BlackQueenCastle})}
  {
    var rights := p.castleRights;
    if p.turn == WhiteColor {
      var kingSide := CanCastle(t, p.board, p.turn, rights.whiteKingSide, InBetweenWhiteKingCastle, E1, F1, G1);
      var queenSide := CanCastle(t, p.board, p.turn, rights.whiteQueenSide, InBetweenWhiteQueenCastle, E1, D1, C1);
      assert m in CastleMove(kingSide, E1, G1, WhiteKingCastle) + CastleMove(queenSide, E1, C1, WhiteQueenCastle);
      CastleMoveIs(m, kingSide, E1, G1, WhiteKingCastle, queenSide, C1, WhiteQueenCastle);
    } else {
      var kingSide := CanCastle(t, p.board, p.turn, rights.blackKingSide, InBetweenBlackKingCastle, E8, F8, G8);
      var queenSide := CanCastle(t, p.board, p.turn, rights.blackQueenSide, InBetweenBlackQueenCastle, E8, D8, C8);
      assert m in CastleMove(kingSide, E8, G8, BlackKingCastle) + CastleMove(queenSide, E8, C8, BlackQueenCastle);
      CastleMoveIs(m, kingSide, E8, G8, BlackKingCastle, queenSide, C8, BlackQueenCastle);
    }
  }

  /** A move of a side's two possible castling moves is one of them. */
  lemma CastleMoveIs(m: Move, kingSide: bool, from: Sq, kingTo: Sq, kingFlag: Flag,
                     queenSide: bool, queenTo: Sq, queenFlag: Flag)
    requires m in CastleMove(kingSide, from, kingTo, kingFlag) + CastleMove(queenSide, from, queenTo, queenFlag)
    ensures m == Move(from, kingTo, NoPiece, {kingFlag}) || m == Move(from, queenTo, NoPiece, {queenFlag})
  {
  }
}
