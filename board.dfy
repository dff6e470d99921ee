/**
 * The board (chessboard/board.go): twelve piece bitboards, three summary
 * bitboards derived from them and the two king squares.
 *
 * `BoardState` is the board as a value, the way a position stores and copies
 * it; `Board` is the same data as an object, updated in place by
 * `FillSupportBitboards` and `Move`.
 */
module Boards {
  import opened Outcomes
  import opened Bitboards
  import opened Pieces
  import opened Zobrist
  import Moves

  /** Piece bitboards indexed by piece code - 1: white king, queen, rook,
      bishop, knight, pawn, then the black ones in the same order. */
  type PieceBoards = s: seq<Bitboard> | |s| == 12 witness [0, 0, 0, 0, 0, 0, 0, 0, 0, 0, 0, 0]

  datatype BoardState = BoardState(
    pieces: PieceBoards,
    whiteSquares: Bitboard,
    blackSquares: Bitboard,
    emptySquares: Bitboard,
    whiteKingSquare: bv8,
    blackKingSquare: bv8)

  /** `a | b | c | d | e | f` */
  function SixUnion(a: Bitboard, b: Bitboard, c: Bitboard, d: Bitboard, e: Bitboard, f: Bitboard): Bitboard
  {
    a | b | c | d | e | f
  }

  /** The white pieces' squares. */
  function WhiteUnion(ps: PieceBoards): Bitboard
  {
    SixUnion(ps[0], ps[1], ps[2], ps[3], ps[4], ps[5])
  }

  /** The black pieces' squares. */
  function BlackUnion(ps: PieceBoards): Bitboard
  {
    SixUnion(ps[6], ps[7], ps[8], ps[9], ps[10], ps[11])
  }

  /** The lowest square of `k` at or above `i`; 64 when there is none. */
  function LowestFrom(k: Bitboard, i: bv8): (s: bv8)
    requires i <= 64
    ensures i <= s <= 64
    decreases 64 - i
  {
    if i == 64 then 64 else if Has(k, i) then i else LowestFrom(k, i + 1)
  }

  /** The square of a king bitboard: its lowest square, 64 when it is empty. */
  function KingSquareOf(k: Bitboard): (s: bv8)
    ensures s <= 64
  {
    LowestFrom(k, 0)
  }

  lemma {:induction false} LowestFromIsLowest(k: Bitboard, i: bv8)
    requires i <= 64
    requires forall t: Sq :: t < i ==> !Has(k, t)
    ensures LowestFrom(k, i) < 64 ==> IsLowestBit(k, LowestFrom(k, i))
    ensures LowestFrom(k, i) == 64 ==> forall t: Sq :: !Has(k, t)
    decreases 64 - i
  {
    if i < 64 && !Has(k, i) {
      LowestFromIsLowest(k, i + 1);
    }
  }

  /** The scan agrees with `square(b.LeastSignificant1Bit())`. */
  lemma KingSquareIsLeastSignificantBit(k: Bitboard)
    ensures KingSquareOf(k) as int == LeastSignificantBit(k)
  {
    LowestFromIsLowest(k, 0);
    if KingSquareOf(k) == 64 {
      forall t: Sq ensures Has(k, t) <==> Has(0, t) {
        EmptyHasNothing(t);
      }
      Extensionality(k, 0);
    }
  }

  /** `^(white | black)` */
  function Unoccupied(white: Bitboard, black: Bitboard): Bitboard
  {
    !(white | black)
  }

  /** The three summaries recomputed from the piece bitboards. */
  function SummariesFilled(b: BoardState): BoardState
  {
    var white := WhiteUnion(b.pieces);
    var black := BlackUnion(b.pieces);
    b.(whiteSquares := white, blackSquares := black, emptySquares := Unoccupied(white, black))
  }

  /** The king squares found from the king bitboards. */
  function KingsFound(b: BoardState): BoardState
  {
    b.(whiteKingSquare := KingSquareOf(b.pieces[WhiteKing - 1]), blackKingSquare := KingSquareOf(b.pieces[BlackKing - 1]))
  }

  /** Everything but the piece bitboards recomputed from them. */
  function Filled(b: BoardState): BoardState
  {
    KingsFound(SummariesFilled(b))
  }

  /** The first piece from code `i + 1` on whose bitboard holds `s`; no piece when none does. */
  function FirstPieceFrom(ps: PieceBoards, s: Sq, i: nat): (p: PieceCode)
    requires i <= 12
    ensures p == NoPiece <==> forall j :: i <= j < 12 ==> !Has(ps[j], s)
    ensures p != NoPiece ==> i < p && Has(ps[p - 1], s) && forall j :: i <= j < p - 1 ==> !Has(ps[j], s)
    decreases 12 - i
  {
    if i == 12 then NoPiece else if Has(ps[i], s) then i + 1 else FirstPieceFrom(ps, s, i + 1)
  }

  /** The piece on `s`: the first of white king .. black pawn whose bitboard
      holds `s`, or no piece. */
  function PieceAt(b: BoardState, s: Sq): (p: PieceCode)
    ensures p == NoPiece <==> forall i :: 0 <= i < 12 ==> !Has(b.pieces[i], s)
    ensures p != NoPiece ==> Has(b.pieces[p - 1], s) && forall i :: 0 <= i < p - 1 ==> !Has(b.pieces[i], s)
  {
    FirstPieceFrom(b.pieces, s, 0)
  }

  /** A square's bitboard, for an 8-bit square value that may be off the
      board (a shift by 64 or more gives 0). */
  function SquareBitboardOf(x: bv8): Bitboard
  {
    if x < 64 then SquareBit(x) else 0
  }

  const A1: Sq := 0
  const D1: Sq := 3
  const F1: Sq := 5
  const H1: Sq := 7
  const A8: Sq := 56
  const D8: Sq := 59
  const F8: Sq := 61
  const H8: Sq := 63

  // ---------------------------------------------------------------------------
  // The word updates `Move` performs, one function per assignment form. Both
  // the method and its specification are written with these.

  /** `p &= ^(fromBB | toBB)` */
  function Cleared(p: Bitboard, from: Sq, to: Sq): Bitboard
  {
    p & !(SquareBit(from) | SquareBit(to))
  }

  function ClearedAll(ps: PieceBoards, from: Sq, to: Sq): PieceBoards
  {
    seq(12, i requires 0 <= i < 12 => Cleared(ps[i], from, to))
  }

  /** `p |= toBB` */
  function Placed(p: Bitboard, to: Sq): Bitboard
  {
    p | SquareBit(to)
  }

  /** `empty = (empty | fromBB) & ^toBB` */
  function Vacated(empty: Bitboard, from: Sq, to: Sq): Bitboard
  {
    (empty | SquareBit(from)) & !SquareBit(to)
  }

  /** The mover's side: `side = (side | toBB) ^ fromBB` */
  function Entered(side: Bitboard, from: Sq, to: Sq): Bitboard
  {
    (side | SquareBit(to)) ^ SquareBit(from)
  }

  /** The other side: `side = side & ^toBB` */
  function Captured(side: Bitboard, to: Sq): Bitboard
  {
    side & !SquareBit(to)
  }

  /** The castling rook, and its side: `p |= dest; p ^= origin` */
  function Jumped(p: Bitboard, dest: Sq, origin: Sq): Bitboard
  {
    (p | SquareBit(dest)) ^ SquareBit(origin)
  }

  /** The empty squares in castling: `empty ^= dest; empty |= origin` */
  function Unblocked(empty: Bitboard, dest: Sq, origin: Sq): Bitboard
  {
    (empty ^ SquareBit(dest)) | SquareBit(origin)
  }

  /** En passant: `p ^= pawn` */
  function Toggled(p: Bitboard, pawn: Bitboard): Bitboard
  {
    p ^ pawn
  }

  /** En passant: `empty |= pawn` */
  function Freed(empty: Bitboard, pawn: Bitboard): Bitboard
  {
    empty | pawn
  }

  // ---------------------------------------------------------------------------
  // `Move` as a function on values, step by step

  /** The `switch piece` placement: `piece` is put on `to`. */
  function PlacedAll(ps: PieceBoards, piece: PieceCode, to: Sq): PieceBoards
    requires piece != NoPiece
  {
    ps[piece - 1 := Placed(ps[piece - 1], to)]
  }

  /** A side's squares after a move: the moving side enters `to` and leaves
      `from`, the other side loses whatever stood on `to`. */
  function SideAfterMove(side: Bitboard, from: Sq, to: Sq, moving: bool): Bitboard
  {
    if moving then Entered(side, from, to) else Captured(side, to)
  }

  /** A king square follows its king when that king moves. */
  function KingSquareAfterMove(k: bv8, to: Sq, moved: bool): bv8
  {
    if moved then to else k
  }

  /** `piece` taken from `from` to `to`: `from` and `to` cleared on every
      piece bitboard, `piece` put on `to`, the king square and the summaries
      updated by its colour. */
  function Relocated(b: BoardState, from: Sq, to: Sq, piece: PieceCode): BoardState
    requires piece != NoPiece
  {
    var white := PieceColor(piece) == Some(WhiteColor);
    BoardState(
      PlacedAll(ClearedAll(b.pieces, from, to), piece, to),
      SideAfterMove(b.whiteSquares, from, to, white),
      SideAfterMove(b.blackSquares, from, to, !white),
      Vacated(b.emptySquares, from, to),
      KingSquareAfterMove(b.whiteKingSquare, to, piece == WhiteKing),
      KingSquareAfterMove(b.blackKingSquare, to, piece == BlackKing))
  }

  /** A side's squares after a castling rook jump: the rook's side gains
      `dest` and loses `origin`. */
  function SideAfterJump(side: Bitboard, dest: Sq, origin: Sq, jumping: bool): Bitboard
  {
    if jumping then Jumped(side, dest, origin) else side
  }

  /** A castling rook jump of `rook` from `origin` to `dest`. */
  function RookJumped(b: BoardState, rook: PieceCode, dest: Sq, origin: Sq): BoardState
    requires rook == WhiteRook || rook == BlackRook
  {
    BoardState(
      b.pieces[rook - 1 := Jumped(b.pieces[rook - 1], dest, origin)],
      SideAfterJump(b.whiteSquares, dest, origin, rook == WhiteRook),
      SideAfterJump(b.blackSquares, dest, origin, rook == BlackRook),
      Unblocked(b.emptySquares, dest, origin),
      b.whiteKingSquare,
      b.blackKingSquare)
  }

  /** A piece on a square, the unit a Zobrist key is drawn for. */
  datatype Placement = Placement(piece: PieceCode, square: Sq)

  /** `zobristHashMoves[piece - 1][square]` */
  function KeyOf(x: Placement, keys: ZobristKeys): ZobristHash
    requires x.piece != NoPiece
  {
    keys(x.piece - 1, x.square)
  }

  /** The keys of two placements, combined. */
  function KeyPair(x: Placement, y: Placement, keys: ZobristKeys): ZobristHash
    requires x.piece != NoPiece && y.piece != NoPiece
  {
    KeyOf(x, keys) ^ KeyOf(y, keys)
  }

  /** Adds the key of placement `x` to `hash`. */
  function WithKey(hash: ZobristHash, x: Placement, keys: ZobristKeys): ZobristHash
    requires x.piece != NoPiece
  {
    hash ^ KeyOf(x, keys)
  }

  datatype RookJump = RookJump(rook: PieceCode, dest: Sq, origin: Sq)

  /** The rook part of castling, selected by the first castling flag present. */
  function CastlingRookJump(flags: set<Moves.Flag>): (r: Option<RookJump>)
    ensures r.Some? ==> r.value.rook == WhiteRook || r.value.rook == BlackRook
  {
    if Moves.WhiteKingCastle in flags then Some(RookJump(WhiteRook, F1, H1))
    else if Moves.WhiteQueenCastle in flags then Some(RookJump(WhiteRook, D1, A1))
    else if Moves.BlackKingCastle in flags then Some(RookJump(BlackRook, F8, H8))
    else if Moves.BlackQueenCastle in flags then Some(RookJump(BlackRook, D8, A8))
    else None
  }

  function Castled(b: BoardState, flags: set<Moves.Flag>): BoardState
  {
    match CastlingRookJump(flags)
    case None => b
    case Some(j) => RookJumped(b, j.rook, j.dest, j.origin)
  }

  /** The rook's keys on both of its squares; nothing without a rook jump. */
  function RookKeys(r: Option<RookJump>, keys: ZobristKeys): ZobristHash
    requires r.Some? ==> r.value.rook != NoPiece
  {
    match r
    case None => 0
    case Some(j) => KeyPair(Placement(j.rook, j.dest), Placement(j.rook, j.origin), keys)
  }

  /** The en passant capture: the pawn one rank behind the target is toggled off. */
  function EnPassantCaptured(b: BoardState, to: Sq, flags: set<Moves.Flag>): BoardState
  {
    if Moves.WhiteEnPassant in flags then
      var pawn := SquareBitboardOf(to - 8);
      BoardState(b.pieces[BlackPawn - 1 := Toggled(b.pieces[BlackPawn - 1], pawn)],
                 b.whiteSquares, Toggled(b.blackSquares, pawn), Freed(b.emptySquares, pawn),
                 b.whiteKingSquare, b.blackKingSquare)
    else if Moves.BlackEnPassant in flags then
      var pawn := SquareBitboardOf(to + 8);
      BoardState(b.pieces[WhitePawn - 1 := Toggled(b.pieces[WhitePawn - 1], pawn)],
                 Toggled(b.whiteSquares, pawn), b.blackSquares, Freed(b.emptySquares, pawn),
                 b.whiteKingSquare, b.blackKingSquare)
    else b
  }

  /** The piece that ends up on the target: the promotion piece if any, else the mover. */
  function PlacedPiece(mover: PieceCode, m: Moves.Move): PieceCode
  {
    if m.promotion != NoPiece then m.promotion else mover
  }

  function Combined(hash: ZobristHash, rookHash: ZobristHash): ZobristHash
  {
    hash ^ rookHash
  }

  datatype MoveEffect = MoveEffect(board: BoardState, hash: ZobristHash)

  /** The placements whose keys `Move` XORs, in its order: the mover on the
      origin and the placed piece on the target, the captured piece on the
      target if any, and the castling rook on both of its squares if any. */
  datatype Delta = Delta(moved: Placement, placed: Placement, captured: Option<Placement>, rook: Option<RookJump>)
  {
    predicate Keyed()
    {
      && moved.piece != NoPiece && placed.piece != NoPiece
      && (captured.Some? ==> captured.value.piece != NoPiece)
      && (rook.Some? ==> rook.value.rook != NoPiece)
    }

    /** The XOR of the keys, grouped as `Move` groups them. */
    function Hash(keys: ZobristKeys): ZobristHash
      requires Keyed()
    {
      var hash := KeyPair(moved, placed, keys);
      var hash := match captured case None => hash case Some(x) => WithKey(hash, x, keys);
      Combined(hash, RookKeys(rook, keys))
    }
  }

  /** The delta of a move from an occupied square. */
  function MoveDelta(b: BoardState, m: Moves.Move): (d: Delta)
    requires PieceAt(b, m.from) != NoPiece
    ensures d.Keyed()
  {
    var mover := PieceAt(b, m.from);
    var target := PieceAt(b, m.to);
    Delta(Placement(mover, m.from), Placement(PlacedPiece(mover, m), m.to),
          if target != NoPiece then Some(Placement(target, m.to)) else None,
          CastlingRookJump(m.flags))
  }

  /** The board after `m` and the Zobrist delta; an empty origin fails. */
  function Moved(b: BoardState, m: Moves.Move, keys: ZobristKeys): Result<MoveEffect>
  {
    var mover := PieceAt(b, m.from);
    if mover == NoPiece then Err("From position is empty")
    else
      var piece := PlacedPiece(mover, m);
      var board := EnPassantCaptured(Castled(Relocated(b, m.from, m.to, piece), m.flags), m.to, m.flags);
      Ok(MoveEffect(board, MoveDelta(b, m).Hash(keys)))
  }

  class Board {
    var pieces: PieceBoards
    var whiteSquares: Bitboard
    var blackSquares: Bitboard
    var emptySquares: Bitboard
    var whiteKingSquare: bv8
    var blackKingSquare: bv8

    function State(): BoardState
      reads this
    {
      BoardState(pieces, whiteSquares, blackSquares, emptySquares, whiteKingSquare, blackKingSquare)
    }

    /** A board object holding a copy of `s`. */
    constructor (s: BoardState)
      ensures State() == s
    {
      pieces := s.pieces;
      whiteSquares := s.whiteSquares;
      blackSquares := s.blackSquares;
      emptySquares := s.emptySquares;
      whiteKingSquare := s.whiteKingSquare;
      blackKingSquare := s.blackKingSquare;
    }

    method FillSummaries()
      modifies this
      ensures State() == SummariesFilled(old(State()))
    {
      whiteSquares := WhiteUnion(pieces);
      blackSquares := BlackUnion(pieces);
      emptySquares := Unoccupied(whiteSquares, blackSquares);
    }

    method FindKings()
      modifies this
      ensures State() == KingsFound(old(State()))
    {
      whiteKingSquare := KingSquareOf(pieces[WhiteKing - 1]);
      blackKingSquare := KingSquareOf(pieces[BlackKing - 1]);
    }

    method FillSupportBitboards()
      modifies this
      ensures State() == Filled(old(State()))
    {
      FillSummaries();
      FindKings();
    }

    function Piece(s: Sq): PieceCode
      reads this
    {
      PieceAt(State(), s)
    }

    method PlacePiece(from: Sq, to: Sq, piece: PieceCode)
      requires piece != NoPiece
      modifies this
      ensures pieces == PlacedAll(ClearedAll(old(pieces), from, to), piece, to)
      ensures whiteSquares == old(whiteSquares) && blackSquares == old(blackSquares) && emptySquares == old(emptySquares)
      ensures whiteKingSquare == old(whiteKingSquare) && blackKingSquare == old(blackKingSquare)
    {
      pieces := ClearedAll(pieces, from, to);
      pieces := PlacedAll(pieces, piece, to);
    }

    method TrackKing(to: Sq, piece: PieceCode)
      modifies this
      ensures whiteKingSquare == KingSquareAfterMove(old(whiteKingSquare), to, piece == WhiteKing)
      ensures blackKingSquare == KingSquareAfterMove(old(blackKingSquare), to, piece == BlackKing)
      ensures pieces == old(pieces)
      ensures whiteSquares == old(whiteSquares) && blackSquares == old(blackSquares) && emptySquares == old(emptySquares)
    {
      if piece == WhiteKing {
        whiteKingSquare := to;
      } else if piece == BlackKing {
        blackKingSquare := to;
      }
    }

    method MoveSummaries(from: Sq, to: Sq, white: bool)
      modifies this
      ensures emptySquares == Vacated(old(emptySquares), from, to)
      ensures whiteSquares == SideAfterMove(old(whiteSquares), from, to, white)
      ensures blackSquares == SideAfterMove(old(blackSquares), from, to, !white)
      ensures pieces == old(pieces)
      ensures whiteKingSquare == old(whiteKingSquare) && blackKingSquare == old(blackKingSquare)
    {
      emptySquares := Vacated(emptySquares, from, to);
      if white {
        whiteSquares := Entered(whiteSquares, from, to);
        blackSquares := Captured(blackSquares, to);
      } else {
        blackSquares := Entered(blackSquares, from, to);
        whiteSquares := Captured(whiteSquares, to);
      }
    }

    method Relocate(from: Sq, to: Sq, piece: PieceCode)
      requires piece != NoPiece
      modifies this
      ensures State() == Relocated(old(State()), from, to, piece)
    {
      PlacePiece(from, to, piece);
      TrackKing(to, piece);
      MoveSummaries(from, to, PieceColor(piece) == Some(WhiteColor));
    }

    method JumpRook(rook: PieceCode, dest: Sq, origin: Sq, keys: ZobristKeys) returns (hash: ZobristHash)
      requires rook == WhiteRook || rook == BlackRook
      modifies this
      ensures State() == RookJumped(old(State()), rook, dest, origin)
      ensures hash == KeyPair(Placement(rook, dest), Placement(rook, origin), keys)
    {
      pieces := pieces[rook - 1 := Jumped(pieces[rook - 1], dest, origin)];
      if rook == WhiteRook {
        whiteSquares := Jumped(whiteSquares, dest, origin);
      } else {
        blackSquares := Jumped(blackSquares, dest, origin);
      }
      emptySquares := Unblocked(emptySquares, dest, origin);
      hash := KeyPair(Placement(rook, dest), Placement(rook, origin), keys);
    }

    method CaptureEnPassant(to: Sq, flags: set<Moves.Flag>)
      modifies this
      ensures State() == EnPassantCaptured(old(State()), to, flags)
    {
      if Moves.WhiteEnPassant in flags {
        var blackPawnPosition := SquareBitboardOf(to - 8);
        pieces := pieces[BlackPawn - 1 := Toggled(pieces[BlackPawn - 1], blackPawnPosition)];
        blackSquares := Toggled(blackSquares, blackPawnPosition);
        emptySquares := Freed(emptySquares, blackPawnPosition);
      } else if Moves.BlackEnPassant in flags {
        var whitePawnPosition := SquareBitboardOf(to + 8);
        pieces := pieces[WhitePawn - 1 := Toggled(pieces[WhitePawn - 1], whitePawnPosition)];
        whiteSquares := Toggled(whiteSquares, whitePawnPosition);
        emptySquares := Freed(emptySquares, whitePawnPosition);
      }
    }

    method Castle(flags: set<Moves.Flag>, keys: ZobristKeys) returns (rookHash: ZobristHash)
      modifies this
      ensures State() == Castled(old(State()), flags)
      ensures rookHash == RookKeys(CastlingRookJump(flags), keys)
    {
      match CastlingRookJump(flags)
      case None =>
        rookHash := 0;
      case Some(j) =>
        rookHash := JumpRook(j.rook, j.dest, j.origin, keys);
    }

    /** Applies `m` in place and returns the Zobrist delta. */
    method Move(m: Moves.Move, keys: ZobristKeys) returns (r: Result<ZobristHash>)
      modifies this
      ensures Moved(old(State()), m, keys).Ok? ==>
        r == Ok(Moved(old(State()), m, keys).value.hash) && State() == Moved(old(State()), m, keys).value.board
      ensures Moved(old(State()), m, keys).Err? ==> r.Err? && State() == old(State())
    {
      // The key lookup for the moving piece fails first for an empty origin.
      var mover := Piece(m.from);
      if mover == NoPiece {
        return Err("From position is empty");
      }
      var piece := PlacedPiece(mover, m);
      var hash := KeyPair(Placement(mover, m.from), Placement(piece, m.to), keys);
      var target := Piece(m.to);
      if target != NoPiece {
        hash := WithKey(hash, Placement(target, m.to), keys);
      }
      Relocate(m.from, m.to, piece);
      var rookHash := Castle(m.flags, keys);
      CaptureEnPassant(m.to, m.flags);
      return Ok(Combined(hash, rookHash));
    }
  }
}
