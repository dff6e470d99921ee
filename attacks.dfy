/**
 * The precomputed move tables (`PrecomputedData`, chessboard/game.go:12-23)
 * and the attack test built on them (`IsUnderAttack`, chessboard/board.go).
 *
 * The tables are an input: the generators in bitboard_generators/ build
 * them and their own modules state what the entries hold. Here they are
 * only required to have the shape the lookups index into. A slider's attack
 * set is read from a magic-indexed row, the row index being the top `bits`
 * bits of `blockers * magic` (wrapping 64-bit product).
 */
module Attacks {
  import opened Bitboards
  import opened Pieces
  import opened Boards

  datatype PrecomputedData = PrecomputedData(
    kingMoves: seq<Bitboard>,
    knightMoves: seq<Bitboard>,
    rookMagics: seq<bv64>,
    rookIndexBits: seq<bv8>,
    rookMasks: seq<Bitboard>,
    rookMoves: seq<seq<Bitboard>>,
    bishopMagics: seq<bv64>,
    bishopIndexBits: seq<bv8>,
    bishopMasks: seq<Bitboard>,
    bishopMoves: seq<seq<Bitboard>>)

  const RookRowSize := 4096
  const BishopRowSize := 1024

  /** 64 entries per table, rows of 4096 (rook) and 1024 (bishop) attack
      sets, and index widths that keep every key inside its row. */
  predicate Shaped(t: PrecomputedData)
  {
    |t.kingMoves| == 64 && |t.knightMoves| == 64 &&
    |t.rookMagics| == 64 && |t.rookIndexBits| == 64 && |t.rookMasks| == 64 && |t.rookMoves| == 64 &&
    |t.bishopMagics| == 64 && |t.bishopIndexBits| == 64 && |t.bishopMasks| == 64 && |t.bishopMoves| == 64 &&
    (forall i :: 0 <= i < 64 ==> |t.rookMoves[i]| == RookRowSize && t.rookIndexBits[i] <= 12) &&
    (forall i :: 0 <= i < 64 ==> |t.bishopMoves[i]| == BishopRowSize && t.bishopIndexBits[i] <= 10)
  }

  // ---------------------------------------------------------------------------
  // Magic keys

  /** `blockers * magic` as a Go `uint64` product, modulo 2^64. */
  function Product(blockers: Bitboard, magic: bv64): bv64
  {
    blockers * magic
  }

  /** `p >> (64 - bits)`; Go's shift by 64 (bits = 0) yields 0. */
  function TopBits(p: bv64, bits: bv8): bv64
    requires bits <= 64
  {
    if bits == 0 then 0 else p >> (64 - bits)
  }

  /** Keeping the top `bits` bits leaves a value below 2^bits. */
  lemma TopBitsBound(p: bv64, bits: bv8)
    requires bits < 64
    ensures TopBits(p, bits) < 1 << bits
  {
  }

  /** A key of at most 12 bits fits a rook row; one of at most 10 a bishop row. */
  lemma KeyFitsRow(p: bv64, bits: bv8)
    requires bits <= 12
    ensures TopBits(p, bits) < 4096
    ensures bits <= 10 ==> TopBits(p, bits) < 1024
  {
    TopBitsBound(p, bits);
  }

  /** The row index of a key below 4096. */
  function RowIndex(key: bv64): (k: int)
    requires key < 4096
    ensures 0 <= k < RookRowSize
    ensures key < 1024 ==> k < BishopRowSize
  {
    (key as bv12) as int
  }

  /** The magic key of a blocker set: its row index in the attack table. */
  function MagicKey(blockers: Bitboard, magic: bv64, bits: bv8): (k: int)
    requires bits <= 12
    ensures 0 <= k < RookRowSize
    ensures bits <= 10 ==> k < BishopRowSize
  {
    var p := Product(blockers, magic);
    KeyFitsRow(p, bits);
    RowIndex(TopBits(p, bits))
  }

  /** The blockers a lookup keys on: the occupied squares among `mask`. */
  function Occupied(empty: Bitboard, mask: Bitboard): Bitboard
  {
    !empty & mask
  }

  /** The rook attack set from `sq` when `empty` are the empty squares. */
  function RookAttacks(t: PrecomputedData, empty: Bitboard, sq: Sq): Bitboard
    requires Shaped(t)
  {
    var i := sq as int;
    t.rookMoves[i][MagicKey(Occupied(empty, t.rookMasks[i]), t.rookMagics[i], t.rookIndexBits[i])]
  }

  /** The bishop attack set from `sq` when `empty` are the empty squares. */
  function BishopAttacks(t: PrecomputedData, empty: Bitboard, sq: Sq): Bitboard
    requires Shaped(t)
  {
    var i := sq as int;
    t.bishopMoves[i][MagicKey(Occupied(empty, t.bishopMasks[i]), t.bishopMagics[i], t.bishopIndexBits[i])]
  }

  // ---------------------------------------------------------------------------
  // IsUnderAttack

  /** Offset of the opponent's bitboards in `pieces`: black ones (6..11) when
      white is to move, white ones otherwise. */
  function EnemyOffset(turn: int): (o: int)
    ensures o == 0 || o == 6
  {
    if turn == WhiteColor then 6 else 0
  }

  /** The opponent's bitboard of the white piece kind `kind` (1..6). */
  function Enemy(b: BoardState, turn: int, kind: int): Bitboard
    requires WhiteKing <= kind <= WhitePawn
  {
    b.pieces[EnemyOffset(turn) + kind - 1]
  }

  const H2: Sq := 15
  const H7: Sq := 55

  /** The pawn guard of board.go: for white, squares below H7 look at the two
      squares diagonally ahead; for black, squares above H2 look at the two
      diagonally behind. */
  function PawnAttack(b: BoardState, turn: int, sq: Sq): bool
  {
    if turn == WhiteColor then
      (sq < H7 && sq % 8 != 0 && Has(b.pieces[BlackPawn - 1], sq + 7)) ||
      (sq < H7 && sq % 8 != 7 && Has(b.pieces[BlackPawn - 1], sq + 9))
    else
      (sq > H2 && sq % 8 != 0 && Has(b.pieces[WhitePawn - 1], sq - 9)) ||
      (sq > H2 && sq % 8 != 7 && Has(b.pieces[WhitePawn - 1], sq - 7))
  }

  /** The four table tests of board.go, in its order: the squares a king
      move, a knight move, a rook lookup and a bishop lookup away from the
      square, against the enemy king, knights, rooks and queens, bishops and
      queens. */
  function TableHits(king: Bitboard, enemyKing: Bitboard, knight: Bitboard, enemyKnights: Bitboard,
                     rook: Bitboard, enemyRookLikes: Bitboard, bishop: Bitboard, enemyBishopLikes: Bitboard): bool
  {
    if king & enemyKing != 0 then true
    else if knight & enemyKnights != 0 then true
    else if rook & enemyRookLikes != 0 then true
    else bishop & enemyBishopLikes != 0
  }

  /** Whether the side to move, `turn`, has `sq` attacked: by the enemy king,
      a knight, a rook or queen along a rank or file, a bishop or queen along a
      diagonal, or a pawn. The board is a value, so it is left unchanged. */
  function IsUnderAttack(t: PrecomputedData, b: BoardState, turn: int, sq: Sq): bool
    requires Shaped(t)
  {
    var i := sq as int;
    var enemyKnights := Enemy(b, turn, WhiteKnight);
    var enemyBishopLikes := Enemy(b, turn, WhiteBishop) | Enemy(b, turn, WhiteQueen);
    var enemyRookLikes := Enemy(b, turn, WhiteRook) | Enemy(b, turn, WhiteQueen);
    var enemyKing := Enemy(b, turn, WhiteKing);
    if TableHits(t.kingMoves[i], enemyKing, t.knightMoves[i], enemyKnights,
                 RookAttacks(t, b.emptySquares, sq), enemyRookLikes,
                 BishopAttacks(t, b.emptySquares, sq), enemyBishopLikes)
    then true
    else PawnAttack(b, turn, sq)
  }

  // ---------------------------------------------------------------------------
  // IsUnderAttack, square by square

  /** Square `s` is in both `x` and `y`. */
  predicate Meets(x: Bitboard, y: Bitboard, s: Sq)
  {
    Has(x, s) && Has(y, s)
  }

  lemma MeetWitness(x: Bitboard, y: Bitboard) returns (k: Sq)
    requires x & y != 0
    ensures Meets(x, y, k)
  {
    k := LowestExists(x & y, 0);
    AndHas(x, y, k);
  }

  lemma MeetAt(x: Bitboard, y: Bitboard, s: Sq)
    requires Meets(x, y, s)
    ensures x & y != 0
  {
    AndHas(x, y, s);
  }

  /** An enemy piece on `s` stands on one of its attack squares. */
  predicate TableHitAt(king: Bitboard, enemyKing: Bitboard, knight: Bitboard, enemyKnights: Bitboard,
                       rook: Bitboard, enemyRookLikes: Bitboard, bishop: Bitboard, enemyBishopLikes: Bitboard, s: Sq)
  {
    Meets(king, enemyKing, s) || Meets(knight, enemyKnights, s) ||
    Meets(rook, enemyRookLikes, s) || Meets(bishop, enemyBishopLikes, s)
  }

  /** When the table tests succeed, some square holds an attacking piece. */
  lemma TableHitWitness(king: Bitboard, enemyKing: Bitboard, knight: Bitboard, enemyKnights: Bitboard,
                        rook: Bitboard, enemyRookLikes: Bitboard, bishop: Bitboard, enemyBishopLikes: Bitboard)
    returns (k: Sq)
    requires TableHits(king, enemyKing, knight, enemyKnights, rook, enemyRookLikes, bishop, enemyBishopLikes)
    ensures TableHitAt(king, enemyKing, knight, enemyKnights, rook, enemyRookLikes, bishop, enemyBishopLikes, k)
  {
    if king & enemyKing != 0 {
      k := MeetWitness(king, enemyKing);
    } else if knight & enemyKnights != 0 {
      k := MeetWitness(knight, enemyKnights);
    } else if rook & enemyRookLikes != 0 {
      k := MeetWitness(rook, enemyRookLikes);
    } else {
      k := MeetWitness(bishop, enemyBishopLikes);
    }
  }

  /** An attacking piece on any square makes the table tests succeed. */
  lemma TableHitFrom(king: Bitboard, enemyKing: Bitboard, knight: Bitboard, enemyKnights: Bitboard,
                     rook: Bitboard, enemyRookLikes: Bitboard, bishop: Bitboard, enemyBishopLikes: Bitboard, s: Sq)
    requires TableHitAt(king, enemyKing, knight, enemyKnights, rook, enemyRookLikes, bishop, enemyBishopLikes, s)
    ensures TableHits(king, enemyKing, knight, enemyKnights, rook, enemyRookLikes, bishop, enemyBishopLikes)
  {
    if Meets(king, enemyKing, s) {
      MeetAt(king, enemyKing, s);
    } else if Meets(knight, enemyKnights, s) {
      MeetAt(knight, enemyKnights, s);
    } else if Meets(rook, enemyRookLikes, s) {
      MeetAt(rook, enemyRookLikes, s);
    } else {
      MeetAt(bishop, enemyBishopLikes, s);
    }
  }

  /** `s` is diagonally in front of `sq` for the side `turn`'s king, as the
      pawn guard of board.go examines it. */
  predicate PawnSquare(turn: int, sq: Sq, s: Sq)
  {
    if turn == WhiteColor then
      sq < H7 && ((sq % 8 != 0 && s == sq + 7) || (sq % 8 != 7 && s == sq + 9))
    else
      sq > H2 && ((sq % 8 != 0 && s == sq - 9) || (sq % 8 != 7 && s == sq - 7))
  }

  /** The pawn squares are the squares one file aside and one rank towards
      the enemy, for a square below H7 (white) or above H2 (black). */
  lemma PawnSquareIsDiagonal(turn: int, sq: Sq, s: Sq)
    ensures PawnSquare(turn, sq, s) <==>
      (if turn == WhiteColor then sq < H7 && s / 8 == sq / 8 + 1 else sq > H2 && s / 8 + 1 == sq / 8) &&
      (s % 8 + 1 == sq % 8 || s % 8 == sq % 8 + 1)
  {
  }

  /** `s` holds an enemy pawn standing on a pawn square of `sq`. */
  predicate PawnAttacker(b: BoardState, turn: int, sq: Sq, s: Sq)
  {
    PawnSquare(turn, sq, s) && Has(Enemy(b, turn, WhitePawn), s)
  }

  lemma WhitePawnAttackIff(b: BoardState, sq: Sq)
    ensures PawnAttack(b, WhiteColor, sq) <==> exists s: Sq :: PawnAttacker(b, WhiteColor, sq, s)
  {
    if PawnAttack(b, WhiteColor, sq) {
      if sq % 8 != 0 && Has(b.pieces[BlackPawn - 1], sq + 7) {
        assert PawnAttacker(b, WhiteColor, sq, sq + 7);
      } else {
        assert PawnAttacker(b, WhiteColor, sq, sq + 9);
      }
    }
    if exists s: Sq :: PawnAttacker(b, WhiteColor, sq, s) {
      var s: Sq :| PawnAttacker(b, WhiteColor, sq, s);
      assert Enemy(b, WhiteColor, WhitePawn) == b.pieces[BlackPawn - 1];
    }
  }

  lemma BlackPawnAttackIff(b: BoardState, turn: int, sq: Sq)
    requires turn != WhiteColor
    ensures PawnAttack(b, turn, sq) <==> exists s: Sq :: PawnAttacker(b, turn, sq, s)
  {
    if PawnAttack(b, turn, sq) {
      if sq % 8 != 0 && Has(b.pieces[WhitePawn - 1], sq - 9) {
        assert PawnAttacker(b, turn, sq, sq - 9);
      } else {
        assert PawnAttacker(b, turn, sq, sq - 7);
      }
    }
    if exists s: Sq :: PawnAttacker(b, turn, sq, s) {
      var s: Sq :| PawnAttacker(b, turn, sq, s);
      assert Enemy(b, turn, WhitePawn) == b.pieces[WhitePawn - 1];
      assert Has(b.pieces[WhitePawn - 1], s);
      if sq % 8 != 0 && s == sq - 9 {
        assert sq > H2 && sq % 8 != 0 && Has(b.pieces[WhitePawn - 1], sq - 9);
      } else {
        assert sq > H2 && sq % 8 != 7 && Has(b.pieces[WhitePawn - 1], sq - 7);
      }
    }
  }

  /** The pawn test holds exactly when an enemy pawn stands on a pawn square. */
  lemma PawnAttackIff(b: BoardState, turn: int, sq: Sq)
    ensures PawnAttack(b, turn, sq) <==> exists s: Sq :: PawnAttacker(b, turn, sq, s)
  {
    if turn == WhiteColor {
      WhitePawnAttackIff(b, sq);
    } else {
      BlackPawnAttackIff(b, turn, sq);
    }
  }

  /** An enemy piece on `s` attacks `sq`: through the tables or as a pawn. */
  predicate Attacker(t: PrecomputedData, b: BoardState, turn: int, sq: Sq, s: Sq)
    requires Shaped(t)
  {
    var i := sq as int;
    TableHitAt(t.kingMoves[i], Enemy(b, turn, WhiteKing), t.knightMoves[i], Enemy(b, turn, WhiteKnight),
               RookAttacks(t, b.emptySquares, sq), Enemy(b, turn, WhiteRook) | Enemy(b, turn, WhiteQueen),
               BishopAttacks(t, b.emptySquares, sq), Enemy(b, turn, WhiteBishop) | Enemy(b, turn, WhiteQueen), s) ||
    PawnAttacker(b, turn, sq, s)
  }

  lemma AttackerWitness(t: PrecomputedData, b: BoardState, turn: int, sq: Sq) returns (k: Sq)
    requires Shaped(t) && IsUnderAttack(t, b, turn, sq)
    ensures Attacker(t, b, turn, sq, k)
  {
    var i := sq as int;
    var king, knight := t.kingMoves[i], t.knightMoves[i];
    var rook, bishop := RookAttacks(t, b.emptySquares, sq), BishopAttacks(t, b.emptySquares, sq);
    var enemyKing, enemyKnights := Enemy(b, turn, WhiteKing), Enemy(b, turn, WhiteKnight);
    var enemyRookLikes := Enemy(b, turn, WhiteRook) | Enemy(b, turn, WhiteQueen);
    var enemyBishopLikes := Enemy(b, turn, WhiteBishop) | Enemy(b, turn, WhiteQueen);
    if TableHits(king, enemyKing, knight, enemyKnights, rook, enemyRookLikes, bishop, enemyBishopLikes) {
      k := TableHitWitness(king, enemyKing, knight, enemyKnights, rook, enemyRookLikes, bishop, enemyBishopLikes);
    } else {
      PawnAttackIff(b, turn, sq);
      k :| PawnAttacker(b, turn, sq, k);
    }
  }

  lemma AttackerFrom(t: PrecomputedData, b: BoardState, turn: int, sq: Sq, s: Sq)
    requires Shaped(t) && Attacker(t, b, turn, sq, s)
    ensures IsUnderAttack(t, b, turn, sq)
  {
    var i := sq as int;
    var king, knight := t.kingMoves[i], t.knightMoves[i];
    var rook, bishop := RookAttacks(t, b.emptySquares, sq), BishopAttacks(t, b.emptySquares, sq);
    var enemyKing, enemyKnights := Enemy(b, turn, WhiteKing), Enemy(b, turn, WhiteKnight);
    var enemyRookLikes := Enemy(b, turn, WhiteRook) | Enemy(b, turn, WhiteQueen);
    var enemyBishopLikes := Enemy(b, turn, WhiteBishop) | Enemy(b, turn, WhiteQueen);
    if TableHitAt(king, enemyKing, knight, enemyKnights, rook, enemyRookLikes, bishop, enemyBishopLikes, s) {
      TableHitFrom(king, enemyKing, knight, enemyKnights, rook, enemyRookLikes, bishop, enemyBishopLikes, s);
    } else {
      PawnAttackIff(b, turn, sq);
    }
  }

  /** `sq` is under attack exactly when some square holds an enemy piece that
      attacks it: a king or knight on its table square, a rook or queen on its
      rook lookup, a bishop or queen on its bishop lookup, or a pawn on a
      pawn square. */
  lemma IsUnderAttackIff(t: PrecomputedData, b: BoardState, turn: int, sq: Sq)
    requires Shaped(t)
    ensures IsUnderAttack(t, b, turn, sq) <==> exists s: Sq :: Attacker(t, b, turn, sq, s)
  {
    if IsUnderAttack(t, b, turn, sq) {
      var k := AttackerWitness(t, b, turn, sq);
    }
    forall s: Sq | Attacker(t, b, turn, sq, s) ensures IsUnderAttack(t, b, turn, sq) {
      AttackerFrom(t, b, turn, sq, s);
    }
  }
}
