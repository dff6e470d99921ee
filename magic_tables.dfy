/**
 * The move tables of the sliding pieces (bitboard_generators/rook.go and
 * bitboard_generators/bishop.go). For each square the generator counts
 * through every blocker set made of the square's `choices`, computes the
 * moves for it, and stores them in the square's row at the blocker set's
 * magic key, panicking when a slot already holds different moves. A panic
 * is modelled as the result `false`.
 */
module MagicTables {
  import opened Bitboards
  import opened TableBuilding
  import opened SlidingRays
  import opened BlockerSubsets
  import opened Attacks
  import opened RookTable
  import opened BishopTable

  /** A row width together with index widths whose keys stay inside it. */
  predicate RowFits(width: int, bits: bv8)
  {
    (width == RookRowSize && bits <= 12) || (width == BishopRowSize && bits <= 10)
  }

  /** The magic key of counter value `k`. */
  function KeyOf(cs: seq<Sq>, k: nat, magic: bv64, bits: bv8): int
    requires bits <= 12
  {
    MagicKey(Blockers(cs, k), magic, bits)
  }

  /** The moves stored for counter value `k` by a piece on `s` walking `ds`. */
  function MovesOf(cs: seq<Sq>, k: nat, s: Sq, ds: seq<Direction>): Bitboard
  {
    Slide(Blockers(cs, k), s, ds)
  }

  /** Row `s` of `rows`. */
  ghost function RowOf(rows: array2<Bitboard>, s: Sq): (row: seq<Bitboard>)
    requires rows.Length0 == 64
    reads rows
    ensures |row| == rows.Length1
  {
    seq(rows.Length1, j requires 0 <= j < rows.Length1 reads rows => rows[s, j])
  }

  /** Every counter value below `k` has its moves at its key in `row`. */
  ghost predicate Stored(row: seq<Bitboard>, s: Sq, cs: seq<Sq>, magic: bv64, bits: bv8, ds: seq<Direction>, k: nat)
    requires RowFits(|row|, bits)
  {
    forall i: nat :: i < k ==> row[KeyOf(cs, i, magic, bits)] == MovesOf(cs, i, s, ds)
  }

  /** Every filled slot of `row` holds the moves of a counter value below `k` whose key it is. */
  ghost predicate Justified(row: seq<Bitboard>, s: Sq, cs: seq<Sq>, magic: bv64, bits: bv8, ds: seq<Direction>, k: nat)
    requires bits <= 12
  {
    forall j :: 0 <= j < |row| && row[j] != 0 ==>
      exists i: nat :: i < k && KeyOf(cs, i, magic, bits) == j && MovesOf(cs, i, s, ds) == row[j]
  }

  /** Two counter values below `n` share a key but not their moves. */
  ghost predicate Collision(s: Sq, cs: seq<Sq>, magic: bv64, bits: bv8, ds: seq<Direction>, n: nat)
    requires bits <= 12
  {
    exists i: nat, j: nat :: i < j < n && KeyOf(cs, i, magic, bits) == KeyOf(cs, j, magic, bits) &&
      MovesOf(cs, i, s, ds) != MovesOf(cs, j, s, ds)
  }

  /** A filled slot holding other moves than those of counter value `k` at its key is a collision. */
  lemma CollisionFound(row: seq<Bitboard>, s: Sq, cs: seq<Sq>, magic: bv64, bits: bv8, ds: seq<Direction>, k: nat, n: nat,
                        key: int, moves: Bitboard)
    requires RowFits(|row|, bits) && k < n
    requires Justified(row, s, cs, magic, bits, ds, k)
    requires key == KeyOf(cs, k, magic, bits) && moves == MovesOf(cs, k, s, ds)
    requires row[key] != 0 && row[key] != moves
    ensures Collision(s, cs, magic, bits, ds, n)
  {
    var i: nat :| i < k && KeyOf(cs, i, magic, bits) == key && MovesOf(cs, i, s, ds) == row[key];
  }

  /** Storing the moves of counter value `k` at its key keeps every earlier value's moves in place. */
  lemma StoredStep(row: seq<Bitboard>, s: Sq, cs: seq<Sq>, magic: bv64, bits: bv8, ds: seq<Direction>, k: nat,
                   key: int, moves: Bitboard)
    requires RowFits(|row|, bits)
    requires forall i: nat :: MovesOf(cs, i, s, ds) != 0
    requires Stored(row, s, cs, magic, bits, ds, k)
    requires key == KeyOf(cs, k, magic, bits) && moves == MovesOf(cs, k, s, ds)
    requires row[key] == 0 || row[key] == moves
    ensures Stored(row[key := moves], s, cs, magic, bits, ds, k + 1)
  {
    forall i: nat | i < k + 1
      ensures row[key := moves][KeyOf(cs, i, magic, bits)] == MovesOf(cs, i, s, ds)
    {
      if i < k && KeyOf(cs, i, magic, bits) == key {
        assert row[key] == MovesOf(cs, i, s, ds);
      }
    }
  }

  /** Storing the moves of counter value `k` at its key leaves every filled slot explained. */
  lemma JustifiedStep(row: seq<Bitboard>, s: Sq, cs: seq<Sq>, magic: bv64, bits: bv8, ds: seq<Direction>, k: nat,
                      key: int, moves: Bitboard)
    requires RowFits(|row|, bits)
    requires Justified(row, s, cs, magic, bits, ds, k)
    requires key == KeyOf(cs, k, magic, bits) && moves == MovesOf(cs, k, s, ds)
    ensures Justified(row[key := moves], s, cs, magic, bits, ds, k + 1)
  {
    var next := row[key := moves];
    forall j | 0 <= j < |next| && next[j] != 0
      ensures exists i: nat :: i < k + 1 && KeyOf(cs, i, magic, bits) == j && MovesOf(cs, i, s, ds) == next[j]
    {
      if j == key {
        assert KeyOf(cs, k, magic, bits) == j && MovesOf(cs, k, s, ds) == next[j];
      } else {
        var i: nat :| i < k && KeyOf(cs, i, magic, bits) == j && MovesOf(cs, i, s, ds) == row[j];
      }
    }
  }

  /** Passing the check for counter value `k` means it collides with no earlier value. */
  lemma NoCollisionStep(row: seq<Bitboard>, s: Sq, cs: seq<Sq>, magic: bv64, bits: bv8, ds: seq<Direction>, k: nat,
                        key: int, moves: Bitboard)
    requires RowFits(|row|, bits)
    requires forall i: nat :: MovesOf(cs, i, s, ds) != 0
    requires Stored(row, s, cs, magic, bits, ds, k)
    requires !Collision(s, cs, magic, bits, ds, k)
    requires key == KeyOf(cs, k, magic, bits) && moves == MovesOf(cs, k, s, ds)
    requires row[key] == 0 || row[key] == moves
    ensures !Collision(s, cs, magic, bits, ds, k + 1)
  {
    forall i: nat, j: nat | i < j < k + 1 && KeyOf(cs, i, magic, bits) == KeyOf(cs, j, magic, bits)
      ensures MovesOf(cs, i, s, ds) == MovesOf(cs, j, s, ds)
    {
      if j == k {
        assert row[key] == MovesOf(cs, i, s, ds);
      }
    }
  }

  /** Every blocker set leaves the piece a move when some direction has room. */
  lemma MovesNonEmpty(cs: seq<Sq>, s: Sq, a: Direction, b: Direction, c: Direction, d: Direction)
    requires Step(s, a).Some? || Step(s, b).Some? || Step(s, c).Some? || Step(s, d).Some?
    ensures forall i: nat :: MovesOf(cs, i, s, [a, b, c, d]) != 0
  {
    var e := if Step(s, a).Some? then a else if Step(s, b).Some? then b else if Step(s, c).Some? then c else d;
    forall i: nat ensures MovesOf(cs, i, s, [a, b, c, d]) != 0 {
      SlideNonEmpty(Blockers(cs, i), s, [a, b, c, d], e);
    }
  }

  /** `rows[s][key] = moves`. */
  method Store(rows: array2<Bitboard>, s: Sq, key: int, moves: Bitboard)
    requires rows.Length0 == 64 && 0 <= key < rows.Length1
    modifies rows
    ensures RowOf(rows, s) == old(RowOf(rows, s))[key := moves]
    ensures forall i, j :: 0 <= i < 64 && i != s as int && 0 <= j < rows.Length1 ==> rows[i, j] == old(rows[i, j])
  {
    rows[s, key] := moves;
  }

  /** A collision among fewer counter values is one among more. */
  lemma CollisionGrows(s: Sq, cs: seq<Sq>, magic: bv64, bits: bv8, ds: seq<Direction>, k: nat, n: nat)
    requires bits <= 12 && k <= n
    requires Collision(s, cs, magic, bits, ds, k)
    ensures Collision(s, cs, magic, bits, ds, n)
  {
    var i: nat, j: nat :| i < j < k && KeyOf(cs, i, magic, bits) == KeyOf(cs, j, magic, bits) &&
      MovesOf(cs, i, s, ds) != MovesOf(cs, j, s, ds);
    assert i < j < n;
  }

  /** Blocker set `k`, its moves and its key. */
  method EntryOf(s: Sq, cs: seq<Sq>, magic: bv64, bits: bv8,
                 a: Direction, b: Direction, c: Direction, d: Direction, k: nat) returns (key: int, moves: Bitboard)
    requires bits <= 12
    ensures key == KeyOf(cs, k, magic, bits) && moves == MovesOf(cs, k, s, [a, b, c, d])
  {
    var blockers := SelectBlockers(cs, k);
    moves := ScanFour(blockers, s, a, b, c, d);
    key := MagicKey(blockers, magic, bits);
  }

  /** One pass of the counting loop: blocker set `k`, its moves, its key, the check and the store. */
  method FillStep(rows: array2<Bitboard>, s: Sq, cs: seq<Sq>, magic: bv64, bits: bv8,
                  a: Direction, b: Direction, c: Direction, d: Direction, k: nat) returns (ok: bool)
    requires rows.Length0 == 64 && RowFits(rows.Length1, bits)
    requires forall i: nat :: MovesOf(cs, i, s, [a, b, c, d]) != 0
    requires Stored(RowOf(rows, s), s, cs, magic, bits, [a, b, c, d], k)
    requires Justified(RowOf(rows, s), s, cs, magic, bits, [a, b, c, d], k)
    requires !Collision(s, cs, magic, bits, [a, b, c, d], k)
    modifies rows
    ensures forall i, j :: 0 <= i < 64 && i != s as int && 0 <= j < rows.Length1 ==> rows[i, j] == old(rows[i, j])
    ensures ok ==> Stored(RowOf(rows, s), s, cs, magic, bits, [a, b, c, d], k + 1)
    ensures ok ==> Justified(RowOf(rows, s), s, cs, magic, bits, [a, b, c, d], k + 1)
    ensures ok ==> !Collision(s, cs, magic, bits, [a, b, c, d], k + 1)
    ensures !ok ==> Collision(s, cs, magic, bits, [a, b, c, d], k + 1)
  {
    ghost var row := RowOf(rows, s);
    var key, moves := EntryOf(s, cs, magic, bits, a, b, c, d, k);
    if rows[s, key] != 0 && rows[s, key] != moves {
      CollisionFound(row, s, cs, magic, bits, [a, b, c, d], k, k + 1, key, moves);
      return false;
    }
    StoredStep(row, s, cs, magic, bits, [a, b, c, d], k, key, moves);
    JustifiedStep(row, s, cs, magic, bits, [a, b, c, d], k, key, moves);
    NoCollisionStep(row, s, cs, magic, bits, [a, b, c, d], k, key, moves);
    Store(rows, s, key, moves);
    return true;
  }

  /**
   * The counting loop of `fillRookMovesSquare` and `fillBishopMovesSquare`
   * for the piece on `s` walking `a`, `b`, `c`, `d`: fill row `s` of
   * `rows`, which starts empty. It succeeds exactly when no two blocker
   * sets share a key with different moves, and then every blocker set has
   * its moves at its key and every filled slot is so explained.
   */
  method FillSquare(rows: array2<Bitboard>, s: Sq, cs: seq<Sq>, magic: bv64, bits: bv8,
                    a: Direction, b: Direction, c: Direction, d: Direction) returns (ok: bool)
    requires rows.Length0 == 64 && RowFits(rows.Length1, bits)
    requires forall j :: 0 <= j < rows.Length1 ==> rows[s, j] == 0
    requires Step(s, a).Some? || Step(s, b).Some? || Step(s, c).Some? || Step(s, d).Some?
    modifies rows
    ensures forall i, j :: 0 <= i < 64 && i != s as int && 0 <= j < rows.Length1 ==> rows[i, j] == old(rows[i, j])
    ensures ok ==> Stored(RowOf(rows, s), s, cs, magic, bits, [a, b, c, d], Pow2(|cs|))
    ensures ok ==> Justified(RowOf(rows, s), s, cs, magic, bits, [a, b, c, d], Pow2(|cs|))
    ensures !ok <==> Collision(s, cs, magic, bits, [a, b, c, d], Pow2(|cs|))
  {
    MovesNonEmpty(cs, s, a, b, c, d);
    var combinations := Pow2(|cs|);
    var k: nat := 0;
    while k < combinations
      invariant k <= combinations
      invariant forall i, j :: 0 <= i < 64 && i != s as int && 0 <= j < rows.Length1 ==> rows[i, j] == old(rows[i, j])
      invariant Stored(RowOf(rows, s), s, cs, magic, bits, [a, b, c, d], k)
      invariant Justified(RowOf(rows, s), s, cs, magic, bits, [a, b, c, d], k)
      invariant !Collision(s, cs, magic, bits, [a, b, c, d], k)
    {
      ok := FillStep(rows, s, cs, magic, bits, a, b, c, d, k);
      if !ok {
        CollisionGrows(s, cs, magic, bits, [a, b, c, d], k + 1, combinations);
        return;
      }
      k := k + 1;
    }
    return true;
  }

  // ---------------------------------------------------------------------------
  // Rows in terms of blocker sets

  /** `b` holds only squares of `mask`. */
  predicate Within(b: Bitboard, mask: Bitboard)
  {
    b & mask == b
  }

  lemma WithinHas(b: Bitboard, mask: Bitboard)
    ensures Within(b, mask) <==> forall t: Sq :: Has(b, t) ==> Has(mask, t)
  {
    if forall t: Sq :: Has(b, t) ==> Has(mask, t) {
      forall t: Sq ensures Has(b & mask, t) <==> Has(b, t) {
        AndHas(b, mask, t);
      }
      Extensionality(b & mask, b);
    } else {
      var t: Sq :| Has(b, t) && !Has(mask, t);
      AndHas(b, mask, t);
    }
  }

  /** Every blocker set within `mask` has its moves at its key in `row`. */
  ghost predicate Answers(row: seq<Bitboard>, s: Sq, magic: bv64, bits: bv8, mask: Bitboard, ds: seq<Direction>)
    requires RowFits(|row|, bits)
  {
    forall b: Bitboard :: Within(b, mask) ==> row[MagicKey(b, magic, bits)] == Slide(b, s, ds)
  }

  /** Two blocker sets within `mask` share a key but not their moves: the magic number is unusable. */
  ghost predicate Clashes(s: Sq, magic: bv64, bits: bv8, mask: Bitboard, ds: seq<Direction>)
    requires bits <= 12
  {
    exists b1: Bitboard, b2: Bitboard :: Within(b1, mask) && Within(b2, mask) &&
      MagicKey(b1, magic, bits) == MagicKey(b2, magic, bits) && Slide(b1, s, ds) != Slide(b2, s, ds)
  }

  /** The blocker set of every counter value lies within the mask the choices list. */
  lemma BlockersWithinMask(cs: seq<Sq>, k: nat, mask: Bitboard)
    requires forall t: Sq :: t in cs <==> Has(mask, t)
    ensures Within(Blockers(cs, k), mask)
  {
    forall t: Sq | Has(Blockers(cs, k), t) ensures Has(mask, t) {
      BlockersWithin(cs, k, t);
    }
    WithinHas(Blockers(cs, k), mask);
  }

  /** Every blocker set within the mask is the set of some counter value below `2^len(choices)`. */
  lemma CodeOfWithin(b: Bitboard, cs: seq<Sq>, mask: Bitboard) returns (k: nat)
    requires forall t: Sq :: t in cs <==> Has(mask, t)
    requires Within(b, mask)
    ensures k < Pow2(|cs|) && Blockers(cs, k) == b
  {
    WithinHas(b, mask);
    CodeRecovers(b, cs);
    k := Code(b, cs);
  }

  /** A row holding every counter value's moves answers every blocker set within the mask. */
  lemma StoredAnswers(row: seq<Bitboard>, s: Sq, cs: seq<Sq>, magic: bv64, bits: bv8, ds: seq<Direction>, mask: Bitboard)
    requires RowFits(|row|, bits)
    requires forall t: Sq :: t in cs <==> Has(mask, t)
    requires Stored(row, s, cs, magic, bits, ds, Pow2(|cs|))
    ensures Answers(row, s, magic, bits, mask, ds)
  {
    forall b: Bitboard | Within(b, mask)
      ensures row[MagicKey(b, magic, bits)] == Slide(b, s, ds)
    {
      var k := CodeOfWithin(b, cs, mask);
      assert row[KeyOf(cs, k, magic, bits)] == MovesOf(cs, k, s, ds);
    }
  }

  lemma CollisionIsClash(s: Sq, cs: seq<Sq>, magic: bv64, bits: bv8, ds: seq<Direction>, mask: Bitboard)
    requires bits <= 12
    requires forall t: Sq :: t in cs <==> Has(mask, t)
    requires Collision(s, cs, magic, bits, ds, Pow2(|cs|))
    ensures Clashes(s, magic, bits, mask, ds)
  {
    var i: nat, j: nat :| i < j < Pow2(|cs|) && KeyOf(cs, i, magic, bits) == KeyOf(cs, j, magic, bits) &&
      MovesOf(cs, i, s, ds) != MovesOf(cs, j, s, ds);
    BlockersWithinMask(cs, i, mask);
    BlockersWithinMask(cs, j, mask);
    var b1, b2 := Blockers(cs, i), Blockers(cs, j);
    assert Within(b1, mask) && Within(b2, mask) &&
      MagicKey(b1, magic, bits) == MagicKey(b2, magic, bits) && Slide(b1, s, ds) != Slide(b2, s, ds);
  }

  lemma ClashIsCollision(s: Sq, cs: seq<Sq>, magic: bv64, bits: bv8, ds: seq<Direction>, mask: Bitboard)
    requires bits <= 12
    requires forall t: Sq :: t in cs <==> Has(mask, t)
    requires Clashes(s, magic, bits, mask, ds)
    ensures Collision(s, cs, magic, bits, ds, Pow2(|cs|))
  {
    var b1: Bitboard, b2: Bitboard :| Within(b1, mask) && Within(b2, mask) &&
      MagicKey(b1, magic, bits) == MagicKey(b2, magic, bits) && Slide(b1, s, ds) != Slide(b2, s, ds);
    var k1 := CodeOfWithin(b1, cs, mask);
    var k2 := CodeOfWithin(b2, cs, mask);
    assert KeyOf(cs, k1, magic, bits) == KeyOf(cs, k2, magic, bits);
    assert MovesOf(cs, k1, s, ds) != MovesOf(cs, k2, s, ds);
    if k1 < k2 {
      PairCollides(s, cs, magic, bits, ds, k1, k2, Pow2(|cs|));
    } else {
      PairCollides(s, cs, magic, bits, ds, k2, k1, Pow2(|cs|));
    }
  }

  lemma PairCollides(s: Sq, cs: seq<Sq>, magic: bv64, bits: bv8, ds: seq<Direction>, i: nat, j: nat, n: nat)
    requires bits <= 12 && i < j < n
    requires KeyOf(cs, i, magic, bits) == KeyOf(cs, j, magic, bits)
    requires MovesOf(cs, i, s, ds) != MovesOf(cs, j, s, ds)
    ensures Collision(s, cs, magic, bits, ds, n)
  {
  }

  /** A collision among counter values is a clash among blocker sets, and back. */
  lemma CollisionClashes(s: Sq, cs: seq<Sq>, magic: bv64, bits: bv8, ds: seq<Direction>, mask: Bitboard)
    requires bits <= 12
    requires forall t: Sq :: t in cs <==> Has(mask, t)
    ensures Collision(s, cs, magic, bits, ds, Pow2(|cs|)) <==> Clashes(s, magic, bits, mask, ds)
  {
    if Collision(s, cs, magic, bits, ds, Pow2(|cs|)) {
      CollisionIsClash(s, cs, magic, bits, ds, mask);
    }
    if Clashes(s, magic, bits, mask, ds) {
      ClashIsCollision(s, cs, magic, bits, ds, mask);
    }
  }

  // ---------------------------------------------------------------------------
  // One square of the rook and bishop tables

  /** A rook always has room to the left or to the right. */
  lemma RookHasRoom(s: Sq)
    ensures Step(s, Left).Some? || Step(s, Right).Some?
  {
  }

  /** A bishop always has room along some diagonal. */
  lemma BishopHasRoom(s: Sq)
    ensures Step(s, LeftUp).Some? || Step(s, LeftDown).Some? || Step(s, RightDown).Some? || Step(s, RightUp).Some?
  {
  }

  /** The rook choices of a square list exactly its mask. */
  lemma RookChoicesAreMask(cs: seq<Sq>, rank: bv8, file: bv8)
    requires rank < 8 && file < 8
    requires forall t: Sq :: t in cs <==> RookInner(rank, file, t)
    ensures forall t: Sq :: t in cs <==> Has(RookMaskOf(At(rank, file)), t)
  {
    forall t: Sq ensures t in cs <==> Has(RookMaskOf(At(rank, file)), t) {
      RookMaskHas(rank, file, t);
    }
  }

  /** The bishop choices of a square list exactly its mask. */
  lemma BishopChoicesAreMask(s: Sq)
    ensures forall t: Sq :: t in BishopChoiceList(s) <==> Has(BishopMaskOf(s), t)
  {
    forall t: Sq ensures t in BishopChoiceList(s) <==> Has(BishopMaskOf(s), t) {
      BishopChoiceListHas(s, t);
      BishopMaskHas(SqRank(s), SqFile(s), t);
    }
  }

  /**
   * `fillRookMovesSquare`: fill the empty row of the rook on rank `rank`,
   * file `file`. It fails (the generator panics) exactly when the square's
   * magic number sends two blocker sets with different moves to one key;
   * otherwise the row answers every blocker set within the rook's mask.
   */
  method FillRookMovesSquare(rows: array2<Bitboard>, file: bv8, rank: bv8, magics: seq<bv64>, bits: seq<bv8>) returns (ok: bool)
    requires rank < 8 && file < 8 && |magics| == 64 && |bits| == 64
    requires rows.Length0 == 64 && rows.Length1 == RookRowSize && bits[At(rank, file)] <= 12
    requires forall j :: 0 <= j < rows.Length1 ==> rows[At(rank, file), j] == 0
    modifies rows
    ensures forall i, j :: 0 <= i < 64 && i != At(rank, file) as int && 0 <= j < rows.Length1 ==> rows[i, j] == old(rows[i, j])
    ensures var s := At(rank, file);
      ok ==> Answers(RowOf(rows, s), s, magics[s], bits[s], RookMaskOf(s), RookDirections)
    ensures var s := At(rank, file);
      !ok <==> Clashes(s, magics[s], bits[s], RookMaskOf(s), RookDirections)
  {
    var square := At(rank, file);
    var cs := RookChoices(rank, file);
    RookChoicesAreMask(cs, rank, file);
    RookHasRoom(square);
    ok := FillSquare(rows, square, cs, magics[square], bits[square], Left, Right, Up, Down);
    CollisionClashes(square, cs, magics[square], bits[square], RookDirections, RookMaskOf(square));
    if ok {
      StoredAnswers(RowOf(rows, square), square, cs, magics[square], bits[square], RookDirections, RookMaskOf(square));
    }
  }

  /**
   * `fillBishopMovesSquare`: fill the empty row of the bishop on rank
   * `rank`, file `file`, failing exactly on a clash, as for the rook.
   */
  method FillBishopMovesSquare(rows: array2<Bitboard>, file: bv8, rank: bv8, magics: seq<bv64>, bits: seq<bv8>) returns (ok: bool)
    requires rank < 8 && file < 8 && |magics| == 64 && |bits| == 64
    requires rows.Length0 == 64 && rows.Length1 == BishopRowSize && bits[At(rank, file)] <= 10
    requires forall j :: 0 <= j < rows.Length1 ==> rows[At(rank, file), j] == 0
    modifies rows
    ensures forall i, j :: 0 <= i < 64 && i != At(rank, file) as int && 0 <= j < rows.Length1 ==> rows[i, j] == old(rows[i, j])
    ensures var s := At(rank, file);
      ok ==> Answers(RowOf(rows, s), s, magics[s], bits[s], BishopMaskOf(s), BishopDirections)
    ensures var s := At(rank, file);
      !ok <==> Clashes(s, magics[s], bits[s], BishopMaskOf(s), BishopDirections)
  {
    var square := At(rank, file);
    var cs := BishopChoices(rank, file);
    BishopChoicesAreMask(square);
    BishopHasRoom(square);
    ok := FillSquare(rows, square, cs, magics[square], bits[square], LeftUp, LeftDown, RightDown, RightUp);
    CollisionClashes(square, cs, magics[square], bits[square], BishopDirections, BishopMaskOf(square));
    if ok {
      StoredAnswers(RowOf(rows, square), square, cs, magics[square], bits[square], BishopDirections, BishopMaskOf(square));
    }
  }

  // ---------------------------------------------------------------------------
  // The whole tables

  /** The two sliding pieces whose tables are generated. */
  datatype Slider = RookSlider | BishopSlider

  function MaskOf(p: Slider, s: Sq): Bitboard
  {
    match p
    case RookSlider => RookMaskOf(s)
    case BishopSlider => BishopMaskOf(s)
  }

  function DirectionsOf(p: Slider): seq<Direction>
  {
    match p
    case RookSlider => RookDirections
    case BishopSlider => BishopDirections
  }

  /** The length of a row: 4096 for the rook, 1024 for the bishop. */
  function RowWidth(p: Slider): int
  {
    match p
    case RookSlider => RookRowSize
    case BishopSlider => BishopRowSize
  }

  /** The widest index the row can take. */
  function MaxBits(p: Slider): (m: bv8)
    ensures m <= 12
  {
    match p
    case RookSlider => 12
    case BishopSlider => 10
  }

  /** The magic numbers and index widths of all 64 squares, each width fitting the rows. */
  ghost predicate MagicsFit(p: Slider, magics: seq<bv64>, bits: seq<bv8>)
  {
    |magics| == 64 && |bits| == 64 && forall s: Sq :: bits[s] <= MaxBits(p)
  }

  /** A complete row: it answers every blocker set within the mask, and the mask has no clash. */
  ghost predicate RowDone(p: Slider, row: seq<Bitboard>, magics: seq<bv64>, bits: seq<bv8>, s: Sq)
    requires MagicsFit(p, magics, bits)
  {
    |row| == RowWidth(p) &&
    Answers(row, s, magics[s], bits[s], MaskOf(p, s), DirectionsOf(p)) &&
    !Clashes(s, magics[s], bits[s], MaskOf(p, s), DirectionsOf(p))
  }

  /** A row still as allocated: all zero. */
  predicate RowEmpty(row: seq<Bitboard>)
  {
    forall j :: 0 <= j < |row| ==> row[j] == 0
  }

  /** The loops stand at rank `r`, file `f`: the rows passed are complete, the others empty. */
  ghost predicate TableUpTo(p: Slider, table: seq<seq<Bitboard>>, magics: seq<bv64>, bits: seq<bv8>, r: bv8, f: bv8)
    requires MagicsFit(p, magics, bits) && |table| == 64
  {
    forall s: Sq :: (Passed(r, f, s) ==> RowDone(p, table[s], magics, bits, s)) && (!Passed(r, f, s) ==> RowEmpty(table[s]))
  }

  /** The array holds `table`, row by row. */
  ghost predicate Holds(rows: array2<Bitboard>, table: seq<seq<Bitboard>>)
    reads rows
  {
    rows.Length0 == |table| &&
    (forall i :: 0 <= i < |table| ==> |table[i]| == rows.Length1) &&
    (forall i, j :: 0 <= i < |table| && 0 <= j < rows.Length1 ==> rows[i, j] == table[i][j])
  }

  /** Writing the row of `s` and no other: the array holds the table with that row replaced. */
  lemma HoldsAfter(rows: array2<Bitboard>, table: seq<seq<Bitboard>>, s: Sq)
    requires rows.Length0 == 64 && |table| == 64
    requires forall i :: 0 <= i < 64 ==> |table[i]| == rows.Length1
    requires forall i, j :: 0 <= i < 64 && i != s as int && 0 <= j < rows.Length1 ==> rows[i, j] == table[i][j]
    ensures Holds(rows, table[s := RowOf(rows, s)])
  {
  }

  /** Completing the row of the square the loops stand on moves them one file on. */
  lemma TableStep(p: Slider, table: seq<seq<Bitboard>>, row: seq<Bitboard>, magics: seq<bv64>, bits: seq<bv8>, r: bv8, f: bv8)
    requires r < 8 && f < 8 && MagicsFit(p, magics, bits) && |table| == 64
    requires TableUpTo(p, table, magics, bits, r, f)
    requires RowDone(p, row, magics, bits, At(r, f))
    ensures TableUpTo(p, table[At(r, f) := row], magics, bits, r, f + 1)
  {
    var t, g := table[At(r, f) := row], f + 1;
    forall s: Sq
      ensures (Passed(r, g, s) ==> RowDone(p, t[s], magics, bits, s)) && (!Passed(r, g, s) ==> RowEmpty(t[s]))
    {
      TableStepAt(p, table, row, magics, bits, r, f, s);
    }
  }

  /** `TableStep` for one square. */
  lemma TableStepAt(p: Slider, table: seq<seq<Bitboard>>, row: seq<Bitboard>, magics: seq<bv64>, bits: seq<bv8>, r: bv8, f: bv8, s: Sq)
    requires r < 8 && f < 8 && MagicsFit(p, magics, bits) && |table| == 64
    requires Passed(r, f, s) ==> RowDone(p, table[s], magics, bits, s)
    requires !Passed(r, f, s) ==> RowEmpty(table[s])
    requires RowDone(p, row, magics, bits, At(r, f))
    ensures Passed(r, f + 1, s) ==> RowDone(p, table[At(r, f) := row][s], magics, bits, s)
    ensures !Passed(r, f + 1, s) ==> RowEmpty(table[At(r, f) := row][s])
  {
    PassedStep(r, f, s);
    if s != At(r, f) {
      assert table[At(r, f) := row][s] == table[s];
    }
  }

  /** One call of `fillRookMovesSquare` or `fillBishopMovesSquare`. */
  method FillRow(p: Slider, rows: array2<Bitboard>, magics: seq<bv64>, bits: seq<bv8>, r: bv8, f: bv8) returns (ok: bool)
    requires r < 8 && f < 8
    requires MagicsFit(p, magics, bits) && rows.Length0 == 64 && rows.Length1 == RowWidth(p)
    requires forall j :: 0 <= j < rows.Length1 ==> rows[At(r, f), j] == 0
    modifies rows
    ensures forall i, j :: 0 <= i < 64 && i != At(r, f) as int && 0 <= j < rows.Length1 ==> rows[i, j] == old(rows[i, j])
    ensures ok ==> RowDone(p, RowOf(rows, At(r, f)), magics, bits, At(r, f))
    ensures !ok ==> var s := At(r, f); Clashes(s, magics[s], bits[s], MaskOf(p, s), DirectionsOf(p))
  {
    if p == RookSlider {
      ok := FillRookMovesSquare(rows, f, r, magics, bits);
    } else {
      ok := FillBishopMovesSquare(rows, f, r, magics, bits);
    }
  }

  /** The same call, followed on the table the array holds. */
  method FillHeld(p: Slider, rows: array2<Bitboard>, magics: seq<bv64>, bits: seq<bv8>, r: bv8, f: bv8, ghost table: seq<seq<Bitboard>>)
    returns (ok: bool)
    requires r < 8 && f < 8
    requires MagicsFit(p, magics, bits) && rows.Length0 == 64 && rows.Length1 == RowWidth(p)
    requires Holds(rows, table) && RowEmpty(table[At(r, f)])
    modifies rows
    ensures Holds(rows, table[At(r, f) := RowOf(rows, At(r, f))])
    ensures ok ==> RowDone(p, RowOf(rows, At(r, f)), magics, bits, At(r, f))
    ensures !ok ==> var s := At(r, f); Clashes(s, magics[s], bits[s], MaskOf(p, s), DirectionsOf(p))
  {
    var s := At(r, f);
    assert forall j :: 0 <= j < rows.Length1 ==> rows[s, j] == table[s][j];
    ok := FillRow(p, rows, magics, bits, r, f);
    HoldsAfter(rows, table, s);
  }

  /** One pass of the generator's inner loop, with the table the array holds. */
  method FillNext(p: Slider, rows: array2<Bitboard>, magics: seq<bv64>, bits: seq<bv8>, r: bv8, f: bv8, ghost table: seq<seq<Bitboard>>)
    returns (ok: bool, ghost table': seq<seq<Bitboard>>)
    requires r < 8 && f < 8
    requires MagicsFit(p, magics, bits) && rows.Length0 == 64 && rows.Length1 == RowWidth(p)
    requires Holds(rows, table) && TableUpTo(p, table, magics, bits, r, f)
    modifies rows
    ensures ok ==> Holds(rows, table') && |table'| == 64 && TableUpTo(p, table', magics, bits, r, f + 1)
    ensures !ok ==> var s := At(r, f); Clashes(s, magics[s], bits[s], MaskOf(p, s), DirectionsOf(p))
  {
    var s := At(r, f);
    assert !Passed(r, f, s);
    assert RowEmpty(table[s]);
    ok := FillHeld(p, rows, magics, bits, r, f, table);
    table' := table;
    if ok {
      var row := RowOf(rows, s);
      table' := table[s := row];
      TableStep(p, table, row, magics, bits, r, f);
    }
  }

  lemma PassedNextRank(r: bv8)
    requires r < 8
    ensures forall s: Sq :: Passed(r, 8, s) <==> Passed(r + 1, 0, s)
  {
  }

  /** A freshly allocated array: every row empty, none passed. */
  lemma TableStart(p: Slider, table: seq<seq<Bitboard>>, magics: seq<bv64>, bits: seq<bv8>)
    requires MagicsFit(p, magics, bits) && |table| == 64
    requires forall i :: 0 <= i < 64 ==> RowEmpty(table[i])
    ensures TableUpTo(p, table, magics, bits, 0, 0)
  {
  }

  /** The loops have passed every square: every row is complete. */
  lemma TableEnd(p: Slider, rows: array2<Bitboard>, table: seq<seq<Bitboard>>, magics: seq<bv64>, bits: seq<bv8>)
    requires MagicsFit(p, magics, bits) && |table| == 64 && Holds(rows, table)
    requires TableUpTo(p, table, magics, bits, 8, 0)
    ensures forall s: Sq :: RowDone(p, RowOf(rows, s), magics, bits, s)
  {
    forall s: Sq ensures RowDone(p, RowOf(rows, s), magics, bits, s) {
      assert Passed(8, 0, s);
      assert forall j :: 0 <= j < rows.Length1 ==> RowOf(rows, s)[j] == table[s][j];
      assert RowOf(rows, s) == table[s];
    }
  }

  /**
   * `generateRookMoves` and `generateBishopMoves`: fill the rows of all 64
   * squares, rank by rank and file by file. The generator panics exactly
   * when some square's magic number clashes; otherwise every row answers
   * every blocker set within its square's mask.
   */
  method GenerateMoves(p: Slider, magics: seq<bv64>, bits: seq<bv8>) returns (rows: array2<Bitboard>, ok: bool)
    requires MagicsFit(p, magics, bits)
    ensures fresh(rows) && rows.Length0 == 64 && rows.Length1 == RowWidth(p)
    ensures ok ==> forall s: Sq :: Answers(RowOf(rows, s), s, magics[s], bits[s], MaskOf(p, s), DirectionsOf(p))
    ensures ok <==> forall s: Sq :: !Clashes(s, magics[s], bits[s], MaskOf(p, s), DirectionsOf(p))
  {
    rows := new Bitboard[64, RowWidth(p)]((_, _) => 0);
    ghost var table := seq(64, _ => seq(RowWidth(p), _ => 0 as Bitboard));
    TableStart(p, table, magics, bits);
    var r: bv8 := 0;
    while r < 8
      invariant r <= 8 && |table| == 64
      invariant Holds(rows, table) && TableUpTo(p, table, magics, bits, r, 0)
    {
      var f: bv8 := 0;
      while f < 8
        invariant f <= 8 && |table| == 64
        invariant Holds(rows, table) && TableUpTo(p, table, magics, bits, r, f)
      {
        ok, table := FillNext(p, rows, magics, bits, r, f, table);
        if !ok {
          return;
        }
        f := f + 1;
      }
      PassedNextRank(r);
      r := r + 1;
    }
    TableEnd(p, rows, table, magics, bits);
    ok := true;
  }

  // ---------------------------------------------------------------------------
  // The lookups read the moves the generators computed

  /** A blocker set cut down to a mask lies within it. */
  lemma MaskedWithin(empty: Bitboard, mask: Bitboard)
    ensures Within(Occupied(empty, mask), mask)
  {
  }

  /** One blocker set's entry in a row that answers its mask. */
  lemma AnswerAt(row: seq<Bitboard>, s: Sq, magic: bv64, bits: bv8, mask: Bitboard, ds: seq<Direction>, b: Bitboard)
    requires RowFits(|row|, bits) && Answers(row, s, magic, bits, mask, ds) && Within(b, mask)
    ensures row[MagicKey(b, magic, bits)] == Slide(b, s, ds)
  {
  }

  /** The rook half of `PrecomputedData` holds, for every square, the mask and the rows the generator builds. */
  ghost predicate RookTablesBuilt(t: PrecomputedData)
    requires Shaped(t)
  {
    forall s: Sq :: t.rookMasks[s] == RookMaskOf(s) &&
      Answers(t.rookMoves[s], s, t.rookMagics[s], t.rookIndexBits[s], RookMaskOf(s), RookDirections)
  }

  /** The bishop half likewise. */
  ghost predicate BishopTablesBuilt(t: PrecomputedData)
    requires Shaped(t)
  {
    forall s: Sq :: t.bishopMasks[s] == BishopMaskOf(s) &&
      Answers(t.bishopMoves[s], s, t.bishopMagics[s], t.bishopIndexBits[s], BishopMaskOf(s), BishopDirections)
  }

  /**
   * With the generated tables, the magic lookup of `RookAttacks` yields the
   * rook's moves over the whole board: its four rays up to and including
   * the first occupied square.
   */
  lemma RookAttacksAreMoves(t: PrecomputedData, empty: Bitboard, sq: Sq)
    requires Shaped(t) && RookTablesBuilt(t)
    ensures RookAttacks(t, empty, sq) == RookMoves(!empty, sq)
  {
    RookAttacksAt(t, empty, sq);
  }

  /** Only the occupied squares inside the mask bear on the moves. */
  lemma RookOccupiedMoves(empty: Bitboard, sq: Sq)
    ensures RookMoves(Occupied(empty, RookMaskOf(sq)), sq) == RookMoves(!empty, sq)
  {
    RookMovesMasked(!empty, sq);
  }

  /** The lookup reads the row's answer for the occupied squares inside the mask. */
  lemma RookLookupAnswers(t: PrecomputedData, empty: Bitboard, sq: Sq)
    requires Shaped(t)
    requires Answers(t.rookMoves[sq], sq, t.rookMagics[sq], t.rookIndexBits[sq], t.rookMasks[sq], RookDirections)
    ensures RookAttacks(t, empty, sq) == Slide(Occupied(empty, t.rookMasks[sq]), sq, RookDirections)
  {
    var i := sq as int;
    var b := Occupied(empty, t.rookMasks[i]);
    assert RookAttacks(t, empty, sq) == t.rookMoves[i][MagicKey(b, t.rookMagics[i], t.rookIndexBits[i])];
    MaskedWithin(empty, t.rookMasks[i]);
    AnswerAt(t.rookMoves[i], sq, t.rookMagics[i], t.rookIndexBits[i], t.rookMasks[i], RookDirections, b);
  }

  lemma RookAttacksAt(t: PrecomputedData, empty: Bitboard, sq: Sq)
    requires Shaped(t) && t.rookMasks[sq] == RookMaskOf(sq)
    requires Answers(t.rookMoves[sq], sq, t.rookMagics[sq], t.rookIndexBits[sq], t.rookMasks[sq], RookDirections)
    ensures RookAttacks(t, empty, sq) == RookMoves(!empty, sq)
  {
    RookLookupAnswers(t, empty, sq);
    RookOccupiedMoves(empty, sq);
  }


  /** The same for `BishopAttacks` and the bishop's four diagonal rays. */
  lemma BishopAttacksAreMoves(t: PrecomputedData, empty: Bitboard, sq: Sq)
    requires Shaped(t) && BishopTablesBuilt(t)
    ensures BishopAttacks(t, empty, sq) == BishopMoves(!empty, sq)
  {
    BishopAttacksAt(t, empty, sq);
  }

  /** Only the occupied squares inside the mask bear on the moves. */
  lemma BishopOccupiedMoves(empty: Bitboard, sq: Sq)
    ensures BishopMoves(Occupied(empty, BishopMaskOf(sq)), sq) == BishopMoves(!empty, sq)
  {
    BishopMovesMasked(!empty, sq);
  }

  /** The lookup reads the row's answer for the occupied squares inside the mask. */
  lemma BishopLookupAnswers(t: PrecomputedData, empty: Bitboard, sq: Sq)
    requires Shaped(t)
    requires Answers(t.bishopMoves[sq], sq, t.bishopMagics[sq], t.bishopIndexBits[sq], t.bishopMasks[sq], BishopDirections)
    ensures BishopAttacks(t, empty, sq) == Slide(Occupied(empty, t.bishopMasks[sq]), sq, BishopDirections)
  {
    var i := sq as int;
    var b := Occupied(empty, t.bishopMasks[i]);
    assert BishopAttacks(t, empty, sq) == t.bishopMoves[i][MagicKey(b, t.bishopMagics[i], t.bishopIndexBits[i])];
    MaskedWithin(empty, t.bishopMasks[i]);
    AnswerAt(t.bishopMoves[i], sq, t.bishopMagics[i], t.bishopIndexBits[i], t.bishopMasks[i], BishopDirections, b);
  }

  lemma BishopAttacksAt(t: PrecomputedData, empty: Bitboard, sq: Sq)
    requires Shaped(t) && t.bishopMasks[sq] == BishopMaskOf(sq)
    requires Answers(t.bishopMoves[sq], sq, t.bishopMagics[sq], t.bishopIndexBits[sq], t.bishopMasks[sq], BishopDirections)
    ensures BishopAttacks(t, empty, sq) == BishopMoves(!empty, sq)
  {
    BishopLookupAnswers(t, empty, sq);
    BishopOccupiedMoves(empty, sq);
  }




}
