/**
 * The rays of the sliding pieces (bitboard_generators/rook.go and
 * bitboard_generators/bishop.go). Both generators compute the moves of a
 * piece on a board with given blockers by walking each of its directions
 * square by square, adding every square reached and stopping after the
 * first blocker. A direction is a motion along the files together with a
 * motion along the ranks; the walk is one method, `ScanRay`. The rook uses
 * the four straight directions, the bishop the four diagonal ones.
 */
module SlidingRays {
  import opened Bitboards
  import opened TableBuilding
  import opened Outcomes

  /** How one coordinate changes at each step. */
  datatype Motion = Back | Stay | Forward

  datatype Heading = Heading(file: Motion, rank: Motion)

  /** A heading that moves the piece at all. */
  type Direction = h: Heading | h.file != Stay || h.rank != Stay witness Heading(Back, Stay)

  const Left: Direction := Heading(Back, Stay)
  const Right: Direction := Heading(Forward, Stay)
  const Up: Direction := Heading(Stay, Forward)
  const Down: Direction := Heading(Stay, Back)
  const LeftUp: Direction := Heading(Back, Forward)
  const LeftDown: Direction := Heading(Back, Back)
  const RightDown: Direction := Heading(Forward, Back)
  const RightUp: Direction := Heading(Forward, Forward)

  // ---------------------------------------------------------------------------
  // One coordinate

  /** The coordinate after `x` under motion `m`, if it is still on the board. */
  function Next(m: Motion, x: bv8): (n: Option<bv8>)
    requires x < 8
    ensures n.Some? ==> n.value < 8
  {
    match m
    case Back => if x > 0 then Some(x - 1) else None
    case Stay => Some(x)
    case Forward => if x < 7 then Some(x + 1) else None
  }

  /** `y` lies strictly beyond `x` under motion `m` (or equals it when `m` stays). */
  predicate Beyond(m: Motion, x: bv8, y: bv8)
  {
    match m
    case Back => y < x
    case Stay => y == x
    case Forward => x < y
  }

  /** How far apart two coordinates are. */
  function Dist(x: bv8, y: bv8): bv8
  {
    if x <= y then y - x else x - y
  }

  /** Steps left from `x` under a moving `m`. */
  function Reach(m: Motion, x: bv8): bv8
  {
    match m
    case Back => x
    case Stay => 0
    case Forward => 7 - x
  }

  lemma NextBeyond(m: Motion, x: bv8)
    requires x < 8 && Next(m, x).Some?
    ensures var n := Next(m, x).value;
      Beyond(m, x, n) && (m != Stay ==> Dist(x, n) == 1 && Reach(m, n) < Reach(m, x))
  {
  }

  /** Nothing lies strictly between a coordinate and the next one. */
  lemma NothingBetween(m: Motion, x: bv8, z: bv8)
    requires x < 8 && Next(m, x).Some? && m != Stay
    ensures !(Beyond(m, x, z) && Beyond(m, z, Next(m, x).value))
  {
  }

  /** Whatever lies beyond `x` lies at or beyond the next coordinate, one closer. */
  lemma PastNext(m: Motion, x: bv8, y: bv8)
    requires x < 8 && y < 8 && Beyond(m, x, y)
    ensures Next(m, x).Some?
    ensures Beyond(m, Next(m, x).value, y) || (m != Stay && y == Next(m, x).value)
    ensures m != Stay ==> Dist(x, y) == Dist(Next(m, x).value, y) + 1
  {
  }

  /** Beyond the next coordinate is beyond `x`, one further. */
  lemma ThroughNext(m: Motion, x: bv8, y: bv8)
    requires x < 8 && y < 8 && Next(m, x).Some? && Beyond(m, Next(m, x).value, y)
    ensures Beyond(m, x, y)
    ensures m != Stay ==> Dist(x, y) == Dist(Next(m, x).value, y) + 1
  {
  }

  // ---------------------------------------------------------------------------
  // Squares

  /** The square one step from `s` towards `d`, if it is on the board. */
  function Step(s: Sq, d: Direction): Option<Sq>
  {
    var nf, nr := Next(d.file, SqFile(s)), Next(d.rank, SqRank(s));
    if nf.Some? && nr.Some? then Some(At(nr.value, nf.value)) else None
  }

  /** How many steps towards `d` are left from `s`, counted on an axis `d` moves along. */
  function Room(s: Sq, d: Direction): bv8
  {
    if d.file != Stay then Reach(d.file, SqFile(s)) else Reach(d.rank, SqRank(s))
  }

  lemma StepShrinksRoom(s: Sq, d: Direction)
    requires Step(s, d).Some?
    ensures Room(Step(s, d).value, d) < Room(s, d)
  {
    NextBeyond(d.file, SqFile(s));
    NextBeyond(d.rank, SqRank(s));
  }

  /** Two squares on the same rank and file are the same square. */
  lemma SameCoordinates(s: Sq, t: Sq)
    requires SqRank(s) == SqRank(t) && SqFile(s) == SqFile(t)
    ensures s == t
  {
  }

  /**
   * The squares a piece on `s` reaches towards `d` when `blockers` are
   * occupied: every square up to and including the first blocker.
   */
  function Ray(blockers: Bitboard, s: Sq, d: Direction): Bitboard
    decreases Room(s, d)
  {
    match Step(s, d)
    case None => 0
    case Some(n) =>
      StepShrinksRoom(s, d);
      if Has(blockers, n) then SquareBit(n) else SquareBit(n) | Ray(blockers, n, d)
  }

  /** What is left of the walk once `next` is the square about to be visited. */
  function RayFrom(blockers: Bitboard, next: Option<Sq>, d: Direction): Bitboard
  {
    match next
    case None => 0
    case Some(n) => if Has(blockers, n) then SquareBit(n) else SquareBit(n) | Ray(blockers, n, d)
  }

  /** Steps left in a walk whose next square is `next`. */
  function Remaining(next: Option<Sq>, d: Direction): bv8
  {
    match next
    case None => 0
    case Some(n) => Room(n, d) + 1
  }

  lemma OrAssociates(a: Bitboard, b: Bitboard, c: Bitboard)
    ensures a | (b | c) == (a | b) | c
  {
  }

  /** Visiting a blocked `sq` adds its bit and ends the walk. */
  lemma VisitBlocked(blockers: Bitboard, sq: Sq, d: Direction, r: Bitboard)
    requires Has(blockers, sq)
    ensures r | RayFrom(blockers, Some(sq), d) == r | SquareBit(sq)
  {
  }

  /** Visiting a free `sq` adds its bit and leaves the walk from the step after it. */
  lemma VisitFree(blockers: Bitboard, sq: Sq, d: Direction, r: Bitboard)
    requires !Has(blockers, sq)
    ensures r | RayFrom(blockers, Some(sq), d) == (r | SquareBit(sq)) | RayFrom(blockers, Step(sq, d), d)
  {
    RayUnfold(blockers, sq, d);
    OrAssociates(r, SquareBit(sq), Ray(blockers, sq, d));
  }

  /** Each visit brings the walk closer to the edge. */
  lemma VisitShrinks(sq: Sq, d: Direction)
    ensures Remaining(Step(sq, d), d) < Remaining(Some(sq), d)
  {
    if Step(sq, d).Some? {
      StepShrinksRoom(sq, d);
    }
  }

  /**
   * The loop each generator writes once per direction: starting next to
   * `s`, add each square to `moves` and stop after the first blocker or at
   * the edge of the board.
   */
  method ScanRay(blockers: Bitboard, s: Sq, d: Direction, moves: Bitboard) returns (r: Bitboard)
    ensures r == moves | Ray(blockers, s, d)
  {
    r := moves;
    var next := Step(s, d);
    RayUnfold(blockers, s, d);
    while next.Some?
      invariant Scanned(blockers, s, d, moves, r, next)
      decreases Remaining(next, d)
    {
      var stop;
      r, stop := Visit(blockers, s, d, moves, next.value, r);
      if stop {
        return;
      }
      next := Step(next.value, d);
    }
    OrZero(r);
  }

  /** The walk so far, `r`, and the walk still to come from `next` make up the whole ray. */
  predicate Scanned(blockers: Bitboard, s: Sq, d: Direction, moves: Bitboard, r: Bitboard, next: Option<Sq>)
  {
    r | RayFrom(blockers, next, d) == moves | Ray(blockers, s, d)
  }

  /** One pass of the scanning loop: add the square, and stop on a blocker. */
  method Visit(blockers: Bitboard, s: Sq, d: Direction, moves: Bitboard, sq: Sq, r: Bitboard) returns (r': Bitboard, stop: bool)
    requires Scanned(blockers, s, d, moves, r, Some(sq))
    ensures stop ==> r' == moves | Ray(blockers, s, d)
    ensures !stop ==> Scanned(blockers, s, d, moves, r', Step(sq, d))
    ensures Remaining(Step(sq, d), d) < Remaining(Some(sq), d)
  {
    r' := r | SquareBit(sq);
    stop := Has(blockers, sq);
    if stop {
      VisitBlocked(blockers, sq, d, r);
    } else {
      VisitFree(blockers, sq, d, r);
    }
    VisitShrinks(sq, d);
  }



  // ---------------------------------------------------------------------------
  // Geometry of a direction

  /** `t` lies strictly beyond `s` on the line from `s` towards `d`. */
  predicate Toward(d: Direction, s: Sq, t: Sq)
  {
    var f, r, ft, rt := SqFile(s), SqRank(s), SqFile(t), SqRank(t);
    Beyond(d.file, f, ft) && Beyond(d.rank, r, rt) &&
    (d.file != Stay && d.rank != Stay ==> Dist(f, ft) == Dist(r, rt))
  }

  /** No blocker lies strictly between `s` and `t`. */
  ghost predicate Clear(blockers: Bitboard, d: Direction, s: Sq, t: Sq)
  {
    forall u: Sq :: Toward(d, s, u) && Toward(d, u, t) ==> !Has(blockers, u)
  }

  /** The first step lies towards `d`. */
  lemma StepToward(s: Sq, d: Direction)
    requires Step(s, d).Some?
    ensures Toward(d, s, Step(s, d).value)
  {
    NextBeyond(d.file, SqFile(s));
    NextBeyond(d.rank, SqRank(s));
  }

  /** Nothing lies strictly between `s` and the first step. */
  lemma StepAdjacent(s: Sq, d: Direction, u: Sq)
    requires Step(s, d).Some?
    ensures !(Toward(d, s, u) && Toward(d, u, Step(s, d).value))
  {
    if d.file != Stay {
      NothingBetween(d.file, SqFile(s), SqFile(u));
    } else {
      NothingBetween(d.rank, SqRank(s), SqRank(u));
    }
  }

  /** Whatever lies towards `d` from `s` lies at or beyond the first step. */
  lemma TowardPastStep(s: Sq, d: Direction, t: Sq)
    requires Toward(d, s, t)
    ensures Step(s, d).Some?
    ensures t == Step(s, d).value || Toward(d, Step(s, d).value, t)
  {
    PastNext(d.file, SqFile(s), SqFile(t));
    PastNext(d.rank, SqRank(s), SqRank(t));
    var n := Step(s, d).value;
    if SqFile(t) == SqFile(n) && SqRank(t) == SqRank(n) {
      SameCoordinates(t, n);
    }
  }

  /** Beyond the first step is beyond `s`. */
  lemma TowardThroughStep(s: Sq, d: Direction, t: Sq)
    requires Step(s, d).Some? && Toward(d, Step(s, d).value, t)
    ensures Toward(d, s, t)
  {
    ThroughNext(d.file, SqFile(s), SqFile(t));
    ThroughNext(d.rank, SqRank(s), SqRank(t));
  }

  /** A square never lies beyond itself. */
  lemma TowardIrreflexive(d: Direction, s: Sq)
    ensures !Toward(d, s, s)
  {
  }

  /** A ray is its first square and, unless that square is blocked, the ray beyond it. */
  lemma RayUnfold(blockers: Bitboard, s: Sq, d: Direction)
    ensures Ray(blockers, s, d) == RayFrom(blockers, Step(s, d), d)
  {
    match Step(s, d)
    case None =>
    case Some(n) =>
  }

  lemma RayFromHas(blockers: Bitboard, n: Sq, d: Direction, t: Sq)
    ensures Has(RayFrom(blockers, Some(n), d), t) <==> t == n || (!Has(blockers, n) && Has(Ray(blockers, n, d), t))
  {
    SquareBitHas(n, t);
    OrHas(SquareBit(n), Ray(blockers, n, d), t);
  }

  lemma RayStep(blockers: Bitboard, s: Sq, d: Direction, t: Sq)
    requires Step(s, d).Some?
    ensures var n := Step(s, d).value;
      Has(Ray(blockers, s, d), t) <==> t == n || (!Has(blockers, n) && Has(Ray(blockers, n, d), t))
  {
    RayUnfold(blockers, s, d);
    RayFromHas(blockers, Step(s, d).value, d, t);
  }

  /** Nothing can block the way to the first step. */
  lemma ClearToStep(blockers: Bitboard, s: Sq, d: Direction)
    requires Step(s, d).Some?
    ensures Clear(blockers, d, s, Step(s, d).value)
  {
    forall u: Sq
      ensures !(Toward(d, s, u) && Toward(d, u, Step(s, d).value))
    {
      StepAdjacent(s, d, u);
    }
  }

  /** A clear way from an unblocked first step is a clear way from `s`. */
  lemma ClearThroughStep(blockers: Bitboard, s: Sq, d: Direction, t: Sq)
    requires Step(s, d).Some? && !Has(blockers, Step(s, d).value)
    requires Clear(blockers, d, Step(s, d).value, t)
    ensures Clear(blockers, d, s, t)
  {
    forall u: Sq | Toward(d, s, u) && Toward(d, u, t)
      ensures !Has(blockers, u)
    {
      TowardPastStep(s, d, u);
    }
  }

  /** A ray holds only squares beyond `s` with no blocker before them. */
  lemma {:induction false} RaySound(blockers: Bitboard, s: Sq, d: Direction, t: Sq)
    requires Has(Ray(blockers, s, d), t)
    ensures Toward(d, s, t) && Clear(blockers, d, s, t)
    decreases Room(s, d)
  {
    if Step(s, d).None? {
      RayUnfold(blockers, s, d);
      EmptyHasNothing(t);
    } else {
      var n := Step(s, d).value;
      RayStep(blockers, s, d, t);
      if t == n {
        StepToward(s, d);
        ClearToStep(blockers, s, d);
      } else {
        StepShrinksRoom(s, d);
        RaySound(blockers, n, d, t);
        TowardThroughStep(s, d, t);
        ClearThroughStep(blockers, s, d, t);
      }
    }
  }

  /** A ray holds every square beyond `s` with no blocker before it. */
  lemma {:induction false} RayComplete(blockers: Bitboard, s: Sq, d: Direction, t: Sq)
    requires Toward(d, s, t) && Clear(blockers, d, s, t)
    ensures Has(Ray(blockers, s, d), t)
    decreases Room(s, d)
  {
    TowardPastStep(s, d, t);
    var n := Step(s, d).value;
    RayStep(blockers, s, d, t);
    if t != n {
      StepShrinksRoom(s, d);
      StepToward(s, d);
      forall u: Sq | Toward(d, n, u) && Toward(d, u, t)
        ensures !Has(blockers, u)
      {
        TowardThroughStep(s, d, u);
      }
      RayComplete(blockers, n, d, t);
    }
  }

  /** The ray towards `d`: exactly the squares beyond `s` up to and including the first blocker. */
  lemma RayHas(blockers: Bitboard, s: Sq, d: Direction, t: Sq)
    ensures Has(Ray(blockers, s, d), t) <==> Toward(d, s, t) && Clear(blockers, d, s, t)
  {
    if Has(Ray(blockers, s, d), t) {
      RaySound(blockers, s, d, t);
    } else if Toward(d, s, t) && Clear(blockers, d, s, t) {
      RayComplete(blockers, s, d, t);
    }
  }

  /** A piece never reaches its own square. */
  lemma RayMissesSource(blockers: Bitboard, s: Sq, d: Direction)
    ensures !Has(Ray(blockers, s, d), s)
  {
    RayHas(blockers, s, d, s);
    TowardIrreflexive(d, s);
  }

  /** Whenever the board continues towards `d`, the ray holds that first square whatever the blockers. */
  lemma RayHoldsStep(blockers: Bitboard, s: Sq, d: Direction)
    requires Step(s, d).Some?
    ensures Has(Ray(blockers, s, d), Step(s, d).value)
  {
    RayStep(blockers, s, d, Step(s, d).value);
  }

  /** A coordinate strictly beyond `x` that can still move on lies strictly inside the board. */
  lemma InnerOfLine(m: Motion, x: bv8, y: bv8)
    requires x < 8 && y < 8 && m != Stay
    requires Beyond(m, x, y) && Next(m, y).Some?
    ensures 0 < y < 7 && y != x
  {
  }

  /** Agreement of the blocker sets beyond `s` carries over to the squares beyond its step. */
  lemma AgreeBeyondStep(b1: Bitboard, b2: Bitboard, s: Sq, d: Direction)
    requires Step(s, d).Some?
    requires forall u: Sq :: Toward(d, s, u) && Step(u, d).Some? ==> (Has(b1, u) <==> Has(b2, u))
    ensures forall u: Sq :: Toward(d, Step(s, d).value, u) && Step(u, d).Some? ==> (Has(b1, u) <==> Has(b2, u))
  {
    forall u: Sq | Toward(d, Step(s, d).value, u) && Step(u, d).Some?
      ensures Has(b1, u) <==> Has(b2, u)
    {
      TowardThroughStep(s, d, u);
    }
  }

  /** At the edge of the board the last square is reached whether or not it is a blocker. */
  lemma EndAgrees(b1: Bitboard, b2: Bitboard, n: Sq, d: Direction)
    requires Step(n, d).None?
    ensures RayFrom(b1, Some(n), d) == RayFrom(b2, Some(n), d)
  {
    OrZero(SquareBit(n));
  }

  lemma InnerAgrees(b1: Bitboard, b2: Bitboard, n: Sq, d: Direction)
    requires Has(b1, n) <==> Has(b2, n)
    requires Ray(b1, n, d) == Ray(b2, n, d)
    ensures RayFrom(b1, Some(n), d) == RayFrom(b2, Some(n), d)
  {
  }

  /**
   * Whether the last square a ray can reach is a blocker does not matter:
   * two blocker sets that agree on every other square beyond `s` give the
   * same ray.
   */
  lemma {:induction false} RayAgrees(b1: Bitboard, b2: Bitboard, s: Sq, d: Direction)
    requires forall u: Sq :: Toward(d, s, u) && Step(u, d).Some? ==> (Has(b1, u) <==> Has(b2, u))
    ensures Ray(b1, s, d) == Ray(b2, s, d)
    decreases Room(s, d)
  {
    RayUnfold(b1, s, d);
    RayUnfold(b2, s, d);
    if Step(s, d).Some? {
      var n := Step(s, d).value;
      StepShrinksRoom(s, d);
      if Step(n, d).None? {
        EndAgrees(b1, b2, n, d);
      } else {
        StepToward(s, d);
        AgreeBeyondStep(b1, b2, s, d);
        RayAgrees(b1, b2, n, d);
        InnerAgrees(b1, b2, n, d);
      }
    }
  }

  // ---------------------------------------------------------------------------
  // All the directions of a piece

  /** The moves of a piece on `s` that walks `ds` in turn: the union of its rays. */
  function Slide(blockers: Bitboard, s: Sq, ds: seq<Direction>): Bitboard
  {
    if |ds| == 0 then 0 else Slide(blockers, s, ds[..|ds| - 1]) | Ray(blockers, s, ds[|ds| - 1])
  }

  /** The last direction walked, split off. */
  lemma SlideLast(blockers: Bitboard, s: Sq, ds: seq<Direction>, t: Sq)
    requires |ds| > 0
    ensures Has(Slide(blockers, s, ds), t) <==>
      Has(Slide(blockers, s, ds[..|ds| - 1]), t) || Has(Ray(blockers, s, ds[|ds| - 1]), t)
  {
    var x, y := Slide(blockers, s, ds[..|ds| - 1]), Ray(blockers, s, ds[|ds| - 1]);
    assert Slide(blockers, s, ds) == x | y;
    OrHas(x, y, t);
  }

  /** A direction of `ds` is one of its front or its last. */
  lemma InFrontOrLast(ds: seq<Direction>, d: Direction)
    requires |ds| > 0
    ensures d in ds <==> d in ds[..|ds| - 1] || d == ds[|ds| - 1]
  {
    assert ds == ds[..|ds| - 1] + [ds[|ds| - 1]];
  }

  /** The piece reaches `t` when one of its rays does. */
  lemma {:induction false} SlideHas(blockers: Bitboard, s: Sq, ds: seq<Direction>, t: Sq)
    ensures Has(Slide(blockers, s, ds), t) <==> exists d :: d in ds && Has(Ray(blockers, s, d), t)
  {
    if |ds| == 0 {
      EmptyHasNothing(t);
    } else {
      var front, last := ds[..|ds| - 1], ds[|ds| - 1];
      SlideHas(blockers, s, front, t);
      SlideLast(blockers, s, ds, t);
      if Has(Slide(blockers, s, ds), t) {
        if Has(Slide(blockers, s, front), t) {
          var d :| d in front && Has(Ray(blockers, s, d), t);
          InFrontOrLast(ds, d);
        } else {
          InFrontOrLast(ds, last);
        }
      } else {
        forall d | d in ds
          ensures !Has(Ray(blockers, s, d), t)
        {
          InFrontOrLast(ds, d);
        }
      }
    }
  }

  /** Blocker sets that agree everywhere but at the ends of the rays give the same moves. */
  lemma {:induction false} SlideAgrees(b1: Bitboard, b2: Bitboard, s: Sq, ds: seq<Direction>)
    requires forall d, u: Sq :: d in ds && Toward(d, s, u) && Step(u, d).Some? ==> (Has(b1, u) <==> Has(b2, u))
    ensures Slide(b1, s, ds) == Slide(b2, s, ds)
  {
    if |ds| > 0 {
      var front, last := ds[..|ds| - 1], ds[|ds| - 1];
      forall d | d in front ensures d in ds {
        InFrontOrLast(ds, d);
      }
      InFrontOrLast(ds, last);
      SlideAgrees(b1, b2, s, front);
      RayAgrees(b1, b2, s, last);
    }
  }

  /** A piece with room to step in one of its directions has a move whatever the blockers. */
  lemma SlideNonEmpty(blockers: Bitboard, s: Sq, ds: seq<Direction>, d: Direction)
    requires d in ds && Step(s, d).Some?
    ensures Slide(blockers, s, ds) != 0
  {
    var t := Step(s, d).value;
    RayHoldsStep(blockers, s, d);
    SlideHas(blockers, s, ds, t);
    EmptyHasNothing(t);
  }

  /** One more direction walked. */
  lemma SlideSnoc(blockers: Bitboard, s: Sq, ds: seq<Direction>, d: Direction)
    ensures Slide(blockers, s, ds + [d]) == Slide(blockers, s, ds) | Ray(blockers, s, d)
  {
    assert (ds + [d])[..|ds|] == ds;
  }

  /** One ray loop of a generator, added to the moves of the directions walked before. */
  method ScanNext(blockers: Bitboard, s: Sq, ds: seq<Direction>, d: Direction, moves: Bitboard) returns (r: Bitboard)
    requires moves == Slide(blockers, s, ds)
    ensures r == Slide(blockers, s, ds + [d])
  {
    r := ScanRay(blockers, s, d, moves);
    SlideSnoc(blockers, s, ds, d);
  }

  /**
   * The four ray loops of a generator: walk `a`, `b`, `c` and `d` in turn,
   * collecting every square reached.
   */
  method ScanFour(blockers: Bitboard, s: Sq, a: Direction, b: Direction, c: Direction, d: Direction) returns (moves: Bitboard)
    ensures moves == Slide(blockers, s, [a, b, c, d])
  {
    moves := 0;
    moves := ScanNext(blockers, s, [], a, moves);
    assert [] + [a] == [a];
    moves := ScanNext(blockers, s, [a], b, moves);
    assert [a] + [b] == [a, b];
    moves := ScanNext(blockers, s, [a, b], c, moves);
    assert [a, b] + [c] == [a, b, c];
    moves := ScanNext(blockers, s, [a, b, c], d, moves);
    assert [a, b, c] + [d] == [a, b, c, d];
  }
}
