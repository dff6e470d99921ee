/**
 * The pawn-structure masks (bitboard_generators/pawns.go): for every square,
 * the squares ahead of a pawn on its own file, the two neighbouring files,
 * and the zones a white or a black pawn must find free of enemy pawns to
 * count as passed.
 *
 * The generator builds each mask by shifting the A file. Go's `<<` and `>>`
 * on a `uint64` drop the bits shifted out and give 0 for a shift of 64 or
 * more, which `ShiftLeft` and `ShiftRight` spell out.
 */
module PawnMasks {
  import opened Bitboards
  import opened TableBuilding
  import SquareSums
  import Evaluation


  /** `fileA << (g + rank*8 + 8)`: file `g` from the rank above `r` upwards. */
  function UpperColumn(r: bv8, g: bv8): Bitboard
  {
    ShiftLeft(FileA, g + r * 8 + 8)
  }

  /** `(fileA << g) >> ((8 - rank) * 8)`: file `g` below rank `r`. */
  function LowerColumn(r: bv8, g: bv8): Bitboard
  {
    ShiftRight(ShiftLeft(FileA, g), (8 - r) * 8)
  }

  /** `sideColumns` for file `f`: the files on either side, where they
      exist. */
  function SideFiles(f: bv8): Bitboard
  {
    OrIf(OrIf(0, f > 0, ShiftLeft(FileA, f - 1)), f < 7, ShiftLeft(FileA, f + 1))
  }

  /** The white `mask` for rank `r` and file `f`: the columns of `f - 1`,
      `f` and `f + 1` from the rank above `r`. */
  function WhiteZone(r: bv8, f: bv8): Bitboard
  {
    OrIf(OrIf(UpperColumn(r, f), f > 0, UpperColumn(r, f - 1)), f < 7, UpperColumn(r, f + 1))
  }

  /** The black `mask` for rank `r` and file `f`: the same columns shifted
      down so that only the ranks below `r` remain. */
  function BlackZone(r: bv8, f: bv8): Bitboard
  {
    OrIf(OrIf(LowerColumn(r, f), f > 0, LowerColumn(r, f - 1)), f < 7, LowerColumn(r, f + 1))
  }

  // ---------------------------------------------------------------------------
  // The four tables, entry by entry

  /** `ownColumnMask`: the squares ahead of a pawn on its own file. */
  function OwnColumn(s: Sq): Bitboard
  {
    UpperColumn(SqRank(s), SqFile(s))
  }

  /** `sideColumnsMask`: the files next to the pawn's file. */
  function SideColumns(s: Sq): Bitboard
  {
    SideFiles(SqFile(s))
  }

  /** `whiteMasks`: the white passed-pawn zone. */
  function WhitePassed(s: Sq): Bitboard
  {
    WhiteZone(SqRank(s), SqFile(s))
  }

  /** `blackMasks`: the black passed-pawn zone (nothing at all on rank 1,
      where the generator shifts by 64). */
  function BlackPassed(s: Sq): Bitboard
  {
    BlackZone(SqRank(s), SqFile(s))
  }

  // ---------------------------------------------------------------------------
  // Shifted files

  /** No shift, or a shift off the board. */
  lemma UpperColumnEnds(f: bv8, m: bv8, t: Sq)
    requires f < 8 && (m == 0 || m == 8)
    ensures Has(ShiftLeft(FileA, f + m * 8), t) <==> SqFile(t) == f && m <= SqRank(t)
  {
    if m == 0 {
      FileHas(f + m * 8, t);
    } else {
      EmptyHasNothing(t);
    }
  }

  /** Below rank `m`: nothing, since the shift is by at least `8 * m`. */
  lemma UpperColumnBelow(f: bv8, m: bv8, t: Sq)
    requires f < 8 && 0 < m < 8 && t < 8
    ensures Has(ShiftLeft(FileA, f + m * 8), t) <==> SqFile(t) == f && m <= SqRank(t)
  {
    var n := f + (m - 1) * 8;
    assert f + m * 8 == n + 8;
    UpStep(FileA, n, t);
  }

  /** One rank further up: the square a rank below `t` decides. */
  lemma UpperColumnStep(f: bv8, m: bv8, t: Sq)
    requires f < 8 && 0 < m < 8 && 8 <= t
    requires Has(ShiftLeft(FileA, f + (m - 1) * 8), t - 8) <==> SqFile(t - 8) == f && m - 1 <= SqRank(t - 8)
    ensures Has(ShiftLeft(FileA, f + m * 8), t) <==> SqFile(t) == f && m <= SqRank(t)
  {
    var n := f + (m - 1) * 8;
    assert f + m * 8 == n + 8;
    UpStep(FileA, n, t);
    RankBelow(t);
  }

  /** File `f` shifted up by `m` ranks: file `f` from rank `m` upwards. */
  lemma {:induction false} UpperColumnHas(f: bv8, m: bv8, t: Sq)
    requires f < 8 && m <= 8
    ensures Has(ShiftLeft(FileA, f + m * 8), t) <==> SqFile(t) == f && m <= SqRank(t)
    decreases m
  {
    if m == 0 || m == 8 {
      UpperColumnEnds(f, m, t);
    } else if t < 8 {
      UpperColumnBelow(f, m, t);
    } else {
      UpperColumnHas(f, m - 1, t - 8);
      UpperColumnStep(f, m, t);
    }
  }

  /** File `f` shifted down by `m` ranks: file `f` below rank `8 - m`. */
  lemma {:induction false} LowerColumnHas(f: bv8, m: bv8, t: Sq)
    requires f < 8 && m <= 8
    ensures Has(ShiftRight(ShiftLeft(FileA, f), m * 8), t) <==> SqFile(t) == f && SqRank(t) + m < 8
    decreases m
  {
    if m == 0 {
      FileHas(f, t);
    } else if m == 8 {
      EmptyHasNothing(t);
    } else {
      var n := (m - 1) * 8;
      assert m * 8 == n + 8;
      DownStep(ShiftLeft(FileA, f), n, t);
      if t < 56 {
        LowerColumnHas(f, m - 1, t + 8);
        RankAbove(t);
      }
    }
  }
  // ---------------------------------------------------------------------------
  // What each mask holds

  lemma UpperColumnOf(r: bv8, g: bv8, t: Sq)
    requires r < 8 && g < 8
    ensures Has(UpperColumn(r, g), t) <==> SqFile(t) == g && SqRank(t) > r
  {
    assert g + r * 8 + 8 == g + (r + 1) * 8;
    UpperColumnHas(g, r + 1, t);
  }

  lemma LowerColumnOf(r: bv8, g: bv8, t: Sq)
    requires r < 8 && g < 8
    ensures Has(LowerColumn(r, g), t) <==> SqFile(t) == g && SqRank(t) < r
  {
    LowerColumnHas(g, 8 - r, t);
  }

  /** The squares ahead of the pawn on its own file: the same file, a higher
      rank. */
  lemma OwnColumnHas(s: Sq, t: Sq)
    ensures Has(OwnColumn(s), t) <==> SqFile(t) == SqFile(s) && SqRank(t) > SqRank(s)
  {
    UpperColumnOf(SqRank(s), SqFile(s), t);
  }

  /** On the last rank there is nothing ahead. */
  lemma OwnColumnLastRank(s: Sq)
    requires SqRank(s) == 7
    ensures OwnColumn(s) == 0
  {
    forall t: Sq ensures Has(OwnColumn(s), t) == Has(0, t) {
      OwnColumnHas(s, t);
      EmptyHasNothing(t);
    }
    Extensionality(OwnColumn(s), 0);
  }

  /** The whole files next to the pawn's file, and nothing else. */
  lemma SideColumnsHas(s: Sq, t: Sq)
    ensures Has(SideColumns(s), t) <==> SqFile(t) + 1 == SqFile(s) || SqFile(t) == SqFile(s) + 1
  {
    var f := SqFile(s);
    EmptyHasNothing(t);
    OrIfHas(0, f > 0, ShiftLeft(FileA, f - 1), t);
    OrIfHas(OrIf(0, f > 0, ShiftLeft(FileA, f - 1)), f < 7, ShiftLeft(FileA, f + 1), t);
    if f > 0 {
      FileHas(f - 1, t);
    }
    if f < 7 {
      FileHas(f + 1, t);
    }
  }

  /** A zone built as the generator builds it, from the column of file `f`
      and, where they exist, the columns on either side, each restricted to
      the same ranks (`inRange`). */
  lemma ZoneHas(a: Bitboard, l: Bitboard, u: Bitboard, f: bv8, t: Sq, inRange: bool)
    requires f < 8
    requires Has(a, t) <==> SqFile(t) == f && inRange
    requires f > 0 ==> (Has(l, t) <==> SqFile(t) == f - 1 && inRange)
    requires f < 7 ==> (Has(u, t) <==> SqFile(t) == f + 1 && inRange)
    ensures Has(OrIf(OrIf(a, f > 0, l), f < 7, u), t) <==> Adjacent(SqFile(t), f) && inRange
  {
    OrIfHas(a, f > 0, l, t);
    OrIfHas(OrIf(a, f > 0, l), f < 7, u, t);
    ZoneBits(Has(a, t), Has(l, t), Has(u, t), f, SqFile(t), inRange);
  }

  lemma ZoneBits(ha: bool, hl: bool, hu: bool, f: bv8, g: bv8, inRange: bool)
    requires f < 8 && g < 8
    requires ha <==> g == f && inRange
    requires f > 0 ==> (hl <==> g == f - 1 && inRange)
    requires f < 7 ==> (hu <==> g == f + 1 && inRange)
    ensures (ha || (f > 0 && hl)) || (f < 7 && hu) <==> Adjacent(g, f) && inRange
  {
    AdjacentFiles(f, g);
  }

  /** The files next to `f` are `f - 1` and `f + 1`, where they exist. */
  lemma AdjacentFiles(f: bv8, g: bv8)
    requires f < 8 && g < 8
    ensures Adjacent(g, f) <==> g == f || (f > 0 && g == f - 1) || (f < 7 && g == f + 1)
  {
  }

  /** The white zone: the pawn's file and its neighbours, above the pawn. */
  lemma WhitePassedHas(s: Sq, t: Sq)
    ensures Has(WhitePassed(s), t) <==> Adjacent(SqFile(t), SqFile(s)) && SqRank(t) > SqRank(s)
  {
    var r, f := SqRank(s), SqFile(s);
    ZoneHas(UpperColumn(r, f), UpperColumn(r, f - 1), UpperColumn(r, f + 1), f, t, SqRank(t) > r) by {
      UpperColumnOf(r, f, t);
      if f > 0 {
        UpperColumnOf(r, f - 1, t);
      }
      if f < 7 {
        UpperColumnOf(r, f + 1, t);
      }
    }
  }

  /** The black zone: the pawn's file and its neighbours, below the pawn. */
  lemma BlackPassedHas(s: Sq, t: Sq)
    ensures Has(BlackPassed(s), t) <==> Adjacent(SqFile(t), SqFile(s)) && SqRank(t) < SqRank(s)
  {
    var r, f := SqRank(s), SqFile(s);
    ZoneHas(LowerColumn(r, f), LowerColumn(r, f - 1), LowerColumn(r, f + 1), f, t, SqRank(t) < r) by {
      LowerColumnOf(r, f, t);
      if f > 0 {
        LowerColumnOf(r, f - 1, t);
      }
      if f < 7 {
        LowerColumnOf(r, f + 1, t);
      }
    }
  }

  /** On the first rank a black pawn has nothing below it: the generator
      shifts by 64, which Go defines to give 0. */
  lemma BlackPassedFirstRank(s: Sq)
    requires SqRank(s) == 0
    ensures BlackPassed(s) == 0
  {
    forall t: Sq ensures Has(BlackPassed(s), t) == Has(0, t) {
      BlackPassedHas(s, t);
      EmptyHasNothing(t);
    }
    Extensionality(BlackPassed(s), 0);
  }

  /** No mask holds the pawn's own square. */
  lemma MasksExcludeSquare(s: Sq)
    ensures !Has(OwnColumn(s), s) && !Has(SideColumns(s), s)
    ensures !Has(WhitePassed(s), s) && !Has(BlackPassed(s), s)
  {
    OwnColumnHas(s, s);
    SideColumnsHas(s, s);
    WhitePassedHas(s, s);
    BlackPassedHas(s, s);
  }

  /** The white zone of a square is the black zone of the square on the
      opposite rank, turned upside down. */
  lemma PassedMirror(s: Sq, t: Sq)
    ensures Has(WhitePassed(s), t) <==> Has(BlackPassed(SquareSums.Mirror(s)), SquareSums.Mirror(t))
  {
    WhitePassedHas(s, t);
    BlackPassedHas(SquareSums.Mirror(s), SquareSums.Mirror(t));
  }

  /** The white zone is the own column together with the side columns above
      the pawn: the doubled-pawn masks and the passed-pawn masks agree. */
  lemma WhitePassedSplits(s: Sq, t: Sq)
    ensures Has(WhitePassed(s), t) <==> Has(OwnColumn(s), t) || (Has(SideColumns(s), t) && SqRank(t) > SqRank(s))
  {
    WhitePassedHas(s, t);
    OwnColumnHas(s, t);
    SideColumnsHas(s, t);
  }

  // ---------------------------------------------------------------------------
  // The generators. Their loops run over files, and within a file over
  // ranks; `Filled` says which squares an iteration has already written.

  /** Square `s` comes before file `file`, rank `rank` in the generators'
      order: an earlier file, or the same file and a lower rank. */
  predicate Filled(file: bv8, rank: bv8, s: Sq)
  {
    SqFile(s) < file || (SqFile(s) == file && SqRank(s) < rank)
  }

  lemma FilledStep(file: bv8, rank: bv8, s: Sq)
    requires file < 8 && rank < 8
    ensures Filled(file, rank + 1, s) <==> Filled(file, rank, s) || s == At(rank, file)
  {
    var r, f := SqRank(s), SqFile(s);
    assert r < rank + 1 <==> r < rank || r == rank;
    if r == rank && f == file {
      AtOfCoordinates(s);
    }
  }

  /** Every square the loops have visited holds its `table` entry. */
  ghost predicate FilledWith(t: seq<Bitboard>, table: Sq -> Bitboard, file: bv8, rank: bv8)
    requires |t| == 64
  {
    forall s: Sq :: Filled(file, rank, s) ==> t[s] == table(s)
  }

  /** Writing the entry of the current square extends the filled part by
      that square. */
  lemma FillStep(t: seq<Bitboard>, table: Sq -> Bitboard, file: bv8, rank: bv8)
    requires |t| == 64 && file < 8 && rank < 8
    requires FilledWith(t, table, file, rank)
    ensures FilledWith(t[At(rank, file) := table(At(rank, file))], table, file, rank + 1)
  {
    forall s: Sq | Filled(file, rank + 1, s)
      ensures t[At(rank, file) := table(At(rank, file))][s] == table(s)
    {
      FilledStep(file, rank, s);
    }
  }

  lemma FillNextFile(t: seq<Bitboard>, table: Sq -> Bitboard, file: bv8)
    requires |t| == 64 && file < 8
    requires FilledWith(t, table, file, 8)
    ensures FilledWith(t, table, file + 1, 0)
  {
  }

  lemma FillDone(t: seq<Bitboard>, table: Sq -> Bitboard)
    requires |t| == 64
    requires FilledWith(t, table, 8, 0)
    ensures forall s: Sq :: t[s] == table(s)
  {
    forall s: Sq ensures t[s] == table(s) {
      assert Filled(8, 0, s);
    }
  }

  /** The body of `generateDoubledPawnMasks`'s loops for file `file` and rank
      `rank`. */
  method DoubledEntry(file: bv8, rank: bv8) returns (ownColumn: Bitboard, sideColumns: Bitboard)
    requires file < 8 && rank < 8
    ensures ownColumn == UpperColumn(rank, file)
    ensures sideColumns == SideFiles(file)
  {
    ownColumn := ShiftLeft(FileA, file + rank * 8 + 8);
    sideColumns := 0;
    if file > 0 {
      sideColumns := sideColumns | ShiftLeft(FileA, file - 1);
    }
    if file < 7 {
      sideColumns := sideColumns | ShiftLeft(FileA, file + 1);
    }
  }

  /** The inner loop of `generateDoubledPawnMasks`: every rank of file
      `file`. */
  method DoubledFile(ownColumnMask: array<Bitboard>, sideColumnsMask: array<Bitboard>, file: bv8)
    requires ownColumnMask.Length == 64 && sideColumnsMask.Length == 64 && ownColumnMask != sideColumnsMask
    requires file < 8
    requires FilledWith(ownColumnMask[..], OwnColumn, file, 0)
    requires FilledWith(sideColumnsMask[..], SideColumns, file, 0)
    modifies ownColumnMask, sideColumnsMask
    ensures FilledWith(ownColumnMask[..], OwnColumn, file + 1, 0)
    ensures FilledWith(sideColumnsMask[..], SideColumns, file + 1, 0)
  {
    var rank: bv8 := 0;
    while rank < 8
      invariant rank <= 8
      invariant FilledWith(ownColumnMask[..], OwnColumn, file, rank)
      invariant FilledWith(sideColumnsMask[..], SideColumns, file, rank)
    {
      var sq := At(rank, file);
      var ownColumn, sideColumns := DoubledEntry(file, rank);
      FillStep(ownColumnMask[..], OwnColumn, file, rank);
      FillStep(sideColumnsMask[..], SideColumns, file, rank);
      ownColumnMask[sq] := ownColumn;
      sideColumnsMask[sq] := sideColumns;
      rank := rank + 1;
    }
    FillNextFile(ownColumnMask[..], OwnColumn, file);
    FillNextFile(sideColumnsMask[..], SideColumns, file);
  }

  /** `generateDoubledPawnMasks`: both tables, the square on file `file` and
      rank `rank` stored at index `file + rank * 8`. */
  method GenerateDoubledPawnMasks() returns (ownColumnMask: array<Bitboard>, sideColumnsMask: array<Bitboard>)
    ensures fresh(ownColumnMask) && fresh(sideColumnsMask)
    ensures ownColumnMask.Length == 64 && sideColumnsMask.Length == 64
    ensures forall s: Sq :: ownColumnMask[s] == OwnColumn(s) && sideColumnsMask[s] == SideColumns(s)
  {
    ownColumnMask := new Bitboard[64](_ => 0);
    sideColumnsMask := new Bitboard[64](_ => 0);
    var file: bv8 := 0;
    while file < 8
      invariant file <= 8
      invariant FilledWith(ownColumnMask[..], OwnColumn, file, 0)
      invariant FilledWith(sideColumnsMask[..], SideColumns, file, 0)
    {
      DoubledFile(ownColumnMask, sideColumnsMask, file);
      file := file + 1;
    }
    FillDone(ownColumnMask[..], OwnColumn);
    FillDone(sideColumnsMask[..], SideColumns);
  }

  /** The body of the first loop of `passedPawnMasks`. */
  method WhiteEntry(file: bv8, rank: bv8) returns (mask: Bitboard)
    requires file < 8 && rank < 8
    ensures mask == WhiteZone(rank, file)
  {
    mask := ShiftLeft(FileA, file + rank * 8 + 8);
    if file > 0 {
      mask := mask | ShiftLeft(FileA, file - 1 + rank * 8 + 8);
    }
    if file < 7 {
      mask := mask | ShiftLeft(FileA, file + 1 + rank * 8 + 8);
    }
  }

  /** The body of the second loop of `passedPawnMasks`. */
  method BlackEntry(file: bv8, rank: bv8) returns (mask: Bitboard)
    requires file < 8 && rank < 8
    ensures mask == BlackZone(rank, file)
  {
    mask := LowerColumn(rank, file);
    if file > 0 {
      mask := mask | LowerColumn(rank, file - 1);
    }
    if file < 7 {
      mask := mask | LowerColumn(rank, file + 1);
    }
  }

  /** The inner loop of either half of `passedPawnMasks`: every rank of
      file `file`, each entry computed by `WhiteEntry` (`white`) or
      `BlackEntry`. */
  method PassedFile(masks: array<Bitboard>, white: bool, file: bv8)
    requires masks.Length == 64 && file < 8
    requires FilledWith(masks[..], if white then WhitePassed else BlackPassed, file, 0)
    modifies masks
    ensures FilledWith(masks[..], if white then WhitePassed else BlackPassed, file + 1, 0)
  {
    var table := if white then WhitePassed else BlackPassed;
    var rank: bv8 := 0;
    while rank < 8
      invariant rank <= 8
      invariant FilledWith(masks[..], table, file, rank)
    {
      var sq := At(rank, file);
      var mask;
      if white {
        mask := WhiteEntry(file, rank);
      } else {
        mask := BlackEntry(file, rank);
      }
      FillStep(masks[..], table, file, rank);
      masks[sq] := mask;
      rank := rank + 1;
    }
    FillNextFile(masks[..], table, file);
  }

  /** `passedPawnMasks`: the white zones, then the black zones, the square
      on file `file` and rank `rank` stored at index `file + rank * 8`. */
  method PassedPawnMasks() returns (whiteMasks: array<Bitboard>, blackMasks: array<Bitboard>)
    ensures fresh(whiteMasks) && fresh(blackMasks)
    ensures whiteMasks.Length == 64 && blackMasks.Length == 64
    ensures forall s: Sq :: whiteMasks[s] == WhitePassed(s) && blackMasks[s] == BlackPassed(s)
  {
    whiteMasks := new Bitboard[64](_ => 0);
    blackMasks := new Bitboard[64](_ => 0);
    var file: bv8 := 0;
    while file < 8
      invariant file <= 8
      invariant FilledWith(whiteMasks[..], WhitePassed, file, 0)
      modifies whiteMasks
    {
      PassedFile(whiteMasks, true, file);
      file := file + 1;
    }
    FillDone(whiteMasks[..], WhitePassed);
    file := 0;
    while file < 8
      invariant file <= 8
      invariant FilledWith(blackMasks[..], BlackPassed, file, 0)
      modifies blackMasks
    {
      PassedFile(blackMasks, false, file);
      file := file + 1;
    }
    FillDone(blackMasks[..], BlackPassed);
  }

  // ---------------------------------------------------------------------------
  // The masks as the evaluation reads them

  /** `t` is on a file next to the file of `s`. */
  predicate NeighbourFile(s: Sq, t: Sq)
  {
    SqFile(t) + 1 == SqFile(s) || SqFile(t) == SqFile(s) + 1
  }

  /** `t` is on the file of `s`, on a higher rank. */
  predicate AboveOnFile(s: Sq, t: Sq)
  {
    SqFile(t) == SqFile(s) && SqRank(t) > SqRank(s)
  }

  /** `t` is on the file of `s` or a neighbouring one, on a higher rank. */
  predicate AheadNear(s: Sq, t: Sq)
  {
    Adjacent(SqFile(t), SqFile(s)) && SqRank(t) > SqRank(s)
  }

  /** `t` is on the file of `s` or a neighbouring one, on a lower rank. */
  predicate BehindNear(s: Sq, t: Sq)
  {
    Adjacent(SqFile(t), SqFile(s)) && SqRank(t) < SqRank(s)
  }

  /** The mask `w` of the neighbouring files shares no square with `own`
      exactly when no square of `own` is on such a file. */
  lemma SideColumnsDisjoint(s: Sq, own: Bitboard, w: Bitboard)
    requires w == SideColumns(s)
    ensures w & own == 0 ==> forall t: Sq :: Has(own, t) ==> !NeighbourFile(s, t)
    ensures (forall t: Sq :: Has(own, t) ==> !NeighbourFile(s, t)) ==> w & own == 0
  {
    DisjointIff(w, own);
    forall t: Sq ensures Has(w, t) <==> NeighbourFile(s, t) {
      SideColumnsHas(s, t);
    }
  }

  lemma OwnColumnDisjoint(s: Sq, own: Bitboard, w: Bitboard)
    requires w == OwnColumn(s)
    ensures w & own != 0 ==> exists t: Sq :: Has(own, t) && AboveOnFile(s, t)
    ensures (exists t: Sq :: Has(own, t) && AboveOnFile(s, t)) ==> w & own != 0
  {
    DisjointIff(w, own);
    forall t: Sq ensures Has(w, t) <==> AboveOnFile(s, t) {
      OwnColumnHas(s, t);
    }
  }

  lemma WhitePassedDisjoint(s: Sq, enemy: Bitboard, w: Bitboard)
    requires w == WhitePassed(s)
    ensures w & enemy == 0 ==> forall t: Sq :: Has(enemy, t) ==> !AheadNear(s, t)
    ensures (forall t: Sq :: Has(enemy, t) ==> !AheadNear(s, t)) ==> w & enemy == 0
  {
    DisjointIff(w, enemy);
    forall t: Sq ensures Has(w, t) <==> AheadNear(s, t) {
      WhitePassedHas(s, t);
    }
  }

  lemma BlackPassedDisjoint(s: Sq, enemy: Bitboard, w: Bitboard)
    requires w == BlackPassed(s)
    ensures w & enemy == 0 ==> forall t: Sq :: Has(enemy, t) ==> !BehindNear(s, t)
    ensures (forall t: Sq :: Has(enemy, t) ==> !BehindNear(s, t)) ==> w & enemy == 0
  {
    DisjointIff(w, enemy);
    forall t: Sq ensures Has(w, t) <==> BehindNear(s, t) {
      BlackPassedHas(s, t);
    }
  }

  // The evaluation reads `DoublePawnsSidesMasks` (the generator's
  // `sideColumnsMask`), `DoublePawnsForwardMasks` (`ownColumnMask`) and the
  // two passed-pawn tables; the lemmas below hold wherever an entry is the
  // generated one.

  // Each direction is its own lemma: in one proof obligation the two
  // directions of these bitboard equivalences are far costlier than apart.

  lemma NoNeighbourIfIsolated(m: Evaluation.PawnMasks, own: Bitboard, s: Sq)
    requires m.doublePawnsSides[s] == SideColumns(s)
    ensures Evaluation.Isolated(m, own, s) ==> forall t: Sq :: Has(own, t) ==> !NeighbourFile(s, t)
  {
    SideColumnsDisjoint(s, own, m.doublePawnsSides[s]);
  }

  lemma IsolatedIfNoNeighbour(m: Evaluation.PawnMasks, own: Bitboard, s: Sq)
    requires m.doublePawnsSides[s] == SideColumns(s)
    ensures (forall t: Sq :: Has(own, t) ==> !NeighbourFile(s, t)) ==> Evaluation.Isolated(m, own, s)
  {
    SideColumnsDisjoint(s, own, m.doublePawnsSides[s]);
  }

  /** With the generated mask a pawn is isolated exactly when no pawn of its
      side stands on a neighbouring file. */
  lemma IsolatedMeansNoNeighbour(m: Evaluation.PawnMasks, own: Bitboard, s: Sq)
    requires m.doublePawnsSides[s] == SideColumns(s)
    ensures Evaluation.Isolated(m, own, s) <==> forall t: Sq :: Has(own, t) ==> !NeighbourFile(s, t)
  {
    NoNeighbourIfIsolated(m, own, s);
    IsolatedIfNoNeighbour(m, own, s);
  }

  lemma PawnAboveIfDoubled(m: Evaluation.PawnMasks, own: Bitboard, s: Sq)
    requires m.doublePawnsForward[s] == OwnColumn(s)
    ensures Evaluation.Doubled(m, own, s) ==> exists t: Sq :: Has(own, t) && AboveOnFile(s, t)
  {
    OwnColumnDisjoint(s, own, m.doublePawnsForward[s]);
  }

  lemma DoubledIfPawnAbove(m: Evaluation.PawnMasks, own: Bitboard, s: Sq)
    requires m.doublePawnsForward[s] == OwnColumn(s)
    ensures (exists t: Sq :: Has(own, t) && AboveOnFile(s, t)) ==> Evaluation.Doubled(m, own, s)
  {
    OwnColumnDisjoint(s, own, m.doublePawnsForward[s]);
  }

  /** With the generated mask a pawn counts as doubled exactly when a pawn of
      its side stands on its file on a higher rank. */
  lemma DoubledMeansPawnAbove(m: Evaluation.PawnMasks, own: Bitboard, s: Sq)
    requires m.doublePawnsForward[s] == OwnColumn(s)
    ensures Evaluation.Doubled(m, own, s) <==> exists t: Sq :: Has(own, t) && AboveOnFile(s, t)
  {
    PawnAboveIfDoubled(m, own, s);
    DoubledIfPawnAbove(m, own, s);
  }

  lemma NoBlockerIfWhitePassed(m: Evaluation.PawnMasks, enemy: Bitboard, s: Sq)
    requires m.passedPawnWhite[s] == WhitePassed(s)
    ensures Evaluation.Passed(m.passedPawnWhite, enemy, s) ==> forall t: Sq :: Has(enemy, t) ==> !AheadNear(s, t)
  {
    WhitePassedDisjoint(s, enemy, m.passedPawnWhite[s]);
  }

  lemma WhitePassedIfNoBlocker(m: Evaluation.PawnMasks, enemy: Bitboard, s: Sq)
    requires m.passedPawnWhite[s] == WhitePassed(s)
    ensures (forall t: Sq :: Has(enemy, t) ==> !AheadNear(s, t)) ==> Evaluation.Passed(m.passedPawnWhite, enemy, s)
  {
    WhitePassedDisjoint(s, enemy, m.passedPawnWhite[s]);
  }

  /** With the generated mask a white pawn is passed exactly when no enemy
      pawn stands ahead of it on its own or a neighbouring file. */
  lemma WhitePassedMeansNoBlocker(m: Evaluation.PawnMasks, enemy: Bitboard, s: Sq)
    requires m.passedPawnWhite[s] == WhitePassed(s)
    ensures Evaluation.Passed(m.passedPawnWhite, enemy, s) <==> forall t: Sq :: Has(enemy, t) ==> !AheadNear(s, t)
  {
    NoBlockerIfWhitePassed(m, enemy, s);
    WhitePassedIfNoBlocker(m, enemy, s);
  }

  lemma NoBlockerIfBlackPassed(m: Evaluation.PawnMasks, enemy: Bitboard, s: Sq)
    requires m.passedPawnBlack[s] == BlackPassed(s)
    ensures Evaluation.Passed(m.passedPawnBlack, enemy, s) ==> forall t: Sq :: Has(enemy, t) ==> !BehindNear(s, t)
  {
    BlackPassedDisjoint(s, enemy, m.passedPawnBlack[s]);
  }

  lemma BlackPassedIfNoBlocker(m: Evaluation.PawnMasks, enemy: Bitboard, s: Sq)
    requires m.passedPawnBlack[s] == BlackPassed(s)
    ensures (forall t: Sq :: Has(enemy, t) ==> !BehindNear(s, t)) ==> Evaluation.Passed(m.passedPawnBlack, enemy, s)
  {
    BlackPassedDisjoint(s, enemy, m.passedPawnBlack[s]);
  }

  /** With the generated mask a black pawn is passed exactly when no enemy
      pawn stands below it on its own or a neighbouring file. */
  lemma BlackPassedMeansNoBlocker(m: Evaluation.PawnMasks, enemy: Bitboard, s: Sq)
    requires m.passedPawnBlack[s] == BlackPassed(s)
    ensures Evaluation.Passed(m.passedPawnBlack, enemy, s) <==> forall t: Sq :: Has(enemy, t) ==> !BehindNear(s, t)
  {
    NoBlockerIfBlackPassed(m, enemy, s);
    BlackPassedIfNoBlocker(m, enemy, s);
  }
}
