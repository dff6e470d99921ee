/**
 * Zobrist hashing (chessboard/zobrist.go): random per-(piece, square) keys
 * whose low 21 bits are zero, a hash word that packs a search result into
 * those low bits, and a direct-mapped table indexed by the top 27 bits.
 */
module Zobrist {
  import opened Bitboards
  import opened GoInt

  type ZobristHash = bv64

  /** `zobristHashMoves[piece - 1][square]`; the random generator is an input. */
  type ZobristKeys = (int, Sq) -> ZobristHash

  /** Go's `int16` and `int8`, by their two's-complement bits. */
  type Int16 = bv16
  type Int8 = bv8

  /** The value of an `int16`. */
  function Signed16(w: Int16): (x: int)
    ensures -0x8000 <= x < 0x8000
  {
    if w < 0x8000 then (w as bv15) as int else ((w & 0x7FFF) as bv15) as int - 0x8000
  }

  /** Go's conversion `int16(x)`: keeps the low 16 bits. */
  function ToInt16(x: int): (w: Int16)
  {
    (x % 0x1_0000) as bv16
  }

  /** A value of the `int16` range survives the conversion. */
  lemma Int16RoundTrip(x: int)
    requires -0x8000 <= x < 0x8000
    ensures Signed16(ToInt16(x)) == x
  {
    var w := ToInt16(x);
    ToSixteenBits(x % 0x1_0000);
    if x < 0 {
      HighHalf(w);
    } else {
      LowHalf(w);
    }
  }

  lemma HighHalf(w: bv16)
    requires w as int >= 0x8000
    ensures Signed16(w) == w as int - 0x1_0000
  {
    assert w >= 0x8000;
    assert w & 0x7FFF == w - 0x8000;
  }

  lemma LowHalf(w: bv16)
    requires w as int < 0x8000
    ensures Signed16(w) == w as int
  {
    assert w < 0x8000;
  }

  /** Go's conversion `int8(x)`: keeps the low 8 bits. */
  function ToInt8(x: int): (w: Int8)
  {
    (x % 0x100) as bv8
  }

  // ---------------------------------------------------------------------------
  // Keys

  /** The low 21 bits, where `SetData` stores a search result. */
  const DataBits: ZobristHash := 0x1F_FFFF

  predicate DataClear(h: ZobristHash)
  {
    h & DataBits == 0
  }

  /** A key as the initialiser makes it: a random word shifted left by 21. */
  function GeneratedKey(random: bv64): (k: ZobristHash)
    ensures DataClear(k)
  {
    random << 21
  }

  /** XORing keys together keeps the data bits clear, so every position hash
      built from generated keys has room for `SetData`. */
  lemma XorKeepsDataClear(a: ZobristHash, b: ZobristHash)
    requires DataClear(a) && DataClear(b)
    ensures DataClear(a ^ b)
  {
    assert (a ^ b) & DataBits == (a & DataBits) ^ (b & DataBits);
  }

  // ---------------------------------------------------------------------------
  // Go conversions

  /** `ZobristHash(v)` for an `int16` value with bits `w`: sign extension. */
  function Widen16(w: bv16): ZobristHash
  {
    if w & 0x8000 == 0 then w as bv64 else w as bv64 | 0xFFFF_FFFF_FFFF_0000
  }

  /** `ZobristHash(v)` for an `int8` value with bits `w`: sign extension. */
  function Widen8(w: bv8): ZobristHash
  {
    if w & 0x80 == 0 then w as bv64 else w as bv64 | 0xFFFF_FFFF_FFFF_FF00
  }

  // ---------------------------------------------------------------------------
  // Packing a search result

  /** The evaluation, shifted in 16 bits as Go shifts an `int16`, then widened. */
  function EvaluationField(evaluation: Int16): ZobristHash
  {
    Widen16(evaluation << 7)
  }

  /** The depth, shifted in 8 bits as Go shifts an `int8`, then widened. */
  function DepthField(depth: Int8): ZobristHash
  {
    Widen8(depth << 1)
  }

  /** `h.SetData(evaluation, depth, lowerBound)`: ORs the three fields in. */
  function SetData(h: ZobristHash, evaluation: Int16, depth: Int8, lowerBound: bool): (r: ZobristHash)
    ensures r & h == h
  {
    var r := h | EvaluationField(evaluation) | DepthField(depth);
    if lowerBound then r | 1 else r
  }

  /** The 27-bit table index, the top bits of the hash. */
  function Key(h: ZobristHash): (k: int)
    ensures 0 <= k < TableSize
  {
    ((h >> 37) as bv27) as int
  }

  /** The 43-bit long form of the position, the bits above the data. */
  function PositionHash(h: ZobristHash): (p: int)
    ensures 0 <= p < 0x800_0000_0000
  {
    ((h >> 21) as bv43) as int
  }

  const EvaluationMask: ZobristHash := 0x1F_FF80
  const DepthMask: ZobristHash := 0x7E

  /** The stored evaluation as the source decodes it: shifted right by 6. */
  function Evaluation(h: ZobristHash): (e: int)
    ensures 0 <= e < 0x8000
  {
    (((h & EvaluationMask) >> 6) as bv15) as int
  }

  function Depth(h: ZobristHash): (d: int)
    ensures 0 <= d < 64
  {
    (((h & DepthMask) >> 1) as bv6) as int
  }

  function LowerBound(h: ZobristHash): bool
  {
    h & 1 != 0
  }

  // ---------------------------------------------------------------------------
  // What SetData stores

  lemma FieldsOfSmallValues(evaluation: Int16, depth: Int8)
    requires evaluation < 256 && depth < 64
    ensures EvaluationField(evaluation) == (evaluation as bv64) << 7
    ensures DepthField(depth) == (depth as bv64) << 1
  {
    assert (evaluation << 7) & 0x8000 == 0;
    assert ((evaluation << 7) as bv64) == (evaluation as bv64) << 7;
    assert (depth << 1) & 0x80 == 0;
    assert ((depth << 1) as bv64) == (depth as bv64) << 1;
  }

  /** Neither field reaches the lowest bit, whatever the sign of the values. */
  lemma FieldsAboveBitZero(evaluation: Int16, depth: Int8)
    ensures EvaluationField(evaluation) & 1 == 0 && DepthField(depth) & 1 == 0
  {
    assert (evaluation << 7) & 1 == 0;
    assert (depth << 1) & 1 == 0;
  }

  /** The depth field for a depth below 64 holds bits 1 to 6 only; the
      evaluation field never reaches them. */
  lemma DepthFieldBits(evaluation: Int16, depth: Int8)
    requires depth < 64
    ensures EvaluationField(evaluation) & DepthMask == 0
    ensures DepthField(depth) & DepthMask == DepthField(depth)
    ensures ((DepthField(depth) >> 1) as bv6) as int == depth as int
  {
    assert (evaluation << 7) & 0x7E == 0;
    assert (depth << 1) & 0x80 == 0;
    assert (depth << 1) as bv64 == (depth as bv64) << 1;
  }

  /** `LowerBound` reads back the flag, for any evaluation and depth. */
  lemma SetDataLowerBound(h: ZobristHash, evaluation: Int16, depth: Int8, lowerBound: bool)
    requires DataClear(h)
    ensures LowerBound(SetData(h, evaluation, depth, lowerBound)) == lowerBound
  {
    FieldsAboveBitZero(evaluation, depth);
    assert h & 1 == 0 by {
      assert h & 1 == (h & DataBits) & 1;
    }
  }

  /** `Depth` reads back a depth below 64, for any evaluation. */
  lemma SetDataDepth(h: ZobristHash, evaluation: Int16, depth: Int8, lowerBound: bool)
    requires DataClear(h) && depth < 64
    ensures Depth(SetData(h, evaluation, depth, lowerBound)) == depth as int
  {
    DepthFieldBits(evaluation, depth);
    var ev, dp := EvaluationField(evaluation), DepthField(depth);
    assert h & DepthMask == 0 by {
      assert h & DepthMask == (h & DataBits) & DepthMask;
    }
    var r := SetData(h, evaluation, depth, lowerBound);
    assert r & DepthMask == dp by {
      assert r & DepthMask == (h & DepthMask) | (ev & DepthMask) | (dp & DepthMask) | (if lowerBound then 1 & DepthMask else 0);
    }
  }

  /** For an evaluation in 0..255 and a depth in 0..63 the table key and the
      long position hash are untouched. */
  lemma SetDataKeepsKey(h: ZobristHash, evaluation: Int16, depth: Int8, lowerBound: bool)
    requires evaluation < 256 && depth < 64
    ensures Key(SetData(h, evaluation, depth, lowerBound)) == Key(h)
    ensures PositionHash(SetData(h, evaluation, depth, lowerBound)) == PositionHash(h)
  {
    FieldsOfSmallValues(evaluation, depth);
    DataStaysLow(h, evaluation as bv64, depth as bv64, lowerBound);
  }

  lemma DataStaysLow(h: ZobristHash, e: bv64, d: bv64, lowerBound: bool)
    requires e < 0x4000 && d < 64
    ensures var r := h | (e << 7) | (d << 1) | (if lowerBound then 1 else 0);
      r >> 21 == h >> 21 && r >> 37 == h >> 37
  {
    var low := (e << 7) | (d << 1) | (if lowerBound then 1 else 0);
    assert low < 0x20_0000;
    assert (h | low) >> 21 == (h >> 21) | (low >> 21);
    assert (h | low) >> 37 == (h >> 37) | (low >> 37);
  }

  /** The source documents `Evaluation` as the stored value, but it shifts
      back by 6 what `SetData` shifted by 7: it reads twice the evaluation. */
  lemma SetDataEvaluationDoubles(h: ZobristHash, evaluation: Int16, depth: Int8, lowerBound: bool)
    requires DataClear(h) && evaluation < 256 && depth < 64
    ensures Evaluation(SetData(h, evaluation, depth, lowerBound)) == 2 * evaluation as int
  {
    FieldsOfSmallValues(evaluation, depth);
    EvaluationBitsOf(h, evaluation as bv64, depth as bv64, lowerBound);
    ShiftBackBySix(evaluation);
  }

  lemma ShiftBackBySix(e: Int16)
    requires e < 256
    ensures ((((e as bv64) << 7) >> 6) as bv15) as int == 2 * (e as int)
  {
  }

  lemma EvaluationBitsOf(h: ZobristHash, e: bv64, d: bv64, lowerBound: bool)
    requires h & DataBits == 0 && e < 0x4000 && d < 64
    ensures (h | (e << 7) | (d << 1) | (if lowerBound then 1 else 0)) & EvaluationMask == e << 7
  {
    assert h & EvaluationMask == 0 by {
      assert h & EvaluationMask == (h & DataBits) & EvaluationMask;
    }
  }

  /** `evaluation << 7` is computed in 16 bits, so bit 8 of the evaluation
      becomes the sign bit of the shifted `int16`, and the conversion to
      `ZobristHash` copies it into every bit above bit 15: whenever bit 8 is
      set (-256..-1, 256..511, ...), the key of the stored word is the last
      slot whatever the position. */
  lemma EvaluationBit8Key(h: ZobristHash, evaluation: Int16, depth: Int8, lowerBound: bool)
    requires evaluation & 0x100 != 0
    ensures Key(SetData(h, evaluation, depth, lowerBound)) == TableSize - 1
  {
    assert (evaluation << 7) & 0x8000 != 0;
    var field := EvaluationField(evaluation);
    assert field & 0xFFFF_FFFF_FFFF_0000 == 0xFFFF_FFFF_FFFF_0000;
    TopBitsSet(SetData(h, evaluation, depth, lowerBound), field);
  }

  /** The converse: with bit 8 of the evaluation clear and a depth in 0..63,
      whatever the sign of the evaluation, the key and the long position hash
      are untouched. */
  lemma EvaluationBit8ClearKeepsKey(h: ZobristHash, evaluation: Int16, depth: Int8, lowerBound: bool)
    requires evaluation & 0x100 == 0 && depth < 64
    ensures Key(SetData(h, evaluation, depth, lowerBound)) == Key(h)
    ensures PositionHash(SetData(h, evaluation, depth, lowerBound)) == PositionHash(h)
  {
    ShortEvaluationField(evaluation);
    ShortDepthField(depth);
    LowFieldsKeepTop(h, EvaluationField(evaluation), DepthField(depth), lowerBound);
  }

  lemma ShortEvaluationField(evaluation: Int16)
    requires evaluation & 0x100 == 0
    ensures EvaluationField(evaluation) < 0x1_0000
  {
    assert (evaluation << 7) & 0x8000 == 0;
  }

  lemma ShortDepthField(depth: Int8)
    requires depth < 64
    ensures DepthField(depth) < 0x80
  {
    assert (depth << 1) & 0x80 == 0;
  }

  /** `SetData`'s ORs, with fields below bit 21, keep the key and long hash. */
  lemma LowFieldsKeepTop(h: ZobristHash, ev: ZobristHash, dp: ZobristHash, lowerBound: bool)
    requires ev < 0x1_0000 && dp < 0x80
    ensures var r := h | ev | dp;
      var r' := if lowerBound then r | 1 else r;
      Key(r') == Key(h) && PositionHash(r') == PositionHash(h)
  {
    var low := ev | dp | (if lowerBound then 1 else 0);
    assert low < 0x20_0000;
    assert (if lowerBound then h | ev | dp | 1 else h | ev | dp) == h | low;
    LowBitsKeepTop(h, low);
  }

  /** ORing bits below bit 21 into a word keeps its key and long hash. */
  lemma LowBitsKeepTop(h: ZobristHash, low: ZobristHash)
    requires low < 0x20_0000
    ensures Key(h | low) == Key(h) && PositionHash(h | low) == PositionHash(h)
  {
    assert (h | low) >> 21 == (h >> 21) | (low >> 21);
    assert (h | low) >> 37 == (h >> 37) | (low >> 37);
  }

  /** A score of +256 overwrites the key; a score of -257 (bits 0xFEFF)
      leaves it alone. */
  lemma Bit8Examples(h: ZobristHash)
    ensures Key(SetData(h, 0x0100, 3, false)) == TableSize - 1
    ensures Key(SetData(h, 0xFEFF, 3, false)) == Key(h)
  {
    EvaluationBit8Key(h, 0x0100, 3, false);
    EvaluationBit8ClearKeepsKey(h, 0xFEFF, 3, false);
  }

  /** The `int16` scores whose bit 8 is set include -256..-1 and 256..511. */
  lemma Bit8OfScore(w: Int16)
    requires -256 <= Signed16(w) < 0 || 256 <= Signed16(w) < 512
    ensures w & 0x100 != 0
  {
    if w as int >= 0x8000 {
      HighHalf(w);
      assert w >= 0xFF00;
    } else {
      LowHalf(w);
      assert 0x100 <= w < 0x200;
    }
  }

  lemma TopBitsSet(r: ZobristHash, field: ZobristHash)
    requires field & 0xFFFF_FFFF_FFFF_0000 == 0xFFFF_FFFF_FFFF_0000
    requires r & field == field
    ensures Key(r) == TableSize - 1
  {
    assert r & 0xFFFF_FFFF_FFFF_0000 == 0xFFFF_FFFF_FFFF_0000 by {
      assert (r & field) & 0xFFFF_FFFF_FFFF_0000 == r & (field & 0xFFFF_FFFF_FFFF_0000);
    }
    assert r >> 37 == 0x7FF_FFFF;
  }

  // ---------------------------------------------------------------------------
  // Intended packing

  /** The evaluation as the decoder expects it: the low 14 bits of the
      two's complement, so it cannot reach the key bits. */
  function EncodeEvaluation(evaluation: Int16): (w: bv16)
    ensures w < 0x4000
  {
    evaluation & 0x3FFF
  }

  /** What `SetData` evidently intends: the 14-bit evaluation in bits 7 to 20. */
  function CorrectedSetData(h: ZobristHash, evaluation: Int16, depth: Int8, lowerBound: bool): ZobristHash
    requires depth < 64
  {
    h | ((EncodeEvaluation(evaluation) as bv64) << 7) | ((depth as bv64) << 1) | (if lowerBound then 1 else 0)
  }

  /** Reads bits 7 to 20 back as a signed 14-bit value, widened to 16 bits. */
  function CorrectedEvaluation(h: ZobristHash): Int16
  {
    SignExtend14((((h & EvaluationMask) >> 7) as bv14) as bv16)
  }

  function SignExtend14(w: bv16): bv16
  {
    if w & 0x2000 == 0 then w else w | 0xC000
  }

  /** The `int16` values -8192..8191, those 14 bits can hold. */
  predicate FitsFourteenBits(evaluation: Int16)
  {
    evaluation < 0x2000 || evaluation >= 0xE000
  }

  lemma FitsFourteenBitsRange(evaluation: Int16)
    ensures FitsFourteenBits(evaluation) <==> -0x2000 <= Signed16(evaluation) < 0x2000
  {
  }

  /** The corrected pair round-trips every evaluation in -8192..8191 and
      leaves the key and the long position hash alone. */
  lemma CorrectedRoundTrip(h: ZobristHash, evaluation: Int16, depth: Int8, lowerBound: bool)
    requires DataClear(h) && FitsFourteenBits(evaluation) && depth < 64
    ensures CorrectedEvaluation(CorrectedSetData(h, evaluation, depth, lowerBound)) == evaluation
    ensures Key(CorrectedSetData(h, evaluation, depth, lowerBound)) == Key(h)
    ensures PositionHash(CorrectedSetData(h, evaluation, depth, lowerBound)) == PositionHash(h)
  {
    var w := EncodeEvaluation(evaluation);
    EvaluationBitsOf(h, w as bv64, depth as bv64, lowerBound);
    DataStaysLow(h, w as bv64, depth as bv64, lowerBound);
    ShiftBackBySeven(w);
    FourteenBits(evaluation);
  }

  /** The depth and the bound flag read back from the corrected packing are
      the ones stored, and a positive depth makes the word non-zero, so the
      table sees the slot as occupied. */
  lemma CorrectedFields(h: ZobristHash, evaluation: Int16, depth: Int8, lowerBound: bool)
    requires DataClear(h) && depth < 64
    ensures Depth(CorrectedSetData(h, evaluation, depth, lowerBound)) == depth as int
    ensures LowerBound(CorrectedSetData(h, evaluation, depth, lowerBound)) == lowerBound
    ensures depth > 0 ==> CorrectedSetData(h, evaluation, depth, lowerBound) != 0
  {
    PackedDepthAndFlag(h, EncodeEvaluation(evaluation) as bv64, depth as bv64, lowerBound);
    DepthBack(depth);
  }

  lemma PackedDepthAndFlag(h: ZobristHash, e: bv64, d: bv64, lowerBound: bool)
    requires h & DataBits == 0 && e < 0x4000 && d < 64
    ensures var r := h | (e << 7) | (d << 1) | (if lowerBound then 1 else 0);
      r & DepthMask == d << 1 && (r & 1 != 0) == lowerBound && (d > 0 ==> r != 0)
  {
    assert h & DepthMask == 0 by {
      assert h & DepthMask == (h & DataBits) & DepthMask;
    }
    assert h & 1 == 0 by {
      assert h & 1 == (h & DataBits) & 1;
    }
  }

  lemma DepthBack(depth: Int8)
    requires depth < 64
    ensures ((((depth as bv64) << 1) >> 1) as bv6) as int == depth as int
  {
  }

  lemma ShiftBackBySeven(w: bv16)
    requires w < 0x4000
    ensures ((((w as bv64) << 7) >> 7) as bv14) as bv16 == w
  {
  }

  lemma FourteenBits(evaluation: Int16)
    requires FitsFourteenBits(evaluation)
    ensures SignExtend14(EncodeEvaluation(evaluation)) == evaluation
  {
    if evaluation < 0x2000 {
      NonNegativeFourteen(evaluation);
    } else {
      NegativeFourteen(evaluation);
    }
  }

  lemma NonNegativeFourteen(w: bv16)
    requires w < 0x2000
    ensures w & 0x3FFF == w && w & 0x2000 == 0
  {
  }

  lemma NegativeFourteen(w: bv16)
    requires w >= 0xE000
    ensures (w & 0x3FFF) & 0x2000 != 0 && (w & 0x3FFF) | 0xC000 == w
  {
  }

  // ---------------------------------------------------------------------------
  // The table

  /** `1 << 27` slots. */
  const TableSize: int := 0x800_0000

  /** `Get` on the slot contents: found iff the slot is non-zero. */
  function Lookup(slots: seq<ZobristHash>, h: ZobristHash): (r: (bool, ZobristHash))
    requires |slots| == TableSize
    ensures r.0 <==> slots[Key(h)] != 0
    ensures r.1 == (if r.0 then slots[Key(h)] else 0)
  {
    if slots[Key(h)] == 0 then (false, 0) else (true, slots[Key(h)])
  }

  /** After storing a non-zero word, every hash with the same key finds it. */
  lemma StoreThenLookup(slots: seq<ZobristHash>, h: ZobristHash, other: ZobristHash)
    requires |slots| == TableSize
    requires h != 0 && Key(other) == Key(h)
    ensures var k := Key(h); Lookup(slots[k := h], other) == (true, h)
  {
  }

  /** Storing leaves the lookups of every other key as they were. */
  lemma StoreKeepsOthers(slots: seq<ZobristHash>, h: ZobristHash, other: ZobristHash)
    requires |slots| == TableSize
    requires Key(other) != Key(h)
    ensures var k := Key(h); Lookup(slots[k := h], other) == Lookup(slots, other)
  {
  }

  class ZobristTable {
    var slots: array<ZobristHash>

    ghost predicate Valid()
      reads this
    {
      slots.Length == TableSize
    }

    /** `ZobristTable{}`: every slot empty. */
    constructor ()
      ensures Valid() && fresh(slots)
      ensures forall i :: 0 <= i < TableSize ==> slots[i] == 0
    {
      slots := new ZobristHash[TableSize](_ => 0);
    }

    method Get(h: ZobristHash) returns (found: bool, value: ZobristHash)
      requires Valid()
      ensures (found, value) == Lookup(slots[..], h)
    {
      var k := Key(h);
      if slots[k] == 0 {
        return false, 0;
      }
      return true, slots[k];
    }

    method Set(h: ZobristHash)
      requires Valid()
      modifies slots
      ensures var k := Key(h); slots[..] == old(slots[..])[k := h]
    {
      var k := Key(h);
      slots[k] := h;
    }
  }
}
