/**
 * The brute-force engine (chessboard/engine_bruteforce.go): negamax with
 * alpha-beta pruning, a transposition table and a quiescence search over
 * captures.
 *
 * The search plays moves on the engine's own game with `Move` and takes them
 * back with `UndoMove`, and it reads and writes a `ZobristTable`. Each search
 * method is proved equal to a recursive specification function over the
 * game's history and the table contents, and to leave the game as it found
 * it. The code the search calls but that is not part of this model (legal
 * move generation as the search sees it, `Position.Move`, `Game.Result` and
 * the position hash) is gathered in `Rules`.
 */
module Search {
  import opened Outcomes
  import opened Games
  import opened Moves
  import opened Zobrist
  import opened GoInt
  import opened Evaluation

  /** `Game.Result`: whether the game is over and how. */
  datatype GameResult = NoResult | Draw | Checkmate

  /** The game tree the search walks: the legal moves of a position, the
      position a move leads to, the result of a game given its history, and
      the Zobrist hash of a position. */
  datatype Rules = Rules(
    legal: Position -> seq<Move>,
    play: Successor,
    result: seq<Position> -> GameResult,
    hash: Position -> ZobristHash)

  /** How a search result is packed into a table entry: with zobrist.go's
      `SetData` and `Evaluation` as written, or with the corrected pair
      `CorrectedSetData` and `CorrectedEvaluation`. */
  datatype Packing = AsWritten | Corrected

  /** The engine's switches: the evaluation terms, quiescence search,
      alpha-beta pruning and the transposition table, and the packing of the
      table's entries. */
  datatype Settings = Settings(
    eval: EvalSwitches,
    quiescentSearch: bool,
    alphaBetaPruning: bool,
    transpositionTable: bool,
    packing: Packing)

  /** The score of a lost position, also the starting best score. */
  const MateScore: int := 1_000_000

  /** The depth `quiescentSearch` starts with at the search horizon. */
  const QuiescenceDepth: nat := 4

  /** A score and its main line, the reply first and the move played last. */
  datatype Scored = Scored(score: int, line: seq<Move>)

  /** A score, its main line, the table afterwards, and whether the search
      stopped at a beta cutoff. */
  datatype Searched = Searched(score: int, line: seq<Move>, slots: seq<ZobristHash>, cutoff: bool)

  function Max(a: int, b: int): int
  {
    if a < b then b else a
  }

  function Last(h: seq<Position>): Position
    requires |h| > 0
  {
    h[|h| - 1]
  }

  /** The history after playing `m` in the last position of `h`. */
  function Child(r: Rules, h: seq<Position>, m: Move): seq<Position>
    requires |h| > 0
  {
    h + [r.play(Last(h), m)]
  }

  /** The engine's `StaticEvaluation` of a position: the older evaluation
      terms the switches select, from the side to move's point of view. */
  ghost function Static(sw: EvalSwitches, p: Position): int
  {
    p.turn * EarlyTerms(sw, p.board)
  }

  /** `value.Evaluation()` of a table entry: as written, the masked bits
      shifted right by 6, never negative; corrected, the signed 14-bit field. */
  function StoredScore(packing: Packing, w: ZobristHash): int
  {
    match packing
    case AsWritten => Zobrist.Evaluation(w)
    case Corrected => Signed16(CorrectedEvaluation(w))
  }

  /** `hash.SetData(int16(score), int8(depth), lowerBound)`, with the packing's
      `SetData`. */
  function Record(packing: Packing, hash: ZobristHash, score: int, depth: nat, lowerBound: bool): ZobristHash
    requires depth < 64
  {
    match packing
    case AsWritten => SetData(hash, ToInt16(score), ToInt8(depth), lowerBound)
    case Corrected => CorrectedSetData(hash, ToInt16(score), ToInt8(depth), lowerBound)
  }

  /** `evaluationCache.Set(w)` on the slot contents. */
  function Store(slots: seq<ZobristHash>, w: ZobristHash): (r: seq<ZobristHash>)
    requires |slots| == TableSize
    ensures |r| == TableSize
  {
    var k := Key(w);
    slots[k := w]
  }

  /** A fresh `ZobristTable{}`. */
  function EmptySlots(): (r: seq<ZobristHash>)
    ensures |r| == TableSize
  {
    seq(TableSize, _ => 0)
  }

  predicate IsCaptureMove(m: Move)
  {
    IsCapture in m.flags
  }

  // ---------------------------------------------------------------------------
  // What the searches compute

  /** `quiescentSearch(depth, alpha, beta)` on the game with history `h`. It
      never writes the table. */
  ghost function QNode(s: Settings, r: Rules, ev: Position -> int, h: seq<Position>, depth: nat, alpha: int, beta: int,
                       slots: seq<ZobristHash>): Scored
    requires |h| > 0 && |slots| == TableSize
    decreases depth, 2, 0
  {
    match r.result(h)
    case Draw => Scored(0, [])
    case Checkmate => Scored(-MateScore, [])
    case NoResult =>
      if depth == 0 then Scored(ev(Last(h)), [])
      else QTable(s, r, ev, h, depth, alpha, beta, slots)
  }

  /** `quiescentSearch` from the table probe on. */
  ghost function QTable(s: Settings, r: Rules, ev: Position -> int, h: seq<Position>, depth: nat, alpha: int, beta: int,
                        slots: seq<ZobristHash>): Scored
    requires |h| > 0 && |slots| == TableSize && 0 < depth
    decreases depth, 1, 0
  {
    var lookup := Lookup(slots, r.hash(Last(h)));
    if s.transpositionTable && lookup.0 then
      var e := StoredScore(s.packing, lookup.1);
      if !LowerBound(lookup.1) then Scored(e, [])
      else if e > alpha && e >= beta then Scored(e, [])
      // The table value only raises alpha: the best score stays 0.
      else QLoop(s, r, ev, h, depth, r.legal(Last(h)), 0, Max(alpha, e), beta, 0, [], false, slots)
    else QLoop(s, r, ev, h, depth, r.legal(Last(h)), 0, alpha, beta, ev(Last(h)), [], false, slots)
  }

  /** The capture loop of `quiescentSearch` from move `i` on. */
  ghost function QLoop(s: Settings, r: Rules, ev: Position -> int, h: seq<Position>, depth: nat, ms: seq<Move>, i: nat,
                       alpha: int, beta: int, best: int, line: seq<Move>, captured: bool,
                       slots: seq<ZobristHash>): Scored
    requires |h| > 0 && |slots| == TableSize && 0 < depth && i <= |ms|
    decreases depth, 0, |ms| - i
  {
    if i == |ms| then
      if captured then Scored(best, line) else Scored(ev(Last(h)), [])
    else if !IsCaptureMove(ms[i]) then
      QLoop(s, r, ev, h, depth, ms, i + 1, alpha, beta, best, line, captured, slots)
    else
      var child := QNode(s, r, ev, Child(r, h, ms[i]), depth - 1, -beta, -alpha, slots);
      var score := -child.score;
      if score > best then
        if score > alpha && score >= beta && s.alphaBetaPruning then Scored(score, [])
        else QLoop(s, r, ev, h, depth, ms, i + 1, Max(alpha, score), beta, score, child.line + [ms[i]], true, slots)
      else QLoop(s, r, ev, h, depth, ms, i + 1, alpha, beta, best, line, true, slots)
  }

  /** `recNegaMax(depth, alpha, beta)` on the game with history `h`. */
  ghost function RecNode(s: Settings, r: Rules, ev: Position -> int, h: seq<Position>, depth: nat, alpha: int, beta: int,
                         slots: seq<ZobristHash>): (n: Searched)
    requires |h| > 0 && |slots| == TableSize && depth < 64
    ensures |n.slots| == TableSize
    decreases depth, 3, 0
  {
    match r.result(h)
    case Draw => Searched(0, [], slots, false)
    case Checkmate => Searched(-MateScore, [], slots, false)
    case NoResult =>
      if depth == 0 then
        if s.quiescentSearch then
          var q := QNode(s, r, ev, h, QuiescenceDepth, alpha, beta, slots);
          Searched(q.score, q.line, slots, false)
        else Searched(ev(Last(h)), [], slots, false)
      else RecTable(s, r, ev, h, depth, alpha, beta, slots)
  }

  /** `recNegaMax` from the table probe on. */
  ghost function RecTable(s: Settings, r: Rules, ev: Position -> int, h: seq<Position>, depth: nat, alpha: int, beta: int,
                          slots: seq<ZobristHash>): (n: Searched)
    requires |h| > 0 && |slots| == TableSize && 0 < depth < 64
    ensures |n.slots| == TableSize
    decreases depth, 2, 0
  {
    var lookup := Lookup(slots, r.hash(Last(h)));
    if s.transpositionTable && lookup.0 && Depth(lookup.1) >= depth then
      var e := StoredScore(s.packing, lookup.1);
      if !LowerBound(lookup.1) then Searched(e, [], slots, false)
      else if e > alpha && e >= beta then Searched(e, [], slots, false)
      // The table value only raises alpha: the best score stays -MateScore.
      else RecMoves(s, r, ev, h, depth, Max(alpha, e), beta, slots)
    else RecMoves(s, r, ev, h, depth, alpha, beta, slots)
  }

  /** `recNegaMax`'s move loop over the legal moves with the window
      (alpha, beta), then the table store. */
  ghost function RecMoves(s: Settings, r: Rules, ev: Position -> int, h: seq<Position>, depth: nat, alpha: int, beta: int,
                          slots: seq<ZobristHash>): (n: Searched)
    requires |h| > 0 && |slots| == TableSize && 0 < depth < 64
    ensures |n.slots| == TableSize
    decreases depth, 1, 0
  {
    Finish(s.packing, RecLoop(s, r, ev, h, depth, r.legal(Last(h)), 0, alpha, beta, -MateScore, [], slots), r.hash(Last(h)), depth)
  }

  /** The move loop of `recNegaMax` from move `i` on, up to the table store
      that follows it (see `Finish`). */
  ghost function RecLoop(s: Settings, r: Rules, ev: Position -> int, h: seq<Position>, depth: nat, ms: seq<Move>, i: nat,
                         alpha: int, beta: int, best: int, line: seq<Move>,
                         slots: seq<ZobristHash>): (n: Searched)
    requires |h| > 0 && |slots| == TableSize && 0 < depth < 64 && i <= |ms|
    ensures |n.slots| == TableSize
    decreases depth, 0, |ms| - i
  {
    if i == |ms| then Searched(best, line, slots, false)
    else
      var child := RecNode(s, r, ev, Child(r, h, ms[i]), depth - 1, -beta, -alpha, slots);
      var score := -child.score;
      if score > best then
        if score > alpha && score >= beta && s.alphaBetaPruning then Searched(score, [], child.slots, true)
        else RecLoop(s, r, ev, h, depth, ms, i + 1, Max(alpha, score), beta, score, child.line + [ms[i]], child.slots)
      else RecLoop(s, r, ev, h, depth, ms, i + 1, alpha, beta, best, line, child.slots)
  }

  /** The store that ends `recNegaMax`'s move loop: the score under the
      position's hash, as a lower bound exactly when the loop stopped at a
      beta cutoff. */
  function Finish(packing: Packing, n: Searched, hash: ZobristHash, depth: nat): Searched
    requires |n.slots| == TableSize && depth < 64
  {
    n.(slots := Store(n.slots, Record(packing, hash, n.score, depth, n.cutoff)))
  }

  /** The root loop of `NegaMax` from move `i` on. Each child is searched with
      the window (-MateScore, -bestScore) and the move is kept when its
      negated score beats the best so far. */
  ghost function RootLoop(s: Settings, r: Rules, ev: Position -> int, h: seq<Position>, depth: nat, ms: seq<Move>, i: nat,
                          bestScore: int, bestMove: Option<Move>, slots: seq<ZobristHash>): Option<Move>
    requires |h| > 0 && |slots| == TableSize && 0 < depth <= 64 && i <= |ms|
    decreases |ms| - i
  {
    if i == |ms| then bestMove
    else
      var child := RecNode(s, r, ev, Child(r, h, ms[i]), depth - 1, -MateScore, -bestScore, slots);
      var score := -child.score;
      if score > bestScore then RootLoop(s, r, ev, h, depth, ms, i + 1, score, Some(ms[i]), child.slots)
      else RootLoop(s, r, ev, h, depth, ms, i + 1, bestScore, bestMove, child.slots)
  }

  /** `NegaMax(depth)` on the game with history `h`, with a fresh table. */
  ghost function RootMove(s: Settings, r: Rules, ev: Position -> int, h: seq<Position>, depth: nat): Option<Move>
    requires |h| > 0 && 0 < depth <= 64
  {
    RootLoop(s, r, ev, h, depth, r.legal(Last(h)), 0, -MateScore, None, EmptySlots())
  }

  /** `NegaMax`'s root loop as it is meant to work: the first move is taken
      whatever its score, so a position with legal moves always yields one. */
  ghost function CorrectedRootLoop(s: Settings, r: Rules, ev: Position -> int, h: seq<Position>, depth: nat, ms: seq<Move>,
                                   i: nat, bestScore: int, bestMove: Option<Move>, slots: seq<ZobristHash>): Option<Move>
    requires |h| > 0 && |slots| == TableSize && 0 < depth <= 64 && i <= |ms|
    decreases |ms| - i
  {
    if i == |ms| then bestMove
    else
      var child := RecNode(s, r, ev, Child(r, h, ms[i]), depth - 1, -MateScore, -bestScore, slots);
      var score := -child.score;
      if score > bestScore || bestMove.None? then
        CorrectedRootLoop(s, r, ev, h, depth, ms, i + 1, score, Some(ms[i]), child.slots)
      else CorrectedRootLoop(s, r, ev, h, depth, ms, i + 1, bestScore, bestMove, child.slots)
  }

  /** The corrected `NegaMax(depth)` on the game with history `h`. */
  ghost function CorrectedRootMove(s: Settings, r: Rules, ev: Position -> int, h: seq<Position>, depth: nat): Option<Move>
    requires |h| > 0 && 0 < depth <= 64
  {
    CorrectedRootLoop(s, r, ev, h, depth, r.legal(Last(h)), 0, -MateScore, None, EmptySlots())
  }

  // ---------------------------------------------------------------------------
  // Properties of the search

  /** A result stored with the corrected packing reads back as the score, the
      depth and the bound flag it was stored with, under the position's key,
      when the score fits the 14 bits of that packing. */
  lemma RecordReadsBack(hash: ZobristHash, score: int, depth: nat, lowerBound: bool)
    requires DataClear(hash) && -0x2000 <= score < 0x2000 && depth < 64
    ensures var w := Record(Corrected, hash, score, depth, lowerBound);
            StoredScore(Corrected, w) == score && Depth(w) == depth && LowerBound(w) == lowerBound
            && Key(w) == Key(hash) && (depth > 0 ==> w != 0)
  {
    Int16RoundTrip(score);
    FitsFourteenBitsRange(ToInt16(score));
    ToEightBits(depth);
    CorrectedRoundTrip(hash, ToInt16(score), ToInt8(depth), lowerBound);
    CorrectedFields(hash, ToInt16(score), ToInt8(depth), lowerBound);
  }

  /** With the packing as written, a score in 0..255 is stored under the
      position's key with its depth and bound flag, but reads back doubled. */
  lemma RecordReadsDoubleAsWritten(hash: ZobristHash, score: int, depth: nat, lowerBound: bool)
    requires DataClear(hash) && 0 <= score < 256 && depth < 64
    ensures var w := Record(AsWritten, hash, score, depth, lowerBound);
            StoredScore(AsWritten, w) == 2 * score && Depth(w) == depth && LowerBound(w) == lowerBound
            && Key(w) == Key(hash)
  {
    ToSixteenBits(score);
    ToEightBits(depth);
    SetDataEvaluationDoubles(hash, ToInt16(score), ToInt8(depth), lowerBound);
    SetDataDepth(hash, ToInt16(score), ToInt8(depth), lowerBound);
    SetDataLowerBound(hash, ToInt16(score), ToInt8(depth), lowerBound);
    SetDataKeepsKey(hash, ToInt16(score), ToInt8(depth), lowerBound);
  }

  /** With the packing as written, a score in -256..-1 or in 256..511 (one
      pawn and more) is stored in the table's last slot, whatever the
      position's key. */
  lemma Bit8RecordLastSlot(hash: ZobristHash, score: int, depth: nat, lowerBound: bool)
    requires (-256 <= score < 0 || 256 <= score < 512) && depth < 64
    ensures Key(Record(AsWritten, hash, score, depth, lowerBound)) == TableSize - 1
  {
    Int16RoundTrip(score);
    Bit8OfScore(ToInt16(score));
    EvaluationBit8Key(hash, ToInt16(score), ToInt8(depth), lowerBound);
  }

  /** After the store that ends a searched node, with the corrected packing,
      probing the table with the node's hash finds the node's score, depth
      and bound flag. */
  lemma FinishRemembers(n: Searched, hash: ZobristHash, depth: nat)
    requires |n.slots| == TableSize && DataClear(hash) && 0 < depth < 64 && -0x2000 <= n.score < 0x2000
    ensures var found := Lookup(Finish(Corrected, n, hash, depth).slots, hash);
            found.0 && StoredScore(Corrected, found.1) == n.score && Depth(found.1) == depth && LowerBound(found.1) == n.cutoff
  {
    var w := Record(Corrected, hash, n.score, depth, n.cutoff);
    RecordReadsBack(hash, n.score, depth, n.cutoff);
    StoreThenLookup(n.slots, w, hash);
  }

  /** After the same store with the packing as written, a node that scored
      1..255 is found with twice its score. */
  lemma FinishReadsDoubleAsWritten(n: Searched, hash: ZobristHash, depth: nat)
    requires |n.slots| == TableSize && DataClear(hash) && 0 < depth < 64 && 0 < n.score < 256
    ensures var found := Lookup(Finish(AsWritten, n, hash, depth).slots, hash);
            found.0 && StoredScore(AsWritten, found.1) == 2 * n.score && Depth(found.1) == depth
  {
    var w := Record(AsWritten, hash, n.score, depth, n.cutoff);
    RecordReadsDoubleAsWritten(hash, n.score, depth, n.cutoff);
    assert w != 0 by {
      assert Depth(w) != Depth(0);
    }
    StoreThenLookup(n.slots, w, hash);
  }

  /** The table probe at the top of `recNegaMax` settles the node: an exact
      entry, or a lower bound that already reaches beta, deep enough. */
  ghost predicate TableSettles(s: Settings, slots: seq<ZobristHash>, hash: ZobristHash, depth: nat, alpha: int, beta: int)
    requires |slots| == TableSize
  {
    var found := Lookup(slots, hash);
    s.transpositionTable && found.0 && Depth(found.1) >= depth
    && (!LowerBound(found.1) || (StoredScore(s.packing, found.1) > alpha && StoredScore(s.packing, found.1) >= beta))
  }

  /** With the corrected packing, a node below the horizon either is settled
      by the table, returning the stored score and leaving the table alone,
      or searches its moves and leaves its own score, depth and bound flag in
      the table. */
  lemma RecNodeRemembers(s: Settings, r: Rules, ev: Position -> int, h: seq<Position>, depth: nat, alpha: int, beta: int,
                         slots: seq<ZobristHash>)
    requires |h| > 0 && |slots| == TableSize && 0 < depth < 64
    requires r.result(h) == NoResult && DataClear(r.hash(Last(h))) && s.packing == Corrected
    ensures var n := RecNode(s, r, ev, h, depth, alpha, beta, slots);
            var hash := r.hash(Last(h));
            if TableSettles(s, slots, hash, depth, alpha, beta) then
              n == Searched(StoredScore(Corrected, Lookup(slots, hash).1), [], slots, false)
            else
              -0x2000 <= n.score < 0x2000 ==>
                var found := Lookup(n.slots, hash);
                found.0 && StoredScore(Corrected, found.1) == n.score && Depth(found.1) == depth && LowerBound(found.1) == n.cutoff
  {
    var hash := r.hash(Last(h));
    var n := RecNode(s, r, ev, h, depth, alpha, beta, slots);
    assert n == RecTable(s, r, ev, h, depth, alpha, beta, slots);
    if !TableSettles(s, slots, hash, depth, alpha, beta) {
      var a := if s.transpositionTable && Lookup(slots, hash).0 && Depth(Lookup(slots, hash).1) >= depth
               then Max(alpha, StoredScore(s.packing, Lookup(slots, hash).1)) else alpha;
      assert n == RecMoves(s, r, ev, h, depth, a, beta, slots);
      var loop := RecLoop(s, r, ev, h, depth, r.legal(Last(h)), 0, a, beta, -MateScore, [], slots);
      assert n == Finish(s.packing, loop, hash, depth);
      if -0x2000 <= n.score < 0x2000 {
        FinishRemembers(loop, hash, depth);
      }
    }
  }

  /** The move loop of `recNegaMax` never returns less than the best score it
      started with, and it stops early only when pruning is on and the score
      reaches beta and beats alpha. */
  lemma {:induction false} RecLoopBounds(s: Settings, r: Rules, ev: Position -> int, h: seq<Position>, depth: nat,
                                         ms: seq<Move>, i: nat, alpha: int, beta: int, best: int, line: seq<Move>,
                                         slots: seq<ZobristHash>)
    requires |h| > 0 && |slots| == TableSize && 0 < depth < 64 && i <= |ms|
    ensures var n := RecLoop(s, r, ev, h, depth, ms, i, alpha, beta, best, line, slots);
            n.score >= best && (n.cutoff ==> s.alphaBetaPruning && n.score >= beta && n.score > alpha)
            && (!n.cutoff && n.score == best ==> n.line == line)
    decreases |ms| - i
  {
    if i < |ms| {
      var child := RecNode(s, r, ev, Child(r, h, ms[i]), depth - 1, -beta, -alpha, slots);
      var score := -child.score;
      if score > best {
        if !(score > alpha && score >= beta && s.alphaBetaPruning) {
          RecLoopBounds(s, r, ev, h, depth, ms, i + 1, Max(alpha, score), beta, score, child.line + [ms[i]], child.slots);
        }
      } else {
        RecLoopBounds(s, r, ev, h, depth, ms, i + 1, alpha, beta, best, line, child.slots);
      }
    }
  }

  /** Without captures among the remaining moves, the capture loop returns
      what it has: the best capture so far, or the static evaluation when no
      capture was searched. */
  lemma {:induction false} QLoopWithoutCaptures(s: Settings, r: Rules, ev: Position -> int, h: seq<Position>, depth: nat,
                                                ms: seq<Move>, i: nat, alpha: int, beta: int, best: int, line: seq<Move>,
                                                captured: bool, slots: seq<ZobristHash>)
    requires |h| > 0 && |slots| == TableSize && 0 < depth && i <= |ms|
    requires forall j :: i <= j < |ms| ==> !IsCaptureMove(ms[j])
    ensures QLoop(s, r, ev, h, depth, ms, i, alpha, beta, best, line, captured, slots)
            == if captured then Scored(best, line) else Scored(ev(Last(h)), [])
    decreases |ms| - i
  {
    if i < |ms| {
      QLoopWithoutCaptures(s, r, ev, h, depth, ms, i + 1, alpha, beta, best, line, captured, slots);
    }
  }

  /** A quiet position (no capture among its legal moves) is scored by
      `quiescentSearch` as its static evaluation, or as the table's entry when
      the table answers first. */
  lemma QuietPositionIsStatic(s: Settings, r: Rules, ev: Position -> int, h: seq<Position>, depth: nat, alpha: int, beta: int,
                              slots: seq<ZobristHash>)
    requires |h| > 0 && |slots| == TableSize && 0 < depth
    requires r.result(h) == NoResult
    requires forall m :: m in r.legal(Last(h)) ==> !IsCaptureMove(m)
    ensures var q := QNode(s, r, ev, h, depth, alpha, beta, slots);
            var found := Lookup(slots, r.hash(Last(h)));
            q.line == []
            && (if s.transpositionTable && found.0 then q.score == StoredScore(s.packing, found.1) || q.score == ev(Last(h))
                else q.score == ev(Last(h)))
  {
    var ms := r.legal(Last(h));
    var found := Lookup(slots, r.hash(Last(h)));
    var e := StoredScore(s.packing, found.1);
    QLoopWithoutCaptures(s, r, ev, h, depth, ms, 0, alpha, beta, ev(Last(h)), [], false, slots);
    QLoopWithoutCaptures(s, r, ev, h, depth, ms, 0, Max(alpha, e), beta, 0, [], false, slots);
    assert QNode(s, r, ev, h, depth, alpha, beta, slots) == QTable(s, r, ev, h, depth, alpha, beta, slots);
  }

  /** The corrected root loop returns a move exactly when it holds one or
      has moves left, and the move it returns is the one it holds or one of
      the remaining moves. */
  lemma {:induction false} CorrectedRootLoopChooses(s: Settings, r: Rules, ev: Position -> int, h: seq<Position>, depth: nat,
                                                    ms: seq<Move>, i: nat, bestScore: int, bestMove: Option<Move>,
                                                    slots: seq<ZobristHash>)
    requires |h| > 0 && |slots| == TableSize && 0 < depth <= 64 && i <= |ms|
    ensures var m := CorrectedRootLoop(s, r, ev, h, depth, ms, i, bestScore, bestMove, slots);
            (m.Some? <==> bestMove.Some? || i < |ms|) && (m.Some? ==> m == bestMove || m.value in ms[i..])
    decreases |ms| - i
  {
    if i < |ms| {
      var child := RecNode(s, r, ev, Child(r, h, ms[i]), depth - 1, -MateScore, -bestScore, slots);
      var score := -child.score;
      if score > bestScore || bestMove.None? {
        CorrectedRootLoopChooses(s, r, ev, h, depth, ms, i + 1, score, Some(ms[i]), child.slots);
      } else {
        CorrectedRootLoopChooses(s, r, ev, h, depth, ms, i + 1, bestScore, bestMove, child.slots);
      }
      assert ms[i..] == [ms[i]] + ms[i + 1..];
    }
  }

  /** The corrected `NegaMax` returns a move exactly when the position has a
      legal move, and that move is legal. */
  lemma CorrectedRootMoveIsLegal(s: Settings, r: Rules, ev: Position -> int, h: seq<Position>, depth: nat)
    requires |h| > 0 && 0 < depth <= 64
    ensures var m := CorrectedRootMove(s, r, ev, h, depth);
            (m.Some? <==> |r.legal(Last(h))| > 0) && (m.Some? ==> m.value in r.legal(Last(h)))
  {
    var ms := r.legal(Last(h));
    CorrectedRootLoopChooses(s, r, ev, h, depth, ms, 0, -MateScore, None, EmptySlots());
    assert ms[0..] == ms;
  }

  /** The move the root loop as written returns, if any, is one of the moves
      it was given. */
  lemma {:induction false} RootLoopChoosesGiven(s: Settings, r: Rules, ev: Position -> int, h: seq<Position>, depth: nat,
                                                ms: seq<Move>, i: nat, bestScore: int, bestMove: Option<Move>,
                                                slots: seq<ZobristHash>)
    requires |h| > 0 && |slots| == TableSize && 0 < depth <= 64 && i <= |ms|
    ensures var m := RootLoop(s, r, ev, h, depth, ms, i, bestScore, bestMove, slots);
            m.Some? ==> m == bestMove || m.value in ms[i..]
    decreases |ms| - i
  {
    if i < |ms| {
      var child := RecNode(s, r, ev, Child(r, h, ms[i]), depth - 1, -MateScore, -bestScore, slots);
      var score := -child.score;
      if score > bestScore {
        RootLoopChoosesGiven(s, r, ev, h, depth, ms, i + 1, score, Some(ms[i]), child.slots);
      } else {
        RootLoopChoosesGiven(s, r, ev, h, depth, ms, i + 1, bestScore, bestMove, child.slots);
      }
      assert ms[i..] == [ms[i]] + ms[i + 1..];
    }
  }

  /** The engine's switches as `NewBruteForceEngine` sets them. */
  const EngineSettings: Settings := Settings(EvalSwitches(true, true, true, false, false), true, true, true, AsWritten)

  /** A game tree where `m` is the only move and any reply to it mates. */
  function MateAfterOnlyMove(m: Move): Rules
  {
    Rules(_ => [m], (p, _) => p, (h: seq<Position>) => if |h| >= 3 then Checkmate else NoResult, _ => 0)
  }

  /** In that tree the reply to the only move is mated. */
  lemma MatedAfterReply(ev: Position -> int, p: Position, m: Move)
    ensures RecNode(EngineSettings, MateAfterOnlyMove(m), ev, [p, p, p], 1, -MateScore, MateScore, EmptySlots())
            == Searched(-MateScore, [], EmptySlots(), false)
  {
    assert MateAfterOnlyMove(m).result([p, p, p]) == Checkmate;
  }

  /** So after the only move, the opponent's move loop stops at once with a
      beta cutoff at MateScore. */
  lemma ReplyCutsOff(ev: Position -> int, p: Position, m: Move)
    ensures RecLoop(EngineSettings, MateAfterOnlyMove(m), ev, [p, p], 2, [m], 0, -MateScore, MateScore, -MateScore, [],
                    EmptySlots()) == Searched(MateScore, [], EmptySlots(), true)
  {
    var r := MateAfterOnlyMove(m);
    assert Child(r, [p, p], m) == [p, p, p];
    MatedAfterReply(ev, p, m);
  }

  /** and the position after the only move scores MateScore for the side to
      move there. */
  lemma OnlyMoveLoses(ev: Position -> int, p: Position, m: Move)
    ensures RecNode(EngineSettings, MateAfterOnlyMove(m), ev, [p, p], 2, -MateScore, MateScore, EmptySlots()).score
            == MateScore
  {
    var s := EngineSettings;
    var r := MateAfterOnlyMove(m);
    var empty := EmptySlots();
    assert r.result([p, p]) == NoResult;
    assert Lookup(empty, 0).0 == false by {
      assert empty[Key(0)] == 0;
    }
    assert RecNode(s, r, ev, [p, p], 2, -MateScore, MateScore, empty)
        == RecMoves(s, r, ev, [p, p], 2, -MateScore, MateScore, empty);
    ReplyCutsOff(ev, p, m);
  }

  /** `NegaMax` as written returns no move in a position that has one: the
      only move's score is -MateScore, which is not strictly above the
      starting best score -MateScore. The corrected loop returns it. */
  lemma RootMoveMissesOnlyMove(ev: Position -> int, p: Position, m: Move)
    ensures MateAfterOnlyMove(m).legal(p) == [m]
    ensures RootMove(EngineSettings, MateAfterOnlyMove(m), ev, [p], 3) == None
    ensures CorrectedRootMove(EngineSettings, MateAfterOnlyMove(m), ev, [p], 3) == Some(m)
  {
    var s := EngineSettings;
    var r := MateAfterOnlyMove(m);
    var empty := EmptySlots();
    var child := RecNode(s, r, ev, [p, p], 2, -MateScore, MateScore, empty);
    OnlyMoveLoses(ev, p, m);
    assert Child(r, [p], m) == [p, p];
    assert RootLoop(s, r, ev, [p], 3, [m], 1, -MateScore, None, child.slots) == None;
    assert CorrectedRootLoop(s, r, ev, [p], 3, [m], 1, -MateScore, Some(m), child.slots) == Some(m);
  }

  // ---------------------------------------------------------------------------
  // The engine

  class BruteForceEngine {
    var trackedGame: Game
    const game: Game
    const settings: Settings
    const rules: Rules
    /** The evaluation the search specification is stated with; it is the
        engine's `StaticEvaluation` (see `EvaluatesStatically`). */
    ghost const evaluate: Position -> int

    /** `evaluate` is `Static` under the engine's switches. The quantifier is
        only instantiated where a `Static` term is in view, which keeps the
        evaluation's definition out of the search proofs. */
    ghost predicate EvaluatesStatically()
    {
      forall p: Position {:trigger Static(settings.eval, p)} :: evaluate(p) == Static(settings.eval, p)
    }

    ghost predicate Valid()
      reads this, game, trackedGame
    {
      game != trackedGame && game.Valid() && trackedGame.Valid() && EvaluatesStatically()
    }

    /** `NewBruteForceEngine`: every switch of the older evaluation on, and
        quiescence, pruning and the table enabled. The engine's own game is
        overwritten by every `BestMove`. */
    constructor (trackedGame: Game, rules: Rules)
      requires trackedGame.Valid()
      ensures Valid() && fresh(game)
      ensures this.trackedGame == trackedGame && this.rules == rules
      ensures settings == Settings(EvalSwitches(true, true, true, false, false), true, true, true, AsWritten)
    {
      this.trackedGame := trackedGame;
      this.rules := rules;
      settings := Settings(EvalSwitches(true, true, true, false, false), true, true, true, AsWritten);
      evaluate := (p: Position) => Static(EvalSwitches(true, true, true, false, false), p);
      game := new Game(trackedGame.tables, trackedGame.position);
    }

    /** `BestMove`: copies the tracked game into the engine's own game and
        searches three plies there, so the tracked game is untouched. The
        move, if any, is legal; there may be none even when the position has
        legal moves (see `RootMoveMissesOnlyMove`). */
    method BestMove(remainingTime: int) returns (m: Option<Move>)
      requires Valid()
      modifies game
      ensures Valid() && unchanged(trackedGame)
      ensures m == RootMove(settings, rules, evaluate, trackedGame.history, 3)
      ensures m.Some? ==> m.value in rules.legal(trackedGame.position)
    {
      game.CopyFrom(trackedGame);
      m := NegaMax(3);
    }

    /** `StaticEvaluation` of the engine's current position. */
    method StaticEvaluation() returns (v: int)
      requires game.Valid() && EvaluatesStatically()
      ensures v == evaluate(game.position)
    {
      v := EarlyStaticEvaluation(settings.eval, game.position);
      assert v == Static(settings.eval, game.position);
    }

    /** `NegaMax`: the legal move whose negated score is the first strictly
        higher than every earlier one and than -MateScore, each child searched
        by `recNegaMax` with one shared, fresh table. */
    method NegaMax(depth: nat) returns (bestMove: Option<Move>)
      requires game.Valid() && EvaluatesStatically() && 0 < depth <= 64
      modifies game
      ensures Restored(game)
      ensures bestMove == RootMove(settings, rules, evaluate, old(game.history), depth)
      ensures bestMove.Some? ==> bestMove.value in rules.legal(old(game.position))
    {
      ghost var h := game.history;
      var legalMoves := rules.legal(game.position);
      bestMove := None;
      var bestScore := -MateScore;
      var cache := new ZobristTable();
      assert cache.slots[..] == EmptySlots();
      var i := 0;
      while i < |legalMoves|
        invariant i <= |legalMoves| && cache.Valid() && fresh(cache.slots)
        invariant game.Valid() && Restored(game)
        invariant RootLoop(settings, rules, evaluate, h, depth, legalMoves, i, bestScore, bestMove, cache.slots[..])
                  == RootMove(settings, rules, evaluate, h, depth)
      {
        var score, variation := SearchChild(legalMoves[i], depth, bestScore, MateScore, cache);
        score := -score;
        if score > bestScore {
          bestScore := score;
          bestMove := Some(legalMoves[i]);
        }
        i := i + 1;
      }
      RootLoopChoosesGiven(settings, rules, evaluate, h, depth, legalMoves, 0, -MateScore, None, EmptySlots());
      assert legalMoves[0..] == legalMoves;
    }

    /** `NegaMax` with the root loop as it is meant to work: the first move is
        kept whatever its score, so a position with legal moves always yields
        a legal move. */
    method CorrectedNegaMax(depth: nat) returns (bestMove: Option<Move>)
      requires game.Valid() && EvaluatesStatically() && 0 < depth <= 64
      modifies game
      ensures Restored(game)
      ensures bestMove == CorrectedRootMove(settings, rules, evaluate, old(game.history), depth)
      ensures bestMove.Some? <==> |rules.legal(old(game.position))| > 0
      ensures bestMove.Some? ==> bestMove.value in rules.legal(old(game.position))
    {
      ghost var h := game.history;
      var legalMoves := rules.legal(game.position);
      bestMove := None;
      var bestScore := -MateScore;
      var cache := new ZobristTable();
      assert cache.slots[..] == EmptySlots();
      var i := 0;
      while i < |legalMoves|
        invariant i <= |legalMoves| && cache.Valid() && fresh(cache.slots)
        invariant game.Valid() && Restored(game)
        invariant CorrectedRootLoop(settings, rules, evaluate, h, depth, legalMoves, i, bestScore, bestMove, cache.slots[..])
                  == CorrectedRootMove(settings, rules, evaluate, h, depth)
      {
        var score, variation := SearchChild(legalMoves[i], depth, bestScore, MateScore, cache);
        score := -score;
        if score > bestScore || bestMove.None? {
          bestScore := score;
          bestMove := Some(legalMoves[i]);
        }
        i := i + 1;
      }
      CorrectedRootMoveIsLegal(settings, rules, evaluate, h, depth);
    }

    /** `Move(m)`, then `recNegaMax(depth - 1, -beta, -alpha)`, then
        `UndoMove()`: the child's score and line, the table after the child's
        search, and the game as it was. */
    method SearchChild(m: Move, depth: nat, alpha: int, beta: int, cache: ZobristTable)
      returns (score: int, line: seq<Move>)
      requires game.Valid() && cache.Valid() && EvaluatesStatically() && 0 < depth <= 64
      modifies game, cache.slots
      ensures Restored(game)
      ensures var n := RecNode(settings, rules, evaluate, Child(rules, old(game.history), m),
                               depth - 1, -beta, -alpha, old(cache.slots[..]));
              score == n.score && line == n.line && cache.slots[..] == n.slots
      decreases depth, 0
    {
      ghost var h := game.history;
      ghost var ms := game.moves;
      game.Move(m, rules.play);
      score, line := RecNegaMax(depth - 1, -beta, -alpha, cache);
      game.UndoMove();
      assert (h + [rules.play(old(game.position), m)])[..|h|] == h;
      assert (ms + [m])[..|ms|] == ms;
    }

    /** `recNegaMax`: the score of the game's position for the side to move,
        its main line, and the table after the search; the game is as it was
        on entry. */
    method RecNegaMax(depth: nat, alpha: int, beta: int, cache: ZobristTable) returns (score: int, line: seq<Move>)
      requires game.Valid() && cache.Valid() && EvaluatesStatically() && depth < 64
      modifies game, cache.slots
      ensures Restored(game)
      ensures var n := RecNode(settings, rules, evaluate, old(game.history), depth, alpha, beta, old(cache.slots[..]));
              score == n.score && line == n.line && cache.slots[..] == n.slots
      decreases depth, 2
    {
      var result := rules.result(game.history);
      if result == Draw {
        return 0, [];
      } else if result == Checkmate {
        return -MateScore, [];
      }
      if depth == 0 {
        if settings.quiescentSearch {
          score, line := QuiescentSearch(QuiescenceDepth, alpha, beta, cache);
          return;
        }
        score := StaticEvaluation();
        return score, [];
      }
      var a := alpha;
      var found, value := cache.Get(rules.hash(game.position));
      if settings.transpositionTable && found && Depth(value) >= depth {
        if !LowerBound(value) {
          return StoredScore(settings.packing, value), [];
        }
        var stored := StoredScore(settings.packing, value);
        if stored > a {
          a := stored;
          if a >= beta {
            return a, [];
          }
        }
      }
      score, line := SearchMoves(depth, a, beta, cache);
    }

    /** The move loop of `recNegaMax` with the window (alpha, beta), ending
        with the table store. */
    method SearchMoves(depth: nat, alpha: int, beta: int, cache: ZobristTable)
      returns (score: int, line: seq<Move>)
      requires game.Valid() && cache.Valid() && EvaluatesStatically() && 0 < depth < 64
      modifies game, cache.slots
      ensures Restored(game)
      ensures var n := RecMoves(settings, rules, evaluate, old(game.history), depth, alpha, beta, old(cache.slots[..]));
              score == n.score && line == n.line && cache.slots[..] == n.slots
      decreases depth, 1
    {
      var legalMoves := rules.legal(game.position);
      ghost var h := game.history;
      ghost var target := RecLoop(settings, rules, evaluate, h, depth, legalMoves, 0, alpha, beta,
                                  -MateScore, [], cache.slots[..]);
      var bestScore := -MateScore;
      line := [];
      var a := alpha;
      var i := 0;
      while i < |legalMoves|
        invariant i <= |legalMoves| && cache.Valid()
        invariant game.Valid() && Restored(game)
        invariant RecLoop(settings, rules, evaluate, h, depth, legalMoves, i, a, beta, bestScore, line, cache.slots[..]) == target
      {
        var s, variation := SearchChild(legalMoves[i], depth, a, beta, cache);
        s := -s;
        if s > bestScore {
          bestScore := s;
          line := variation + [legalMoves[i]];
          if bestScore > a {
            a := bestScore;
            if a >= beta && settings.alphaBetaPruning {
              Remember(a, depth, true, cache);
              return a, [];
            }
          }
        }
        i := i + 1;
      }
      Remember(bestScore, depth, false, cache);
      return bestScore, line;
    }

    /** `evaluationCache.Set(position.hash.SetData(int16(score), int8(depth),
        lowerBound))`: stores the score of the current position. */
    method Remember(score: int, depth: nat, lowerBound: bool, cache: ZobristTable)
      requires game.Valid() && cache.Valid() && depth < 64
      modifies cache.slots
      ensures cache.slots[..] == Store(old(cache.slots[..]), Record(settings.packing, rules.hash(Last(game.history)), score, depth, lowerBound))
    {
      var hash := Record(settings.packing, rules.hash(game.position), score, depth, lowerBound);
      cache.Set(hash);
    }

    /** `Move(m)`, then `quiescentSearch(depth - 1, -beta, -alpha)`, then
        `UndoMove()`. */
    method QuiescentChild(m: Move, depth: nat, alpha: int, beta: int, cache: ZobristTable)
      returns (score: int, line: seq<Move>)
      requires game.Valid() && cache.Valid() && EvaluatesStatically() && 0 < depth
      modifies game
      ensures Restored(game)
      ensures Scored(score, line) == QNode(settings, rules, evaluate, Child(rules, old(game.history), m),
                                           depth - 1, -beta, -alpha, cache.slots[..])
      decreases depth, 0
    {
      ghost var h := game.history;
      ghost var ms := game.moves;
      game.Move(m, rules.play);
      score, line := QuiescentSearch(depth - 1, -beta, -alpha, cache);
      game.UndoMove();
      assert (h + [rules.play(old(game.position), m)])[..|h|] == h;
      assert (ms + [m])[..|ms|] == ms;
    }

    /** `quiescentSearch`: like `recNegaMax` but only through captures, with
        the static evaluation as the score to beat, and without writing the
        table. */
    method QuiescentSearch(depth: nat, alpha: int, beta: int, cache: ZobristTable) returns (score: int, line: seq<Move>)
      requires game.Valid() && cache.Valid() && EvaluatesStatically()
      modifies game
      ensures Restored(game)
      ensures Scored(score, line) == QNode(settings, rules, evaluate, old(game.history), depth, alpha, beta, cache.slots[..])
      decreases depth, 2
    {
      var result := rules.result(game.history);
      if result == Draw {
        return 0, [];
      } else if result == Checkmate {
        return -MateScore, [];
      }
      if depth == 0 {
        score := StaticEvaluation();
        return score, [];
      }
      var legalMoves := rules.legal(game.position);
      var bestScore := 0;
      var a := alpha;
      var found, value := cache.Get(rules.hash(game.position));
      if settings.transpositionTable && found {
        if !LowerBound(value) {
          return StoredScore(settings.packing, value), [];
        }
        var stored := StoredScore(settings.packing, value);
        if stored > a {
          a := stored;
          if a >= beta {
            return a, [];
          }
        }
      } else {
        bestScore := StaticEvaluation();
      }
      score, line := SearchCaptures(depth, legalMoves, a, beta, bestScore, cache);
    }

    /** The capture loop of `quiescentSearch` with the window (alpha, beta)
        and `bestScore` as the score to beat, ending with the static
        evaluation when there was no capture to try. */
    method SearchCaptures(depth: nat, legalMoves: seq<Move>, alpha: int, beta: int, bestScore: int, cache: ZobristTable)
      returns (score: int, line: seq<Move>)
      requires game.Valid() && cache.Valid() && EvaluatesStatically() && 0 < depth
      modifies game
      ensures Restored(game)
      ensures Scored(score, line) == QLoop(settings, rules, evaluate, old(game.history), depth, legalMoves, 0, alpha, beta,
                                           bestScore, [], false, cache.slots[..])
      decreases depth, 1
    {
      ghost var h := game.history;
      ghost var target := QLoop(settings, rules, evaluate, h, depth, legalMoves, 0, alpha, beta, bestScore, [], false, cache.slots[..]);
      score := bestScore;
      line := [];
      var a := alpha;
      var captureMoveFound := false;
      var i := 0;
      while i < |legalMoves|
        invariant i <= |legalMoves|
        invariant game.Valid() && Restored(game)
        invariant QLoop(settings, rules, evaluate, h, depth, legalMoves, i, a, beta, score, line, captureMoveFound, cache.slots[..]) == target
      {
        if IsCaptureMove(legalMoves[i]) {
          captureMoveFound := true;
          var s, variation := QuiescentChild(legalMoves[i], depth, a, beta, cache);
          s := -s;
          if s > score {
            score := s;
            line := variation + [legalMoves[i]];
            if score > a {
              a := score;
              if a >= beta && settings.alphaBetaPruning {
                return a, [];
              }
            }
          }
        }
        i := i + 1;
      }
      if !captureMoveFound {
        score := StaticEvaluation();
        return score, [];
      }
    }
  }
}
