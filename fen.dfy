/**
 * Reading a game from Forsyth-Edwards Notation (chessboard/game.go:
 * `NewGameFromFEN`, `parseCastleRights`, `parseFenBoard`), the notation of
 * section 16.1 of the PGN standard.
 *
 * Where the source panics the model returns `Err`. Two lookups the source
 * makes are not part of this model and are parameters: the table from
 * en passant field text to square (`stringToSquare`) and the precomputed
 * move tables (loaded from a file).
 */
module Fen {
  import opened Outcomes
  import opened Bitboards
  import opened Pieces
  import opened Boards
  import opened Games
  import BoardInvariant
  import Attacks
  import Squares

  // ---------------------------------------------------------------------------
  // strings.TrimSpace and strings.Split

  /** White space as Go's `unicode.IsSpace` sees it: the six ASCII spaces,
      U+0085 and U+00A0, and the other characters of Unicode's White_Space
      property (U+1680, U+2000 to U+200A, U+2028, U+2029, U+202F, U+205F,
      U+3000). */
  predicate IsSpace(c: char)
  {
    c == ' ' || c == '\t' || c == '\n' || c == '\r' || c == '\U{000B}' || c == '\U{000C}'
    || c == '\U{0085}' || c == '\U{00A0}' || c == '\U{1680}' || ('\U{2000}' <= c <= '\U{200A}')
    || c == '\U{2028}' || c == '\U{2029}' || c == '\U{202F}' || c == '\U{205F}' || c == '\U{3000}'
  }

  function TrimLeft(s: string): (r: string)
    ensures |r| <= |s| && r == s[|s| - |r|..]
    ensures |r| > 0 ==> !IsSpace(r[0])
    ensures forall i :: 0 <= i < |s| - |r| ==> IsSpace(s[i])
  {
    if |s| > 0 && IsSpace(s[0]) then TrimLeft(s[1..]) else s
  }

  function TrimRight(s: string): (r: string)
    ensures |r| <= |s| && r == s[..|r|]
    ensures |r| > 0 ==> !IsSpace(r[|r| - 1])
    ensures forall i :: |r| <= i < |s| ==> IsSpace(s[i])
  {
    if |s| > 0 && IsSpace(s[|s| - 1]) then TrimRight(s[..|s| - 1]) else s
  }

  /** Drops the white space at both ends. */
  function TrimSpace(s: string): string
  {
    TrimRight(TrimLeft(s))
  }

  /** `TrimSpace(s)` is the slice of `s` after its leading white space and
      before its trailing white space. */
  lemma TrimSpaceSlice(s: string)
    ensures var i, r := |s| - |TrimLeft(s)|, TrimSpace(s);
      i + |r| <= |s| && r == s[i..i + |r|] &&
      (forall k :: 0 <= k < i ==> IsSpace(s[k])) &&
      (forall k :: i + |r| <= k < |s| ==> IsSpace(s[k]))
  {
    var l := TrimLeft(s);
    var r := TrimRight(l);
    var i := |s| - |l|;
    assert r == l[..|r|];
    forall k | i + |r| <= k < |s| ensures IsSpace(s[k]) {
      assert s[k] == l[k - i];
    }
  }

  /** Neither end of `TrimSpace(s)` is white space. */
  lemma TrimSpaceEnds(s: string)
    ensures var r := TrimSpace(s); |r| > 0 ==> !IsSpace(r[0]) && !IsSpace(r[|r| - 1])
  {
    var l := TrimLeft(s);
    var r := TrimRight(l);
    if |r| > 0 {
      assert r[0] == l[0];
    }
  }

  /** `strings.Split(s, sep)` for a one-character separator: the pieces
      between separators, empty ones included. */
  function Split(s: string, sep: char): (r: seq<string>)
    ensures |r| >= 1
  {
    if |s| == 0 then [""]
    else
      var rest := Split(s[1..], sep);
      if s[0] == sep then [""] + rest else [[s[0]] + rest[0]] + rest[1..]
  }

  /** The pieces joined back with `sep`. */
  function Join(pieces: seq<string>, sep: char): string
    requires |pieces| >= 1
  {
    if |pieces| == 1 then pieces[0] else pieces[0] + [sep] + Join(pieces[1..], sep)
  }

  /** How many times `c` occurs in `s`. */
  function CountChar(s: string, c: char): nat
  {
    if |s| == 0 then 0 else (if s[0] == c then 1 else 0) + CountChar(s[1..], c)
  }

  /** Split and Join are inverse; no piece holds the separator; there is one
      piece more than separators. */
  lemma {:induction false} SplitJoin(s: string, sep: char)
    ensures Join(Split(s, sep), sep) == s
    ensures forall i :: 0 <= i < |Split(s, sep)| ==> sep !in Split(s, sep)[i]
    ensures |Split(s, sep)| == CountChar(s, sep) + 1
  {
    if |s| > 0 {
      var rest := Split(s[1..], sep);
      SplitJoin(s[1..], sep);
      if s[0] == sep {
        assert Split(s, sep) == [""] + rest;
        assert Split(s, sep)[1..] == rest;
      } else {
        var r := Split(s, sep);
        assert r == [[s[0]] + rest[0]] + rest[1..];
        assert r[1..] == rest[1..];
        if |rest| == 1 {
          assert r == [[s[0]] + rest[0]];
        } else {
          assert Join(rest, sep) == rest[0] + [sep] + Join(rest[1..], sep);
        }
        forall i | 0 <= i < |r| ensures sep !in r[i] {
          if i > 0 {
            assert r[i] == rest[i];
          }
        }
      }
    }
  }

  // ---------------------------------------------------------------------------
  // strconv.Atoi

  predicate IsDigit(c: char)
  {
    '0' as int <= c as int <= '9' as int
  }

  predicate AllDigits(s: string)
  {
    forall i :: 0 <= i < |s| ==> IsDigit(s[i])
  }

  /** The value of a string of decimal digits. */
  function DigitsValue(s: string): (n: nat)
    requires AllDigits(s)
  {
    if |s| == 0 then 0 else 10 * DigitsValue(s[..|s| - 1]) + (s[|s| - 1] as int - '0' as int)
  }

  const MinInt: int := -0x8000_0000_0000_0000
  const MaxInt: int := 0x7FFF_FFFF_FFFF_FFFF

  /** `strconv.Atoi` on a 64-bit platform: an optional sign, at least one
      decimal digit, and a value that fits an `int`; `None` for an error. */
  function Atoi(s: string): (r: Option<int>)
    ensures r.Some? ==> MinInt <= r.value <= MaxInt
  {
    if |s| == 0 then None
    else
      var negative := s[0] == '-';
      var digits := if s[0] == '+' || s[0] == '-' then s[1..] else s;
      if |digits| == 0 || !AllDigits(digits) then None
      else
        var v: int := if negative then -(DigitsValue(digits) as int) else DigitsValue(digits);
        if v < MinInt || v > MaxInt then None else Some(v)
  }

  lemma {:induction false} DecimalDigits(n: nat)
    ensures AllDigits(Squares.Decimal(n))
    ensures DigitsValue(Squares.Decimal(n)) == n
    decreases n
  {
    if n >= 10 {
      var front, last := Squares.Decimal(n / 10), Squares.Decimal(n % 10);
      DecimalDigits(n / 10);
      assert Squares.Decimal(n) == front + last;
      assert (front + last)[..|front + last| - 1] == front;
    }
  }

  /** Atoi reads back the decimal text of any non-negative `int`. */
  lemma AtoiDecimal(n: nat)
    requires n <= MaxInt
    ensures Atoi(Squares.Decimal(n)) == Some(n)
  {
    DecimalDigits(n);
  }

  /** Atoi accepts a signed digit string exactly when it fits an `int`. */
  lemma AtoiNegative(n: nat)
    requires n <= -MinInt
    ensures Atoi("-" + Squares.Decimal(n)) == Some(-(n as int))
  {
    DecimalDigits(n);
    assert ("-" + Squares.Decimal(n))[1..] == Squares.Decimal(n);
  }

  /** Text with a character other than a sign or digit is refused. */
  lemma AtoiRejects(s: string, i: int)
    requires 0 < i < |s| && !IsDigit(s[i])
    ensures Atoi(s) == None
  {
    if |s| > 0 && (s[0] == '+' || s[0] == '-') {
      assert s[1..][i - 1] == s[i];
    }
  }

  // ---------------------------------------------------------------------------
  // parseCastleRights

  /** Each right is held exactly when its letter occurs in the field. */
  function ParseCastleRights(raw: string): (r: CastleRights)
    ensures r.whiteKingSide <==> 'K' in raw
    ensures r.whiteQueenSide <==> 'Q' in raw
    ensures r.blackKingSide <==> 'k' in raw
    ensures r.blackQueenSide <==> 'q' in raw
  {
    CastleRights('K' in raw, 'Q' in raw, 'k' in raw, 'q' in raw)
  }

  /** "-" gives no right; "KQkq" gives all four. */
  lemma CastleRightsExamples()
    ensures ParseCastleRights("-") == CastleRights(false, false, false, false)
    ensures ParseCastleRights("KQkq") == CastleRights(true, true, true, true)
  {
  }

  // ---------------------------------------------------------------------------
  // parseFenBoard

  /** The piece a FEN letter stands for; no piece for any other character. */
  function PieceOfLetter(c: char): (p: PieceCode)
  {
    match c
    case 'K' => WhiteKing
    case 'Q' => WhiteQueen
    case 'R' => WhiteRook
    case 'B' => WhiteBishop
    case 'N' => WhiteKnight
    case 'P' => WhitePawn
    case 'k' => BlackKing
    case 'q' => BlackQueen
    case 'r' => BlackRook
    case 'b' => BlackBishop
    case 'n' => BlackKnight
    case 'p' => BlackPawn
    case _ => NoPiece
  }

  /** The value of a digit character, as an 8-bit square offset. */
  function DigitJump(c: char): (j: bv8)
    requires IsDigit(c)
    ensures j as int == c as int - '0' as int
  {
    match c
    case '0' => 0
    case '1' => 1
    case '2' => 2
    case '3' => 3
    case '4' => 4
    case '5' => 5
    case '6' => 6
    case '7' => 7
    case '8' => 8
    case _ => 9
  }

  /** The parser's state: the twelve bitboards so far and the cursor, an
      8-bit square index that wraps like the source's. */
  datatype Scan = Scan(pieces: PieceBoards, cursor: bv8)

  const A8Cursor: bv8 := 56

  const NoPieces: PieceBoards := [0, 0, 0, 0, 0, 0, 0, 0, 0, 0, 0, 0]

  /** `piece`'s bitboard with the cursor's square added; nothing is added
      once the cursor has left the board. */
  function PlaceAtCursor(ps: PieceBoards, piece: PieceCode, cursor: bv8): PieceBoards
    requires piece != NoPiece
  {
    ps[piece - 1 := ps[piece - 1] | SquareBitboardOf(cursor)]
  }

  /** One character: a piece letter sets the cursor's square on that piece's
      bitboard and advances; '/' goes back 16 squares (to the start of the
      rank below, after a full rank); a digit skips that many squares;
      anything else is refused. */
  function ScanChar(st: Scan, c: char): Result<Scan>
  {
    var p := PieceOfLetter(c);
    if p != NoPiece then
      Ok(Scan(PlaceAtCursor(st.pieces, p, st.cursor), st.cursor + 1))
    else if c == '/' then Ok(st.(cursor := st.cursor - 16))
    else if IsDigit(c) then Ok(st.(cursor := st.cursor + DigitJump(c)))
    else Err("Unknown character in FEN board")
  }

  /** The state after the characters of `rest`, starting from `st`; the
      first refused character ends the scan. */
  function ScanFrom(st: Scan, rest: string): Result<Scan>
    decreases |rest|
  {
    if |rest| == 0 then Ok(st)
    else
      match ScanChar(st, rest[0])
      case Err(e) => Err(e)
      case Ok(next) => ScanFrom(next, rest[1..])
  }

  /** The state after the whole board text, from A8 on an empty board. */
  function ScanText(raw: string): Result<Scan>
  {
    ScanFrom(Scan(NoPieces, A8Cursor), raw)
  }

  /** `parseFenBoard`: the scanned bitboards with `FillSupportBitboards`
      applied. */
  function FenBoard(raw: string): Result<BoardState>
  {
    match ScanText(raw)
    case Err(e) => Err(e)
    case Ok(st) => Ok(Filled(BoardState(st.pieces, 0, 0, 0, 0, 0)))
  }

  predicate FenChar(c: char)
  {
    PieceOfLetter(c) != NoPiece || c == '/' || IsDigit(c)
  }

  /** The board text is accepted exactly when every character is a piece
      letter, '/' or a digit. */
  lemma {:induction false} ScanFromAccepts(st: Scan, rest: string)
    ensures ScanFrom(st, rest).Ok? <==> forall i :: 0 <= i < |rest| ==> FenChar(rest[i])
    decreases |rest|
  {
    if |rest| > 0 {
      match ScanChar(st, rest[0])
      case Err(_) =>
      case Ok(next) =>
        ScanFromAccepts(next, rest[1..]);
        assert forall i :: 1 <= i < |rest| ==> rest[1..][i - 1] == rest[i];
    }
  }

  /** The board text is accepted exactly when every character is a piece
      letter, '/' or a digit. */
  lemma ScanTextAccepts(raw: string)
    ensures ScanText(raw).Ok? <==> forall i :: 0 <= i < |raw| ==> FenChar(raw[i])
  {
    ScanFromAccepts(Scan(NoPieces, A8Cursor), raw);
  }

  /** The parsed summaries are those recomputed from the piece bitboards,
      so they agree with the pieces exactly when no square holds two pieces. */
  lemma FenBoardFilled(raw: string)
    requires FenBoard(raw).Ok?
    ensures var b := FenBoard(raw).value;
      b == Filled(b) && (BoardInvariant.Consistent(b) <==> BoardInvariant.Disjoint(b.pieces))
  {
    var b := FenBoard(raw).value;
    BoardInvariant.FilledConsistent(b);
  }

  /** One character of the board text: the body of the source's loop. */
  method ScanStep(pieces: PieceBoards, cursor: bv8, c: char) returns (r: Result<Scan>)
    ensures r == ScanChar(Scan(pieces, cursor), c)
  {
    var p := PieceOfLetter(c);
    if p != NoPiece {
      r := Ok(Scan(PlaceAtCursor(pieces, p, cursor), cursor + 1));
    } else if c == '/' {
      r := Ok(Scan(pieces, cursor - 16));
    } else if IsDigit(c) {
      r := Ok(Scan(pieces, cursor + DigitJump(c)));
    } else {
      r := Err("Unknown character in FEN board");
    }
  }

  /** `parseFenBoard`: scans the text character by character from A8, then
      fills the summary bitboards. */
  method ParseFenBoard(raw: string) returns (r: Result<BoardState>)
    ensures r == FenBoard(raw)
  {
    var pieces := NoPieces;
    var cursor := A8Cursor;
    var index := 0;
    while index < |raw|
      invariant 0 <= index <= |raw|
      invariant ScanText(raw) == ScanFrom(Scan(pieces, cursor), raw[index..])
    {
      var step := ScanStep(pieces, cursor, raw[index]);
      assert raw[index..][1..] == raw[index + 1..];
      if step.Err? {
        return Err(step.message);
      }
      pieces, cursor := step.value.pieces, step.value.cursor;
      index := index + 1;
    }
    var board := FillBoard(pieces);
    r := Ok(board);
  }

  /** A board object for the scanned bitboards, its summaries filled in. */
  method FillBoard(pieces: PieceBoards) returns (b: BoardState)
    ensures b == Filled(BoardState(pieces, 0, 0, 0, 0, 0))
  {
    var board := new Board(BoardState(pieces, 0, 0, 0, 0, 0));
    board.FillSupportBitboards();
    b := board.State();
  }

  // ---------------------------------------------------------------------------
  // NewGameFromFEN

  const WhiteTurn := "w"
  const BlackTurn := "b"

  /** The position a FEN record describes, or the reason it is refused, in
      the order the source checks: six space-separated fields, the board,
      the side to move, the castling rights (never refused), the en passant
      square (looked up in `squares`), a half-move clock >= 0 and a move
      number >= 1. */
  function ParseFen(fen: string, squares: map<string, bv8>): (r: Result<Position>)
  {
    var fields := Split(TrimSpace(fen), ' ');
    if |fields| != 6 then Err("Invalid fen passed: it should have 6 pieces")
    else ParseFields(fields, squares)
  }

  /** The six fields, checked in the source's order. */
  function ParseFields(fields: seq<string>, squares: map<string, bv8>): (r: Result<Position>)
    requires |fields| == 6
  {
    var board := FenBoard(fields[0]);
    if board.Err? then Err(board.message)
    else if fields[1] != WhiteTurn && fields[1] != BlackTurn then Err("Invalid fen turn string")
    else if fields[3] !in squares then Err("Unrecognized en passant square")
    else
      var clock := Atoi(fields[4]);
      if clock.None? || clock.value < 0 then Err("Half move clock should be a non negative number")
      else
        var count := Atoi(fields[5]);
        if count.None? || count.value < 1 then Err("Move count should be a positive number")
        else
          Ok(Position(board.value, if fields[1] == WhiteTurn then WhiteColor else BlackColor,
                      ParseCastleRights(fields[2]), squares[fields[3]],
                      clock.value, count.value, false, None))
  }

  /** The checks on the six fields that the source makes. */
  predicate FieldsAccepted(fields: seq<string>, squares: map<string, bv8>)
  {
    |fields| == 6 &&
    FenBoard(fields[0]).Ok? &&
    (fields[1] == "w" || fields[1] == "b") &&
    fields[3] in squares &&
    Atoi(fields[4]).Some? && Atoi(fields[4]).value >= 0 &&
    Atoi(fields[5]).Some? && Atoi(fields[5]).value >= 1
  }

  /** Six fields are accepted exactly when they pass every check. */
  lemma ParseFieldsAccepted(fields: seq<string>, squares: map<string, bv8>)
    requires |fields| == 6
    ensures ParseFields(fields, squares).Ok? <==> FieldsAccepted(fields, squares)
  {
  }

  /** Each part of an accepted position comes from its own field. */
  lemma ParseFieldsValues(fields: seq<string>, squares: map<string, bv8>)
    requires |fields| == 6 && ParseFields(fields, squares).Ok?
    ensures var p := ParseFields(fields, squares).value;
      p.board == FenBoard(fields[0]).value &&
      (p.turn == WhiteColor <==> fields[1] == "w") &&
      (p.turn == BlackColor <==> fields[1] == "b") &&
      p.castleRights == ParseCastleRights(fields[2]) &&
      p.enPassantSquare == squares[fields[3]] &&
      p.halfMoveClock == Atoi(fields[4]).value && p.halfMoveClock >= 0 &&
      p.moveCount == Atoi(fields[5]).value && p.moveCount >= 1 &&
      !p.inCheck && p.legalMoves.None?
  {
  }

  /** A record is accepted exactly when, once trimmed, it holds five spaces
      and its fields pass the checks; the fields joined by single spaces
      give back the trimmed record. */
  lemma ParseFenAccepts(fen: string, squares: map<string, bv8>)
    ensures var fields := Split(TrimSpace(fen), ' ');
      (ParseFen(fen, squares).Ok? <==> CountChar(TrimSpace(fen), ' ') == 5 && FieldsAccepted(fields, squares)) &&
      Join(fields, ' ') == TrimSpace(fen) &&
      (|fields| == 6 ==> ParseFen(fen, squares) == ParseFields(fields, squares))
  {
    SplitJoin(TrimSpace(fen), ' ');
  }

  /** `NewGameFromFEN`: parses the record field by field and starts a game
      whose history is the one parsed position; a refused record gives the
      error `ParseFen` gives. */
  method NewGameFromFen(fen: string, squares: map<string, bv8>, tables: Attacks.PrecomputedData)
    returns (r: Result<Game>)
    ensures r.Err? ==> ParseFen(fen, squares) == Err(r.message)
    ensures r.Ok? ==> ParseFen(fen, squares).Ok?
    ensures r.Ok? ==> (fresh(r.value) && r.value.Valid() && r.value.tables == tables &&
      r.value.position == ParseFen(fen, squares).value &&
      r.value.history == [r.value.position] && r.value.moves == [])
  {
    var fields := Split(TrimSpace(fen), ' ');
    if |fields| != 6 {
      return Err("Invalid fen passed: it should have 6 pieces");
    }
    var board := ParseFenBoard(fields[0]);
    if board.Err? {
      return Err(board.message);
    }
    var turn;
    if fields[1] == WhiteTurn {
      turn := WhiteColor;
    } else if fields[1] == BlackTurn {
      turn := BlackColor;
    } else {
      return Err("Invalid fen turn string");
    }
    var rights := ParseCastleRights(fields[2]);
    if fields[3] !in squares {
      return Err("Unrecognized en passant square");
    }
    var clock := Atoi(fields[4]);
    if clock.None? || clock.value < 0 {
      return Err("Half move clock should be a non negative number");
    }
    var count := Atoi(fields[5]);
    if count.None? || count.value < 1 {
      return Err("Move count should be a positive number");
    }
    var p := Position(board.value, turn, rights, squares[fields[3]], clock.value, count.value, false, None);
    var g := new Game(tables, p);
    return Ok(g);
  }
}
