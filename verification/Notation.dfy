/** What the notations look like, letter by letter and digit by digit: no printer or parser is spoken of in terms of
    the other. */
module Notation {
  import opened Boards
  import opened Text
  import opened Moving
  import opened Fen
  import opened Games

  // ----- Numbers ------------------------------------------------------------------------------------------

  function Pow10(i: nat): (p: nat)
    ensures p > 0
  {
    if i == 0 then 1 else 10 * Pow10(i - 1)
  }

  /** The digit on the place of the i-th power of ten. */
  function Place(n: nat, i: nat): nat { n / Pow10(i) % 10 }

  function Value(c: char): int { c as int - '0' as int }

  lemma SmallMultiple(x: int, b: int)
    requires -b < x * b < b
    ensures x == 0
  {
  }

  lemma QuotientIs(a: nat, b: nat, q: nat)
    requires b > 0 && q * b <= a < q * b + b
    ensures a / b == q
  {
    var r := a / b;
    assert a == r * b + a % b;
    assert (r - q) * b == r * b - q * b;
    SmallMultiple(r - q, b);
  }

  lemma DivideTwice(n: nat, p: nat)
    requires p > 0
    ensures (n / 10) / p == n / (10 * p)
  {
    var (m, q) := (n / 10, (n / 10) / p);
    assert m == q * p + m % p;
    assert q * (10 * p) == 10 * (q * p);
    QuotientIs(n, 10 * p, q);
  }

  lemma PlaceOfTenth(n: nat, i: nat)
    ensures Place(n, 0) == n % 10
    ensures i > 0 ==> Place(n / 10, i - 1) == Place(n, i)
    ensures (n / 10) / Pow10(i) == n / Pow10(i + 1)
  {
    if i > 0 {
      DivideTwice(n, Pow10(i - 1));
    }
    DivideTwice(n, Pow10(i));
  }

  /** A number is written with its digits in decimal order, as many as it has, without leading zeros. */
  lemma {:induction false} DigitsByPlace(n: nat)
    ensures var s := ToDecimal(n);
            && s != ""
            && (forall i | 0 <= i < |s| :: Value(s[|s| - 1 - i]) == Place(n, i))
            && (n > 0 ==> s[0] != '0') && n / Pow10(|s|) == 0
  {
    var s := ToDecimal(n);
    PlaceOfTenth(n, 0);
    if n < 10 {
      assert Pow10(1) == 10;
    } else {
      var t := ToDecimal(n / 10);
      DigitsByPlace(n / 10);
      PlaceOfTenth(n, |t|);
      assert |s| == |t| + 1 && Value(s[|s| - 1]) == n % 10;
      hide ToDecimal, Pow10, Place;
      forall i | 0 <= i < |s| ensures Value(s[|s| - 1 - i]) == Place(n, i) {
        if i > 0 {
          assert s[|s| - 1 - i] == t[|t| - 1 - (i - 1)];
          PlaceOfTenth(n, i);
        }
      }
    }
  }

  /** The sum of the digits, each times the power of ten of its place. */
  function Sum(s: string): int {
    if s == "" then 0 else Value(s[0]) * Pow10(|s| - 1) + Sum(s[1..])
  }

  lemma {:induction false} SumOfLast(s: string, c: char)
    ensures Sum(s + [c]) == 10 * Sum(s) + Value(c)
  {
    if s == "" {
      assert s + [c] == [c];
    } else {
      assert (s + [c])[1..] == s[1..] + [c];
      SumOfLast(s[1..], c);
      assert Value(s[0]) * Pow10(|s|) == 10 * (Value(s[0]) * Pow10(|s| - 1));
    }
  }

  lemma {:induction false} DigitsAddUp(s: string)
    requires forall c | c in s :: '0' <= c <= '9'
    ensures FromDigits(s) == Sum(s)
  {
    if s != "" {
      var t := s[..|s| - 1];
      assert forall c | c in t :: c in s;
      DigitsAddUp(t);
      SumOfLast(t, s[|s| - 1]);
      assert s == t + [s[|s| - 1]];
    }
  }

  /** A counter is read by the places of its digits, and nothing but digits is read. */
  lemma NumbersByPlace(s: string)
    ensures ParseDecimal(s).Ok? <==> s != "" && forall c | c in s :: '0' <= c <= '9'
    ensures ParseDecimal(s).Ok? ==> ParseDecimal(s).value == Sum(s)
  {
    if s != "" && forall c | c in s :: '0' <= c <= '9' {
      DigitsAddUp(s);
    }
  }

  // ----- Letters ------------------------------------------------------------------------------------------

  /** White's pieces are capital letters. */
  function Letter(p: Piece): char {
    match p
    case Piece(Rook, White) => 'R'
    case Piece(Bishop, White) => 'B'
    case Piece(Knight, White) => 'N'
    case Piece(Queen, White) => 'Q'
    case Piece(King, White) => 'K'
    case Piece(Pawn, White) => 'P'
    case Piece(Rook, Black) => 'r'
    case Piece(Bishop, Black) => 'b'
    case Piece(Knight, Black) => 'n'
    case Piece(Queen, Black) => 'q'
    case Piece(King, Black) => 'k'
    case Piece(Pawn, Black) => 'p'
  }

  lemma PiecesByLetter(p: Piece)
    ensures PieceChar(p) == Letter(p) && ParsePiece(Letter(p)) == Ok(p)
  {
    PieceRoundTrip(p);
  }

  /** In the placement hash it is black's pieces that are capital letters. */
  lemma HashByLetter(ps: seq<Position>, i: nat)
    requires i < |ps|
    ensures |Hash(ps)| == |ps|
    ensures Hash(ps)[i] == match ps[i].piece
                           case None => '0'
                           case Some(Piece(kind, color)) => Letter(Piece(kind, if color.White? then Black else White))
  {
  }

  // ----- Rows ---------------------------------------------------------------------------------------------

  function Zeros(n: nat): string { seq(n, _ => '0') }

  /** The squares a row's notation stands for. */
  function Expand(code: string): string {
    if code == "" then ""
    else (if '1' <= code[0] <= '8' then Zeros(Value(code[0])) else [code[0]]) + Expand(code[1..])
  }

  predicate IsRowText(row: string) { |row| <= 8 && forall c | c in row :: c == '0' || !('0' <= c <= '9') }

  lemma ExpandFirst(c: char, rest: string)
    ensures Expand([c] + rest) == (if '1' <= c <= '8' then Zeros(Value(c)) else [c]) + Expand(rest)
  {
    assert ([c] + rest)[1..] == rest;
  }

  predicate IsNumber(c: char) { '0' <= c <= '9' }

  /** The first character of a row's notation, and how many squares it is for. */
  lemma FirstOfRow(row: string) returns (c: char, k: nat)
    requires IsRowText(row) && row != ""
    ensures 1 <= k <= |row| && RunLength(row) == [c] + RunLength(row[k..]) && IsRowText(row[k..])
    ensures if row[0] == '0' then
              '1' <= c <= '8' && Value(c) == k && row[..k] == Zeros(k) && (k < |row| ==> row[k] != '0')
            else c == row[0] && k == 1 && !IsNumber(c)
  {
    var n := ZeroRun(row);
    CodeHead(row);
    k := if n == 0 then 1 else n;
    c := if n == 0 then row[0] else Digit(n);
    assert row[0] in row && forall d | d in row[k..] :: d in row;
    hide RunLength, ZeroRun;
  }

  /** The notation of a row stands for its squares, and never has one number after another. */
  lemma {:induction false} RowsByNumber(row: string)
    requires IsRowText(row)
    ensures var code := RunLength(row);
            && Expand(code) == row
            && (forall i | 0 < i < |code| :: !(IsNumber(code[i - 1]) && IsNumber(code[i])))
            && (row == "" <==> code == "") && (row != "" && row[0] != '0' ==> !IsNumber(code[0]))
  {
    if row != "" {
      var c, k := FirstOfRow(row);
      hide RunLength, IsRowText, Expand;
      RowsByNumber(row[k..]);
      ExpandFirst(c, RunLength(row[k..]));
      assert row == row[..k] + row[k..];
      assert k < |row| ==> row[k..][0] == row[k];
    }
  }

  lemma RowsFrom(s: string, i: nat)
    requires |s| == 64 && i <= 56 && i % 8 == 0
    ensures CodeRows(s[i..]) ==
              if i == 56 then RunLength(s[56..]) else RunLength(s[i..i + 8]) + "/" + CodeRows(s[i + 8..])
  {
    if i < 56 {
      assert s[i..][..8] == s[i..i + 8] && s[i..][8..] == s[i + 8..];
    }
    hide RunLength;
  }

  /** Eight rows with separators between them. */
  lemma EightRows(s: string)
    requires |s| == 64
    ensures CodeRows(s) ==
              RunLength(s[..8]) + "/" + (RunLength(s[8..16]) + "/" + (RunLength(s[16..24]) + "/" + (RunLength(s[24..32])
              + "/" + (RunLength(s[32..40]) + "/" + (RunLength(s[40..48]) + "/" + (RunLength(s[48..56]) + "/"
              + RunLength(s[56..])))))))
  {
    RowsFrom(s, 56);
    RowsFrom(s, 48);
    RowsFrom(s, 40);
    RowsFrom(s, 32);
    RowsFrom(s, 24);
    RowsFrom(s, 16);
    RowsFrom(s, 8);
    RowsFrom(s, 0);
    assert s[0..] == s && s[0..8] == s[..8];
    hide CodeRows, RunLength;
  }

  // ----- Castling rights, squares, moves ------------------------------------------------------------------

  /** White's king side, white's queen side, black's king side, black's queen side, as far as allowed. */
  function RightsInOrder(castle: Rights): string {
    (if castle.white == KingSide || castle.white == BothSides then "K" else "")
    + (if castle.white == QueenSide || castle.white == BothSides then "Q" else "")
    + (if castle.black == KingSide || castle.black == BothSides then "k" else "")
    + (if castle.black == QueenSide || castle.black == BothSides then "q" else "")
  }

  lemma RightsByLetter(castle: Rights)
    ensures CastleText(castle) == if RightsInOrder(castle) == "" then "-" else RightsInOrder(castle)
  {
  }

  /** File letter, rank digit. */
  function Name(i: int): string
    requires 0 <= i < 64
  {
    ["abcdefgh"[i % 8], "87654321"[i / 8]]
  }

  lemma SquaresByName(i: int)
    requires 0 <= i < 64
    ensures SquareText(i) == Name(i) && ParseTarget(Name(i)) == Ok(i)
  {
    TargetRoundTrip(i);
  }

  /** From, to, and the letter of the piece promoted to. */
  lemma MovesByName(m: Move)
    requires 0 <= m.source < 64 && 0 <= m.target < 64
    ensures EncodeMove(m) ==
              Name(m.source) + Name(m.target) + if m.promotion.Some? then [Letter(m.promotion.value)] else ""
    ensures ParseMove(EncodeMove(m)) == Ok(m)
  {
    SquaresByName(m.source);
    SquaresByName(m.target);
    MoveRoundTrip(m);
    if m.promotion.Some? {
      PiecesByLetter(m.promotion.value);
    }
    hide ParseMove, Name;
  }

  /** Four zeros are the null move, with any piece letter after them or none. */
  lemma NullByZeros(p: Piece)
    ensures ParseMove("0000") == Ok(Move(-1, -1, None))
    ensures ParseMove("0000" + [Letter(p)]) == Ok(Move(-1, -1, None))
  {
    PiecesByLetter(p);
    assert ("0000" + [Letter(p)])[..4] == "0000";
  }

  /** The squares are coloured like a chess board, ranks and files counted from white's left corner. */
  lemma SquaresByNumber(i: int, piece: Option<Piece>)
    requires 0 <= i < 64
    ensures Square(i, piece) ==
              Position(if (i % 8 + i / 8) % 2 == 0 then White else Black, 8 - i / 8, i % 8 + 1, piece)
  {
  }

  // ----- The whole notation -------------------------------------------------------------------------------

  function Spaced(a: string, b: string, c: string, d: string, e: string, f: string): string {
    a + " " + (b + " " + (c + " " + (d + " " + (e + " " + f))))
  }

  lemma JoinFirst(a: string, rest: seq<string>, sep: char)
    ensures Join([a], sep) == a
    ensures rest != [] ==> Join([a] + rest, sep) == a + [sep] + Join(rest, sep)
  {
    assert ([a] + rest)[1..] == rest;
  }

  lemma JoinOfSix(a: string, b: string, c: string, d: string, e: string, f: string)
    ensures Join([a, b, c, d, e, f], ' ') == Spaced(a, b, c, d, e, f)
  {
    assert [e, f] == [e] + [f] && [d, e, f] == [d] + [e, f] && [c, d, e, f] == [c] + [d, e, f];
    assert [b, c, d, e, f] == [b] + [c, d, e, f] && [a, b, c, d, e, f] == [a] + [b, c, d, e, f];
    JoinFirst(f, [], ' ');
    JoinFirst(e, [f], ' ');
    JoinFirst(d, [e, f], ' ');
    JoinFirst(c, [d, e, f], ' ');
    JoinFirst(b, [c, d, e, f], ' ');
    JoinFirst(a, [b, c, d, e, f], ' ');
    hide Join;
  }

  /** Placement, side, rights, en passant square and both counters, with single blanks between them. */
  lemma FenByParts(b: BoardState)
    requires Encodable(b)
    ensures Encode(b) ==
              Spaced(CodeRows(Chars(b.positions)),
                     if b.next == White then "w" else "b",
                     if RightsInOrder(b.castle) == "" then "-" else RightsInOrder(b.castle),
                     if b.enPassant.Some? then Name(b.enPassant.value) else "-",
                     ToDecimal(b.halfMoves), ToDecimal(b.fullMoves))
    ensures forall i | 0 <= i < 64 :: Chars(b.positions)[i] ==
              (match b.positions[i].piece case None => '0' case Some(p) => Letter(p))
  {
    RightsByLetter(b.castle);
    if b.enPassant.Some? {
      SquaresByName(b.enPassant.value);
    }
    forall p: Piece ensures PieceChar(p) == Letter(p) {
      PiecesByLetter(p);
    }
    hide CodeRows, CastleText, RightsInOrder, Name, SquareText, ToDecimal, PieceChar, Letter, Join, Spaced;
    JoinOfSix(CodeRows(Chars(b.positions)), ColorText(b.next), CastleText(b.castle), EnPassantText(b.enPassant),
              ToDecimal(b.halfMoves), ToDecimal(b.fullMoves));
  }

  lemma FrontOf(a: string, b: string, c: string, d: string, e: string, f: string) returns (front: string)
    ensures Spaced(a, b, c, d, e, f) == front + " " + (e + " " + f)
  {
    front := a + " " + (b + " " + (c + " " + d));
  }

  /** Its last two parts are the counters in decimal. */
  lemma CountersByPlace(b: BoardState)
    requires Encodable(b)
    ensures var (half, full) := (ToDecimal(b.halfMoves), ToDecimal(b.fullMoves));
            && (exists front: string :: Encode(b) == front + " " + (half + " " + full))
            && (forall i | 0 <= i < |half| :: Value(half[|half| - 1 - i]) == Place(b.halfMoves, i))
            && (forall i | 0 <= i < |full| :: Value(full[|full| - 1 - i]) == Place(b.fullMoves, i))
            && b.halfMoves / Pow10(|half|) == 0 && b.fullMoves / Pow10(|full|) == 0
  {
    FenByParts(b);
    DigitsByPlace(b.halfMoves);
    DigitsByPlace(b.fullMoves);
    var front := FrontOf(CodeRows(Chars(b.positions)), if b.next == White then "w" else "b",
                         if RightsInOrder(b.castle) == "" then "-" else RightsInOrder(b.castle),
                         if b.enPassant.Some? then Name(b.enPassant.value) else "-",
                         ToDecimal(b.halfMoves), ToDecimal(b.fullMoves));
    assert Encode(b) == front + " " + (ToDecimal(b.halfMoves) + " " + ToDecimal(b.fullMoves));
    hide Encode, Place, ToDecimal, Spaced, CodeRows;
  }

  /** Any text of six parts is read part by part: the counters of a board that is read are the numbers written. */
  lemma DecodedByPart(a: string, b: string, c: string, d: string, e: string, f: string)
    requires ' ' !in a && ' ' !in b && ' ' !in c && ' ' !in d && ' ' !in e && ' ' !in f
    requires Decode(Spaced(a, b, c, d, e, f)).Ok?
    ensures var board := Decode(Spaced(a, b, c, d, e, f)).value;
            && board.halfMoves == Sum(e) && board.fullMoves == Sum(f)
            && (if board.next == White then b == "w" else b == "b")
            && (if d == "-" then board.enPassant == None
                else board.enPassant.Some? && 0 <= board.enPassant.value < 64 && d == Name(board.enPassant.value))
  {
    JoinOfSix(a, b, c, d, e, f);
    SplitJoin([a, b, c, d, e, f], ' ');
    NumbersByPlace(e);
    NumbersByPlace(f);
    if ParseTarget(d).Ok? {
      TargetIsSquareText(d);
      SquaresByName(ParseTarget(d).value);
    }
    hide Split, Join, Spaced, ParseBoard, ParseCastle, ParseDecimal, ParseTarget, Name, Sum;
  }

  lemma JoinOfFour(a: string, b: string, c: string, rest: seq<string>, sep: char)
    requires rest != []
    ensures Join([a, b, c] + rest, sep) == a + [sep] + (b + [sep] + (c + [sep] + Join(rest, sep)))
  {
    assert [a, b, c] + rest == [a] + ([b] + ([c] + rest));
    JoinFirst(c, rest, sep);
    JoinFirst(b, [c] + rest, sep);
    JoinFirst(a, [b] + ([c] + rest), sep);
    hide Join;
  }

  lemma LastRows()
    ensures Join(["8", "PPPPPPPP", "RNBQKBNR"], '/') == "8/PPPPPPPP/RNBQKBNR"
  {
    JoinFirst("RNBQKBNR", [], '/');
    JoinFirst("PPPPPPPP", ["RNBQKBNR"], '/');
    JoinFirst("8", ["PPPPPPPP", "RNBQKBNR"], '/');
    assert ["8", "PPPPPPPP", "RNBQKBNR"] == ["8"] + ["PPPPPPPP", "RNBQKBNR"];
    assert ["PPPPPPPP", "RNBQKBNR"] == ["PPPPPPPP"] + ["RNBQKBNR"];
    hide Join;
  }

  lemma MiddleText()
    ensures "8/8/8/" + "8/PPPPPPPP/RNBQKBNR" == "8/8/8/8/PPPPPPPP/RNBQKBNR"
  {
  }

  lemma ThreeEmptyRows(rest: string)
    ensures "8" + ['/'] + ("8" + ['/'] + ("8" + ['/'] + rest)) == "8/8/8/" + rest
  {
  }

  lemma MiddleList()
    ensures ["8", "8", "8"] + ["8", "PPPPPPPP", "RNBQKBNR"] == ["8", "8", "8", "8", "PPPPPPPP", "RNBQKBNR"]
  {
  }

  lemma MiddleRows()
    ensures Join(["8", "8", "8", "8", "PPPPPPPP", "RNBQKBNR"], '/') == "8/8/8/8/PPPPPPPP/RNBQKBNR"
  {
    var rest := ["8", "PPPPPPPP", "RNBQKBNR"];
    LastRows();
    MiddleList();
    JoinOfFour("8", "8", "8", rest, '/');
    ThreeEmptyRows(Join(rest, '/'));
    MiddleText();
    hide Join;
  }

  lemma LowerText()
    ensures "pppppppp" + ['/'] + "8/8/8/8/PPPPPPPP/RNBQKBNR" == "pppppppp/8/8/8/8/PPPPPPPP/RNBQKBNR"
  {
  }

  lemma LowerList()
    ensures ["pppppppp"] + ["8", "8", "8", "8", "PPPPPPPP", "RNBQKBNR"] ==
            ["pppppppp", "8", "8", "8", "8", "PPPPPPPP", "RNBQKBNR"]
  {
  }

  lemma LowerRows()
    ensures Join(["pppppppp", "8", "8", "8", "8", "PPPPPPPP", "RNBQKBNR"], '/') == "pppppppp/8/8/8/8/PPPPPPPP/RNBQKBNR"
  {
    MiddleRows();
    LowerList();
    JoinFirst("pppppppp", ["8", "8", "8", "8", "PPPPPPPP", "RNBQKBNR"], '/');
    LowerText();
    hide Join;
  }

  lemma UpperText()
    ensures "rnbqkbnr" + ['/'] + "pppppppp/8/8/8/8/PPPPPPPP/RNBQKBNR" == "rnbqkbnr/pppppppp/8/8/8/8/PPPPPPPP/RNBQKBNR"
  {
  }

  lemma UpperList()
    ensures STANDARD_ROWS == ["rnbqkbnr"] + ["pppppppp", "8", "8", "8", "8", "PPPPPPPP", "RNBQKBNR"]
  {
  }

  lemma StandardRows()
    ensures Join(STANDARD_ROWS, '/') == "rnbqkbnr/pppppppp/8/8/8/8/PPPPPPPP/RNBQKBNR"
  {
    LowerRows();
    UpperList();
    JoinFirst("rnbqkbnr", ["pppppppp", "8", "8", "8", "8", "PPPPPPPP", "RNBQKBNR"], '/');
    UpperText();
    hide Join, STANDARD_ROWS;
  }

  /** The preset text of a new game. */
  lemma StandardText()
    ensures STANDARD_FEN == "rnbqkbnr/pppppppp/8/8/8/8/PPPPPPPP/RNBQKBNR w KQkq - 0 1"
  {
    var rows := "rnbqkbnr/pppppppp/8/8/8/8/PPPPPPPP/RNBQKBNR";
    StandardRows();
    JoinOfSix(rows, "w", "KQkq", "-", "0", "1");
    hide Join;
    assert Spaced(rows, "w", "KQkq", "-", "0", "1") == rows + " w KQkq - 0 1";
  }

  lemma {:induction false} PartsBySeparators(s: string, sep: char)
    ensures |Split(s, sep)| == multiset(s)[sep] + 1
  {
    if s != "" {
      PartsBySeparators(s[1..], sep);
      assert s == [s[0]] + s[1..];
    }
  }

  /** A text that is read has exactly five blanks. */
  lemma FiveBlanks(fen: string)
    requires Decode(fen).Ok?
    ensures multiset(fen)[' '] == 5
  {
    PartsBySeparators(fen, ' ');
    hide Split, ParseBoard, ParseCastle, ParseDecimal;
  }

  // ----- What the parsers let through ---------------------------------------------------------------------

  /** Rights may come in any order of sides, white's before black's, and once both sides are allowed letters repeat. */
  lemma RightsAccepted()
    ensures ParseCastle("-") == Ok(Rights(NoSide, NoSide))
    ensures ParseCastle("QK") == Ok(Rights(BothSides, NoSide)) && ParseCastle("q") == Ok(Rights(NoSide, QueenSide))
    ensures ParseCastle("KQK") == Ok(Rights(BothSides, NoSide)) && ParseCastle("KK") == Fail
    ensures ParseCastle("kQ") == Fail && ParseCastle("x") == Fail && ParseCastle("") == Ok(Rights(NoSide, NoSide))
  {
  }

  /** Boards may be short, separators doubled and the digit nine used; rows may not overrun a separator. */
  lemma BoardsAccepted()
    ensures ParseBoard("") == Ok([]) && ParseBoard("/") == Ok([])
    ensures ParseBoard("9").Ok? && |ParseBoard("9").value| == 9
    ensures ParseBoard("8//8").Ok? && |ParseBoard("8//8").value| == 16
    ensures ParseBoard("88") == Fail && ParseBoard("7/8") == Fail && ParseBoard("x") == Fail
  {
    var start := Reading([], true);
    var eight := Reading(Fill(0, 8, None), false);
    assert "8//8" == ['8'] + "//8" && "//8" == ['/'] + "/8" && "/8" == ['/'] + "8" && "8" == ['8'] + "";
    ReadPrefix('8', "//8", start);
    ReadPrefix('/', "/8", eight);
    ReadPrefix('/', "8", eight.(didHaveSeparator := true));
    ReadPrefix('8', "", eight.(didHaveSeparator := true));
    assert ReadChar(start, '8') == Ok(eight) by { assert [] + Fill(0, 8, None) == Fill(0, 8, None); }
    assert "88"[1..] == "8" && "7/8"[1..] == "/8" && "/"[1..] == "" && "9"[1..] == "" && "x"[1..] == "";
    hide Fill;
  }
}
