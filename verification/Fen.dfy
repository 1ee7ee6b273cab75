/** The FEN notation of a board (section 16.1 of the PGN Specification and Implementation Guide, 1994) and
    the coordinate notation of moves: printing and parsing. */
module Fen {
  import opened Boards
  import opened Text
  import opened Moving

  // ----- Pieces -------------------------------------------------------------------------------------

  function KindChar(kind: Kind): char {
    match kind
    case Rook => 'r'
    case Bishop => 'b'
    case Knight => 'n'
    case Queen => 'q'
    case King => 'k'
    case Pawn => 'p'
  }

  function PieceChar(p: Piece): char {
    if p.color.White? then Upper(KindChar(p.kind)) else KindChar(p.kind)
  }

  function ParsePiece(c: char): Result<Piece> {
    var normal := Lower(c);
    var color := if normal == c then Black else White;
    if normal == 'r' then Ok(Piece(Rook, color))
    else if normal == 'b' then Ok(Piece(Bishop, color))
    else if normal == 'n' then Ok(Piece(Knight, color))
    else if normal == 'q' then Ok(Piece(Queen, color))
    else if normal == 'k' then Ok(Piece(King, color))
    else if normal == 'p' then Ok(Piece(Pawn, color))
    else Fail
  }

  lemma PieceRoundTrip(p: Piece)
    ensures ParsePiece(PieceChar(p)) == Ok(p)
    ensures PieceChar(p) != '0' && !IsDigit(PieceChar(p)) && PieceChar(p) != '/' && PieceChar(p) != ' '
  {
  }

  // ----- Rows: runs of empty squares ------------------------------------------------------------------

  /** One character per square, '0' for an empty one. */
  function SquareChar(piece: Option<Piece>): char {
    if piece.Some? then PieceChar(piece.value) else '0'
  }

  function Chars(ps: seq<Position>): (s: string)
    ensures |s| == |ps|
  {
    seq(|ps|, i requires 0 <= i < |ps| => SquareChar(ps[i].piece))
  }

  /** The number of zeros a string starts with. */
  function ZeroRun(s: string): (n: nat)
    ensures n <= |s| && (forall i | 0 <= i < n :: s[i] == '0') && (n < |s| ==> s[n] != '0')
  {
    if s == "" || s[0] != '0' then 0 else 1 + ZeroRun(s[1..])
  }

  /** One pass from left to right: each run of at least `least` zeros is written as its length. */
  function CodeRuns(s: string, least: nat): string
    requires |s| <= 8
  {
    if s == "" then ""
    else
      var n := ZeroRun(s);
      if n == 0 then [s[0]] + CodeRuns(s[1..], least)
      else (if n >= least then [Digit(n)] else s[..n]) + CodeRuns(s[n..], least)
  }

  /** Run-length coding of the empty squares of a row. */
  function RunLength(s: string): string
    requires |s| <= 8
  {
    CodeRuns(s, 1)
  }

  lemma {:induction false} NoLongRuns(s: string)
    requires |s| <= 8
    ensures CodeRuns(s, 9) == s
  {
    if s != "" {
      var n := ZeroRun(s);
      if n == 0 { NoLongRuns(s[1..]); } else { NoLongRuns(s[n..]); }
    }
  }

  lemma ReplaceSkips(c: char, rest: string, i: nat, text: string)
    requires c != '0' && 1 <= i
    ensures ReplaceAll([c] + rest, Repeat('0', i), text) == [c] + ReplaceAll(rest, Repeat('0', i), text)
  {
    var s := [c] + rest;
    assert |s| >= i ==> s[..i][0] != Repeat('0', i)[0];
    assert s[1..] == rest;
  }

  lemma ReplaceHits(rest: string, i: nat, text: string)
    requires 1 <= i
    ensures ReplaceAll(Repeat('0', i) + rest, Repeat('0', i), text) == text + ReplaceAll(rest, Repeat('0', i), text)
  {
    var s := Repeat('0', i) + rest;
    assert s[..i] == Repeat('0', i) && s[i..] == rest;
  }

  lemma ShortRunSkips(n: nat, rest: string, i: nat, text: string)
    requires 1 <= n < i && (rest == "" || rest[0] != '0')
    ensures ReplaceAll(Repeat('0', n) + rest, Repeat('0', i), text)
              == ['0'] + ReplaceAll(Repeat('0', n - 1) + rest, Repeat('0', i), text)
  {
    var s := Repeat('0', n) + rest;
    assert |s| >= i ==> s[..i][n] == rest[0] != Repeat('0', i)[n];
    assert s[1..] == Repeat('0', n - 1) + rest;
  }

  /** A run shorter than the pattern survives the replacement. */
  lemma {:induction false} ShortRunStays(n: nat, rest: string, i: nat, text: string)
    requires n < i && (rest == "" || rest[0] != '0')
    ensures ReplaceAll(Repeat('0', n) + rest, Repeat('0', i), text)
              == Repeat('0', n) + ReplaceAll(rest, Repeat('0', i), text)
  {
    if n == 0 {
      assert Repeat('0', n) + rest == rest;
    } else {
      ShortRunSkips(n, rest, i, text);
      ShortRunStays(n - 1, rest, i, text);
      hide ReplaceAll;
      var tail := ReplaceAll(rest, Repeat('0', i), text);
      assert Repeat('0', n) + tail == ['0'] + (Repeat('0', n - 1) + tail);
    }
  }

  lemma CodeStartsAlike(s: string, least: nat)
    requires |s| <= 8 && (s == "" || s[0] != '0')
    ensures CodeRuns(s, least) == "" || CodeRuns(s, least)[0] != '0'
  {
  }

  lemma RunOrText(n: nat, rest: string, i: nat, run: string)
    requires 1 <= n <= 8 && 1 <= i <= 8 && run == Repeat('0', n) && (rest == "" || rest[0] != '0')
    ensures ReplaceAll((if n >= i + 1 then [Digit(n)] else run) + rest, Repeat('0', i), [Digit(i)])
              == (if n >= i then [Digit(n)] else run) + ReplaceAll(rest, Repeat('0', i), [Digit(i)])
  {
    if n > i {
      ReplaceSkips(Digit(n), rest, i, [Digit(i)]);
    } else if n == i {
      ReplaceHits(rest, i, [Digit(i)]);
    } else {
      ShortRunStays(n, rest, i, [Digit(i)]);
    }
  }

  /** Replacing the runs of one length takes the coding one length further. */
  lemma {:induction false} ReplaceCodes(s: string, i: nat)
    requires |s| <= 8 && 1 <= i <= 8
    ensures ReplaceAll(CodeRuns(s, i + 1), Repeat('0', i), [Digit(i)]) == CodeRuns(s, i)
  {
    if s != "" {
      var n := ZeroRun(s);
      if n == 0 {
        ReplaceCodes(s[1..], i);
        ReplaceSkips(s[0], CodeRuns(s[1..], i + 1), i, [Digit(i)]);
      } else {
        ReplaceCodes(s[n..], i);
        var rest := CodeRuns(s[n..], i + 1);
        CodeStartsAlike(s[n..], i + 1);
        RunOrText(n, rest, i, s[..n]);
      }
    }
  }

  /** The program's row loop: runs of eight zeros first, single zeros last. */
  method EncodeRow(chars: string) returns (row: string)
    requires |chars| <= 8
    ensures row == RunLength(chars)
  {
    row := chars;
    NoLongRuns(chars);
    for i := 8 downto 0
      invariant row == CodeRuns(chars, i + 1)
    {
      var pattern := Repeat('0', i + 1);
      ReplaceCodes(chars, i + 1);
      row := ReplaceAll(row, pattern, [Digit(i + 1)]);
    }
  }

  // ----- The board ------------------------------------------------------------------------------------

  /** Rows of eight, each run-length coded, with separators between them. */
  function CodeRows(s: string): string {
    if |s| <= 8 then RunLength(s) else RunLength(s[..8]) + "/" + CodeRows(s[8..])
  }

  function Min(m: nat, n: nat): nat { if m < n then m else n }

  lemma Regroup(a: string, b: string, c: string)
    ensures (a + b) + c == a + (b + c)
  {
  }

  lemma {:induction false} JoinAppends(rows: seq<string>, row: string)
    ensures Join(rows + [row], '/') == if rows == [] then row else Join(rows, '/') + "/" + row
  {
    if |rows| > 1 {
      JoinAppends(rows[1..], row);
      assert (rows + [row])[1..] == rows[1..] + [row];
      Regroup(rows[0] + "/", Join(rows[1..], '/'), "/" + row);
    } else if |rows| == 1 {
      assert (rows + [row])[1..] == [row];
    }
  }

  method EncodePositions(positions: seq<Position>) returns (fen: string)
    ensures fen == CodeRows(Chars(positions))
  {
    var base := Chars(positions);
    var rows: seq<string> := [];
    while |base| > 0
      invariant base == "" ==> Join(rows, '/') == CodeRows(Chars(positions))
      invariant base != "" ==>
                  CodeRows(Chars(positions)) == (if rows == [] then "" else Join(rows, '/') + "/") + CodeRows(base)
    {
      var row := EncodeRow(base[..Min(8, |base|)]);
      assert |base| <= 8 ==> base[..|base|] == base;
      JoinAppends(rows, row);
      base := base[Min(8, |base|)..];
      rows := rows + [row];
    }
    fen := Join(rows, '/');
  }

  /** `count` squares from number `index` on, all holding the same. */
  function Fill(index: nat, count: nat, piece: Option<Piece>): (ps: seq<Position>)
    ensures |ps| == count
  {
    seq(count, i requires 0 <= i < count => Square(index + i, piece))
  }

  /** The squares read so far, and whether a separator was the last thing read. */
  datatype Reading = Reading(positions: seq<Position>, didHaveSeparator: bool)

  function ReadChar(r: Reading, c: char): Result<Reading> {
    var index := |r.positions|;
    if c == '/' then
      if index % 8 != 0 then Fail else Ok(Reading(r.positions, true))
    else if index % 8 == 0 && !r.didHaveSeparator then Fail
    else if IsDigit(c) then Ok(Reading(r.positions + Fill(index, DigitValue(c), None), false))
    else
      var piece :- ParsePiece(c);
      Ok(Reading(r.positions + Fill(index, 1, Some(piece)), false))
  }

  function Read(fen: string, r: Reading): Result<Reading> {
    if fen == "" then Ok(r)
    else
      var r' :- ReadChar(r, fen[0]);
      Read(fen[1..], r')
  }

  function ParseBoard(fen: string): Result<seq<Position>> {
    var r :- Read(fen, Reading([], true));
    Ok(r.positions)
  }

  method FillPositions(positions: seq<Position>, index: nat, count: nat, piece: Option<Piece>)
    returns (r: seq<Position>)
    requires index == |positions|
    ensures r == positions + Fill(index, count, piece)
  {
    r := positions;
    for idx := index to index + count
      invariant r == positions + Fill(index, idx - index, piece)
    {
      var col := idx % 8 + 1;
      var row := 7 - idx / 8 + 1;
      var color := if col % 2 == row % 2 then Black else White;
      assert Fill(index, idx - index + 1, piece) == Fill(index, idx - index, piece) + [Square(idx, piece)];
      r := r + [Position(color, row, col, piece)];
    }
  }

  /** The parser's character loop. */
  method ReadBoard(fen: string) returns (result: Result<seq<Position>>)
    ensures result == ParseBoard(fen)
  {
    var positions: seq<Position> := [];
    var index := 0;
    var didHaveSeparator := true;
    for i := 0 to |fen|
      invariant index == |positions|
      invariant Read(fen, Reading([], true)) == Read(fen[i..], Reading(positions, didHaveSeparator))
    {
      var c := fen[i];
      assert fen[i..][1..] == fen[i + 1..];
      if c == '/' {
        if index % 8 != 0 {
          return Fail;
        } else {
          didHaveSeparator := true;
          continue;
        }
      }
      if index % 8 == 0 && c != '/' && !didHaveSeparator {
        return Fail;
      }
      didHaveSeparator := false;
      if !IsDigit(c) {
        var piece := ParsePiece(c);
        if piece.Fail? {
          return Fail;
        }
        positions := FillPositions(positions, index, 1, Some(piece.value));
        index := index + 1;
      } else {
        var num := DigitValue(c);
        positions := FillPositions(positions, index, num, None);
        index := index + num;
      }
    }
    result := Ok(positions);
  }

  // ----- The board, there and back ----------------------------------------------------------------------

  /** Squares numbered from `index` on. */
  ghost predicate NumberedFrom(ps: seq<Position>, index: nat) {
    forall i | 0 <= i < |ps| :: ps[i] == Square(index + i, ps[i].piece)
  }

  lemma ReadPrefix(c: char, rest: string, r: Reading)
    ensures Read([c] + rest, r) == if ReadChar(r, c).Fail? then Fail else Read(rest, ReadChar(r, c).value)
  {
    assert ([c] + rest)[1..] == rest;
  }

  /** There is room for `more` squares in the row, and a separator where a row starts. */
  predicate HasRoom(r: Reading, more: nat) {
    |r.positions| % 8 + more <= 8 && (more > 0 && |r.positions| % 8 == 0 ==> r.didHaveSeparator)
  }

  lemma RoomAfter(r: Reading, more: seq<Position>, k: nat)
    requires HasRoom(r, |more|) && 1 <= k <= |more|
    ensures HasRoom(Reading(r.positions + more[..k], false), |more| - k)
  {
  }

  lemma CodeHead(s: string)
    requires 0 < |s| <= 8
    ensures var n := ZeroRun(s);
            var k := if n == 0 then 1 else n;
            RunLength(s) == [if n == 0 then s[0] else Digit(n)] + RunLength(s[k..])
  {
  }

  lemma Rejoin(ps: seq<Position>, qs: seq<Position>, k: nat)
    requires k <= |qs|
    ensures (ps + qs[..k]) + qs[k..] == ps + qs
  {
  }

  lemma CharsParts(qs: seq<Position>, k: nat)
    requires k <= |qs|
    ensures Chars(qs[..k]) == Chars(qs)[..k] && Chars(qs[k..]) == Chars(qs)[k..]
  {
  }

  lemma NumberedParts(qs: seq<Position>, index: nat, k: nat)
    requires k <= |qs| && NumberedFrom(qs, index)
    ensures NumberedFrom(qs[..k], index) && NumberedFrom(qs[k..], index + k)
  {
    hide Square;
  }

  /** How many squares the first character of a row's coding stands for. */
  function FirstCode(qs: seq<Position>): (k: nat)
    requires 0 < |qs| <= 8
    ensures 1 <= k <= |qs|
  {
    var n := ZeroRun(Chars(qs));
    if n == 0 then 1 else n
  }

  lemma ReadRowStart(qs: seq<Position>, n: nat, r: Reading)
    requires 0 < |qs| <= 8 && HasRoom(r, |qs|) && NumberedFrom(qs, |r.positions|)
    requires n == ZeroRun(Chars(qs))
    ensures ReadChar(r, if n == 0 then Chars(qs)[0] else Digit(n))
              == Ok(Reading(r.positions + qs[..if n == 0 then 1 else n], false))
  {
    var index := |r.positions|;
    if n == 0 {
      assert Chars(qs)[0] != '0';
      PieceRoundTrip(qs[0].piece.value);
      assert qs[..1] == Fill(index, 1, qs[0].piece);
    } else {
      forall i | 0 <= i < n ensures qs[i].piece == None {
        assert Chars(qs)[i] == '0';
        if qs[i].piece.Some? { PieceRoundTrip(qs[i].piece.value); }
      }
      assert qs[..n] == Fill(index, n, None);
    }
  }

  lemma ReadFirst(qs: seq<Position>, rest: string, r: Reading)
    requires 0 < |qs| <= 8 && HasRoom(r, |qs|) && NumberedFrom(qs, |r.positions|)
    ensures Read(RunLength(Chars(qs)) + rest, r)
              == Read(RunLength(Chars(qs[FirstCode(qs)..])) + rest, Reading(r.positions + qs[..FirstCode(qs)], false))
  {
    var s := Chars(qs);
    var n := ZeroRun(s);
    var k := FirstCode(qs);
    var c := if n == 0 then s[0] else Digit(n);
    assert k == if n == 0 then 1 else n;
    hide *;
    CodeHead(s);
    ReadRowStart(qs, n, r);
    CharsParts(qs, k);
    Regroup([c], RunLength(s[k..]), rest);
    ReadPrefix(c, RunLength(s[k..]) + rest, r);
  }

  lemma ReadNothing(qs: seq<Position>, rest: string, r: Reading)
    requires |qs| == 0
    ensures RunLength(Chars(qs)) + rest == rest && r.positions + qs == r.positions
  {
  }

  /** Reading back the coding of (the rest of) one row adds exactly its squares. */
  lemma {:induction false} ReadRow(qs: seq<Position>, rest: string, r: Reading)
    requires |qs| <= 8 && HasRoom(r, |qs|) && NumberedFrom(qs, |r.positions|)
    ensures Read(RunLength(Chars(qs)) + rest, r)
              == Read(rest, Reading(r.positions + qs, |qs| == 0 && r.didHaveSeparator))
  {
    hide *;
    if |qs| == 0 {
      ReadNothing(qs, rest, r);
    } else {
      var k := FirstCode(qs);
      ReadFirst(qs, rest, r);
      RoomAfter(r, qs, k);
      NumberedParts(qs, |r.positions|, k);
      Rejoin(r.positions, qs, k);
      ReadRow(qs[k..], rest, Reading(r.positions + qs[..k], false));
    }
  }

  lemma RowsSplit(qs: seq<Position>)
    requires |qs| > 8
    ensures CodeRows(Chars(qs)) == RunLength(Chars(qs[..8])) + "/" + CodeRows(Chars(qs[8..]))
  {
    CharsParts(qs, 8);
    hide Chars, RunLength;
  }

  lemma RoomAtStart(ps: seq<Position>)
    requires |ps| % 8 == 0
    ensures HasRoom(Reading(ps, true), 8)
  {
  }

  lemma ReadSeparator(rest: string, ps: seq<Position>)
    requires |ps| % 8 == 0
    ensures Read(['/'] + rest, Reading(ps, false)) == Read(rest, Reading(ps, true))
  {
    ReadPrefix('/', rest, Reading(ps, false));
  }

  lemma ReadRowThen(qs: seq<Position>, ps: seq<Position>)
    requires |qs| > 8 && |ps| % 8 == 0 && NumberedFrom(qs, |ps|)
    ensures Read(CodeRows(Chars(qs)), Reading(ps, true)) == Read(CodeRows(Chars(qs[8..])), Reading(ps + qs[..8], true))
  {
    hide *;
    var row := qs[..8];
    var rest := CodeRows(Chars(qs[8..]));
    RowsSplit(qs);
    NumberedParts(qs, |ps|, 8);
    RoomAtStart(ps);
    Regroup(RunLength(Chars(row)), "/", rest);
    ReadRow(row, ['/'] + rest, Reading(ps, true));
    ReadSeparator(rest, ps + row);
  }

  lemma LastRow(qs: seq<Position>, ps: seq<Position>)
    requires |qs| <= 8 && |ps| % 8 == 0
    ensures CodeRows(Chars(qs)) == RunLength(Chars(qs)) + "" && HasRoom(Reading(ps, true), |qs|)
    ensures forall r :: Read("", r) == Ok(r)
  {
    hide Chars, RunLength;
  }

  /** The parser inverts the joined rows, for any number of squares numbered from a row's start. */
  lemma {:induction false} ReadRows(qs: seq<Position>, ps: seq<Position>)
    requires |ps| % 8 == 0 && NumberedFrom(qs, |ps|)
    ensures var r := Read(CodeRows(Chars(qs)), Reading(ps, true));
            r.Ok? && r.value.positions == ps + qs
  {
    hide *;
    if |qs| <= 8 {
      LastRow(qs, ps);
      ReadRow(qs, "", Reading(ps, true));
    } else {
      ReadRowThen(qs, ps);
      NumberedParts(qs, |ps|, 8);
      Rejoin(ps, qs, 8);
      ReadRows(qs[8..], ps + qs[..8]);
    }
  }

  lemma BoardRoundTrip(ps: seq<Position>)
    requires WellFormed(ps)
    ensures ParseBoard(CodeRows(Chars(ps))) == Ok(ps)
  {
    ReadRows(ps, []);
    assert [] + ps == ps;
  }

  // ----- Colour, castling rights, en passant square -----------------------------------------------------

  function ColorText(color: Color): string { if color.White? then "w" else "b" }

  function ParseColor(fen: string): Result<Color> {
    if fen == "w" then Ok(White) else if fen == "b" then Ok(Black) else Fail
  }

  function CastleRightsText(right: CastleRights): string {
    match right
    case QueenSide => "q"
    case KingSide => "k"
    case BothSides => "kq"
    case NoSide => "-"
  }

  function UpperAll(s: string): string { seq(|s|, i requires 0 <= i < |s| => Upper(s[i])) }

  function RightLetters(color: Color, right: CastleRights): string {
    match right
    case QueenSide => if color.White? then "Q" else "q"
    case KingSide => if color.White? then "K" else "k"
    case BothSides => if color.White? then "KQ" else "kq"
    case NoSide => ""
  }

  /** White's rights in capitals, then black's; a single dash when there are none. */
  function CastleText(castle: Rights): string {
    if castle.white == NoSide && castle.black == NoSide then "-"
    else RightLetters(White, castle.white) + RightLetters(Black, castle.black)
  }

  lemma UpperRights(right: CastleRights)
    ensures UpperAll(CastleRightsText(right)) == if right == NoSide then "-" else RightLetters(White, right)
  {
  }

  function Undashed(s: string): string {
    if s == "" then "" else (if s[0] == '-' then "" else [s[0]]) + Undashed(s[1..])
  }

  lemma UndashedShort(s: string)
    requires |s| <= 2
    ensures s == "-" ==> Undashed(s) == ""
    ensures '-' !in s ==> Undashed(s) == s
  {
    if |s| == 2 {
      assert s[1..][1..] == "";
      assert s == [s[0]] + [s[1]];
    }
  }

  lemma UndashedRights(color: Color, right: CastleRights)
    ensures Undashed(if right == NoSide then "-" else RightLetters(color, right)) == RightLetters(color, right)
  {
    UndashedShort(if right == NoSide then "-" else RightLetters(color, right));
  }

  lemma {:induction false} DropDashes(s: string)
    ensures ReplaceAll(s, "-", "") == Undashed(s)
  {
    if s != "" {
      DropDashes(s[1..]);
      assert s[..1] == [s[0]];
    }
  }

  lemma {:induction false} UndashedJoins(s: string, t: string)
    ensures Undashed(s + t) == Undashed(s) + Undashed(t)
  {
    if s == "" {
      assert s + t == t;
    } else {
      UndashedJoins(s[1..], t);
      assert (s + t)[1..] == s[1..] + t;
      Regroup(if s[0] == '-' then "" else [s[0]], Undashed(s[1..]), Undashed(t));
    }
  }

  lemma CastleTextJoins(castle: Rights)
    requires castle.white != NoSide || castle.black != NoSide
    ensures ReplaceAll(UpperAll(CastleRightsText(castle.white)) + CastleRightsText(castle.black), "-", "")
              == CastleText(castle)
  {
    var (w, b) := (UpperAll(CastleRightsText(castle.white)), CastleRightsText(castle.black));
    UpperRights(castle.white);
    assert b == if castle.black == NoSide then "-" else RightLetters(Black, castle.black);
    UndashedRights(White, castle.white);
    UndashedRights(Black, castle.black);
    hide ReplaceAll, Undashed, UpperAll, CastleRightsText, RightLetters;
    DropDashes(w + b);
    UndashedJoins(w, b);
  }

  method EncodeCastle(castle: Rights) returns (fen: string)
    ensures fen == CastleText(castle)
  {
    if castle.white == NoSide && castle.black == NoSide {
      return "-";
    }
    fen := "";
    fen := fen + UpperAll(CastleRightsText(castle.white));
    fen := fen + CastleRightsText(castle.black);
    assert fen == UpperAll(CastleRightsText(castle.white)) + CastleRightsText(castle.black);
    CastleTextJoins(castle);
    fen := ReplaceAll(fen, "-", "");
  }

  /** What the castling parser has read so far. */
  datatype CastleReading = CastleReading(castle: Rights, didParseBlack: bool)

  function ReadRight(r: CastleReading, c: char): Result<CastleReading> {
    var normal := Lower(c);
    var color := if c == normal then Black else White;
    var right := r.castle.Of(color);
    if normal != 'q' && normal != 'k' then Fail
    else if color == White && r.didParseBlack then Fail
    else if normal == 'q' && right == QueenSide then Fail
    else if normal == 'k' && right == KingSide then Fail
    else
      var more := if right == NoSide then (if normal == 'q' then QueenSide else KingSide) else BothSides;
      Ok(CastleReading(r.castle.With(color, more), r.didParseBlack || color == Black))
  }

  function ReadRights(fen: string, r: CastleReading): Result<CastleReading> {
    if fen == "" then Ok(r)
    else
      var r' :- ReadRight(r, fen[0]);
      ReadRights(fen[1..], r')
  }

  function ParseCastle(fen: string): Result<Rights> {
    if fen == "-" then Ok(Rights(NoSide, NoSide))
    else
      var r :- ReadRights(fen, CastleReading(Rights(NoSide, NoSide), false));
      Ok(r.castle)
  }

  /** The castling parser's character loop. */
  method ReadCastle(fen: string) returns (result: Result<Rights>)
    ensures result == ParseCastle(fen)
  {
    var castle := Rights(NoSide, NoSide);
    if fen == "-" {
      return Ok(castle);
    }
    var didParseBlack := false;
    for i := 0 to |fen|
      invariant ReadRights(fen, CastleReading(Rights(NoSide, NoSide), false))
                  == ReadRights(fen[i..], CastleReading(castle, didParseBlack))
    {
      assert fen[i..][1..] == fen[i + 1..];
      var normal := Lower(fen[i]);
      var color := if fen[i] == normal then Black else White;
      if normal != 'q' && normal != 'k' {
        return Fail;
      }
      if color == Black {
        didParseBlack := true;
      }
      if color == White && didParseBlack {
        return Fail;
      }
      if normal == 'q' && castle.Of(color) == QueenSide {
        return Fail;
      } else if normal == 'k' && castle.Of(color) == KingSide {
        return Fail;
      } else if normal == 'q' && castle.Of(color) == NoSide {
        castle := castle.With(color, QueenSide);
      } else if normal == 'k' && castle.Of(color) == NoSide {
        castle := castle.With(color, KingSide);
      } else {
        castle := castle.With(color, BothSides);
      }
    }
    result := Ok(castle);
  }

  lemma ReadRightPrefix(c: char, rest: string, r: CastleReading)
    ensures ReadRights([c] + rest, r) == if ReadRight(r, c).Fail? then Fail else ReadRights(rest, ReadRight(r, c).value)
  {
    assert ([c] + rest)[1..] == rest;
  }

  /** One colour's letters, read back. */
  lemma ReadColorRights(color: Color, right: CastleRights, rest: string, r: CastleReading)
    requires r.castle.Of(color) == NoSide && (color == White ==> !r.didParseBlack)
    ensures ReadRights(RightLetters(color, right) + rest, r)
              == ReadRights(rest, CastleReading(r.castle.With(color, right),
                                                r.didParseBlack || (color == Black && right != NoSide)))
  {
    var text := RightLetters(color, right);
    match right {
      case NoSide =>
        assert text + rest == rest;
        assert r.castle.With(color, NoSide) == r.castle;
      case BothSides =>
        assert text + rest == [text[0]] + ([text[1]] + rest);
        ReadRightPrefix(text[0], [text[1]] + rest, r);
        ReadRightPrefix(text[1], rest, ReadRight(r, text[0]).value);
      case _ =>
        assert text + rest == [text[0]] + rest;
        ReadRightPrefix(text[0], rest, r);
    }
  }

  lemma CastleRoundTrip(castle: Rights)
    ensures ParseCastle(CastleText(castle)) == Ok(castle)
  {
    if castle != Rights(NoSide, NoSide) {
      var black := RightLetters(Black, castle.black);
      ReadColorRights(White, castle.white, black, CastleReading(Rights(NoSide, NoSide), false));
      ReadColorRights(Black, castle.black, "", CastleReading(Rights(castle.white, NoSide), false));
      assert black + "" == black;
      assert CastleText(castle) != "-";
    }
  }

  /** A square as file letter and rank digit; -1, the index of a null move, is no square and prints as "`9". */
  function SquareText(i: int): string
    requires -1 <= i < 64
  {
    var file := if i < 0 then -1 else i % 8;
    var row := if i < 0 then -1 else i / 8;
    [(97 + file) as char, Digit(8 - row)]
  }

  function ParseTarget(s: string): Result<int> {
    if |s| == 2 && 'a' <= s[0] <= 'h' && '1' <= s[1] <= '8' then
      Ok((7 - (DigitValue(s[1]) - 1)) * 8 + (s[0] as int - 'a' as int))
    else Fail
  }

  lemma TargetRoundTrip(i: int)
    requires OnBoard(i)
    ensures ParseTarget(SquareText(i)) == Ok(i)
  {
  }

  lemma TargetIsSquareText(s: string)
    requires ParseTarget(s).Ok?
    ensures OnBoard(ParseTarget(s).value) && SquareText(ParseTarget(s).value) == s
  {
  }

  // ----- The whole board --------------------------------------------------------------------------------

  function EnPassantText(enPassant: Option<int>): string
    requires enPassant.Some? ==> OnBoard(enPassant.value)
  {
    if enPassant.None? then "-" else SquareText(enPassant.value)
  }

  predicate Encodable(b: BoardState) {
    WellFormed(b.positions) && (b.enPassant.Some? ==> OnBoard(b.enPassant.value))
  }

  function Components(b: BoardState): (parts: seq<string>)
    requires Encodable(b)
  {
    [CodeRows(Chars(b.positions)), ColorText(b.next), CastleText(b.castle), EnPassantText(b.enPassant),
     ToDecimal(b.halfMoves), ToDecimal(b.fullMoves)]
  }

  function Encode(b: BoardState): string
    requires Encodable(b)
  {
    Join(Components(b), ' ')
  }

  function ParseEnPassant(fen: string): Result<Option<int>> {
    if fen == "-" then Ok(None)
    else
      var i :- ParseTarget(fen);
      Ok(Some(i))
  }

  function Decode(fen: string): Result<BoardState> {
    var components := Split(fen, ' ');
    if |components| != 6 then Fail
    else
      var positions :- ParseBoard(components[0]);
      var next :- ParseColor(components[1]);
      var castle :- ParseCastle(components[2]);
      var enPassant :- ParseEnPassant(components[3]);
      var halfMoves :- ParseDecimal(components[4]);
      var fullMoves :- ParseDecimal(components[5]);
      Ok(BoardState(positions, next, castle, enPassant, halfMoves, fullMoves))
  }

  lemma SlicesPlain(s: string, k: nat)
    requires ' ' !in s && k <= |s|
    ensures ' ' !in s[..k] && ' ' !in s[k..]
  {
  }

  lemma {:induction false} CodeRunsPlain(s: string)
    requires |s| <= 8 && ' ' !in s
    ensures ' ' !in RunLength(s)
  {
    if s != "" {
      var n := ZeroRun(s);
      var k := if n == 0 then 1 else n;
      SlicesPlain(s, k);
      CodeRunsPlain(s[k..]);
    }
  }

  lemma {:induction false} CodeRowsPlain(s: string)
    requires ' ' !in s
    ensures ' ' !in CodeRows(s)
  {
    if |s| <= 8 {
      CodeRunsPlain(s);
    } else {
      SlicesPlain(s, 8);
      CodeRunsPlain(s[..8]);
      CodeRowsPlain(s[8..]);
      hide RunLength;
    }
  }

  lemma CharsPlain(ps: seq<Position>)
    ensures ' ' !in Chars(ps)
  {
    forall i | 0 <= i < |ps| ensures Chars(ps)[i] != ' ' {
      if ps[i].piece.Some? { PieceRoundTrip(ps[i].piece.value); }
    }
  }

  lemma ComponentsPlain(b: BoardState)
    requires Encodable(b)
    ensures ' ' !in CodeRows(Chars(b.positions)) && ' ' !in ColorText(b.next) && ' ' !in CastleText(b.castle)
    ensures ' ' !in EnPassantText(b.enPassant) && ' ' !in ToDecimal(b.halfMoves) && ' ' !in ToDecimal(b.fullMoves)
  {
    CharsPlain(b.positions);
    CodeRowsPlain(Chars(b.positions));
  }

  lemma EnPassantRoundTrip(enPassant: Option<int>)
    requires enPassant.Some? ==> OnBoard(enPassant.value)
    ensures ParseEnPassant(EnPassantText(enPassant)) == Ok(enPassant)
  {
    if enPassant.Some? {
      TargetRoundTrip(enPassant.value);
    }
  }

  lemma DecodeOfComponents(fen: string, parts: seq<string>, b: BoardState)
    requires Split(fen, ' ') == parts && |parts| == 6
    requires ParseBoard(parts[0]) == Ok(b.positions) && ParseColor(parts[1]) == Ok(b.next)
    requires ParseCastle(parts[2]) == Ok(b.castle) && ParseEnPassant(parts[3]) == Ok(b.enPassant)
    requires ParseDecimal(parts[4]) == Ok(b.halfMoves) && ParseDecimal(parts[5]) == Ok(b.fullMoves)
    ensures Decode(fen) == Ok(b)
  {
    hide Split, ParseBoard, ParseColor, ParseCastle, ParseEnPassant, ParseDecimal;
  }

  lemma PlainComponents(b: BoardState)
    requires Encodable(b)
    ensures Split(Encode(b), ' ') == Components(b)
  {
    ComponentsPlain(b);
    hide CodeRows, Chars, CastleText, EnPassantText, ToDecimal, ColorText, Join, Split, WellFormed;
    SplitJoin(Components(b), ' ');
  }

  lemma ColorRoundTrip(color: Color)
    ensures ParseColor(ColorText(color)) == Ok(color)
  {
  }

  /** Printing a board and reading it back gives the same board. */
  lemma FenRoundTrip(b: BoardState)
    requires Encodable(b)
    ensures Decode(Encode(b)) == Ok(b)
  {
    PlainComponents(b);
    BoardRoundTrip(b.positions);
    ColorRoundTrip(b.next);
    CastleRoundTrip(b.castle);
    EnPassantRoundTrip(b.enPassant);
    DecimalRoundTrip(b.halfMoves);
    DecimalRoundTrip(b.fullMoves);
    hide Encode, Decode, Split, CodeRows, Chars, ColorText, CastleText, EnPassantText, ToDecimal;
    hide ParseBoard, ParseColor, ParseCastle, ParseEnPassant, ParseDecimal;
    DecodeOfComponents(Encode(b), Components(b), b);
  }

  /** Boards with different notations are different boards, and the other way around. */
  lemma EncodeIsInjective(b: BoardState, c: BoardState)
    requires Encodable(b) && Encodable(c) && Encode(b) == Encode(c)
    ensures b == c
  {
    FenRoundTrip(b);
    FenRoundTrip(c);
  }

  // ----- Moves ------------------------------------------------------------------------------------------

  const NULL_MOVE := Move(-1, -1, None)

  function ParseSquares(code: string): Result<(int, int)> {
    if |code| != 4 then Fail
    else if code == "0000" then Ok((-1, -1))
    else
      var source :- ParseTarget(code[..2]);
      var target :- ParseTarget(code[2..]);
      Ok((source, target))
  }

  function ParseMove(code: string): Result<Move> {
    if |code| == 5 then
      var squares :- ParseSquares(code[..4]);
      var piece :- ParsePiece(code[4]);
      if squares == (-1, -1) then Ok(NULL_MOVE) else Ok(Move(squares.0, squares.1, Some(piece)))
    else
      var squares :- ParseSquares(code);
      if squares == (-1, -1) then Ok(NULL_MOVE) else Ok(Move(squares.0, squares.1, None))
  }

  function EncodeMove(m: Move): string
    requires -1 <= m.source < 64 && -1 <= m.target < 64
  {
    SquareText(m.source) + SquareText(m.target) + if m.promotion.Some? then [PieceChar(m.promotion.value)] else ""
  }

  /** A printed move reads back as itself. */
  lemma MoveRoundTrip(m: Move)
    requires OnBoard(m.source) && OnBoard(m.target)
    ensures ParseMove(EncodeMove(m)) == Ok(m)
  {
    TargetRoundTrip(m.source);
    TargetRoundTrip(m.target);
    var code := EncodeMove(m);
    assert code[..2] == SquareText(m.source) && code[2..4] == SquareText(m.target);
    assert code[..4][..2] == code[..2] && code[..4][2..] == code[2..4];
    assert |code| == 4 ==> code[2..] == code[2..4];
    assert code != "0000" && code[..4] != "0000" by { assert code[0] != '0'; }
    if m.promotion.Some? {
      PieceRoundTrip(m.promotion.value);
    }
  }

  /** A read move is either the null move or on the board. */
  lemma ParsedMoves(code: string)
    requires ParseMove(code).Ok?
    ensures var m := ParseMove(code).value;
            m == NULL_MOVE || (OnBoard(m.source) && OnBoard(m.target))
  {
  }

  /** The null move prints as something no move is read from. */
  lemma NullMoveIsUnreadable()
    ensures ParseMove(EncodeMove(NULL_MOVE)).Fail?
  {
    var code := EncodeMove(NULL_MOVE);
    assert code[0] == '`' && |code| == 4;
  }

  // ----- The placement hash -----------------------------------------------------------------------------

  function HashChar(piece: Option<Piece>): char {
    if piece.None? then '0'
    else if piece.value.color.Black? then Upper(KindChar(piece.value.kind))
    else KindChar(piece.value.kind)
  }

  /** 64 characters naming the piece on every square, and nothing else of the board. */
  function Hash(ps: seq<Position>): (h: string)
    ensures |h| == |ps|
  {
    seq(|ps|, i requires 0 <= i < |ps| => HashChar(ps[i].piece))
  }

  lemma HashCharIsInjective(p: Option<Piece>, q: Option<Piece>)
    requires HashChar(p) == HashChar(q)
    ensures p == q
  {
  }

  /** Two boards have the same hash exactly when the same pieces stand on the same squares. */
  lemma HashIsPlacement(ps: seq<Position>, qs: seq<Position>)
    requires WellFormed(ps) && WellFormed(qs)
    ensures Hash(ps) == Hash(qs) <==> ps == qs
  {
    if Hash(ps) == Hash(qs) {
      forall i | 0 <= i < 64 ensures ps[i] == qs[i] {
        assert Hash(ps)[i] == Hash(qs)[i];
        HashCharIsInjective(ps[i].piece, qs[i].piece);
      }
    }
  }
}
