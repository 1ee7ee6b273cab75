/** The standard starting position. */
module Start {
  import opened Boards
  import opened Rules
  import opened Text
  import opened Accounting
  import opened KingSafety
  import opened Fen
  import opened Games

  const BACK_RANK := [Rook, Knight, Bishop, Queen, King, Bishop, Knight, Rook]

  function StartPiece(i: int): Option<Piece>
    requires OnBoard(i)
  {
    if i < 8 then Some(Piece(BACK_RANK[i], Black))
    else if i < 16 then Some(Piece(Pawn, Black))
    else if i < 48 then None
    else if i < 56 then Some(Piece(Pawn, White))
    else Some(Piece(BACK_RANK[i - 56], White))
  }

  function StartSquares(): (ps: seq<Position>)
    ensures WellFormed(ps) && forall i | 0 <= i < 64 :: ps[i].piece == StartPiece(i)
  {
    seq(64, i requires 0 <= i < 64 => Square(i, StartPiece(i)))
  }

  function StartBoard(): (b: BoardState)
    ensures Encodable(b) && b.positions == StartSquares() && b.next == White && b.enPassant == None
    ensures b.castle == Rights(BothSides, BothSides) && b.halfMoves == 0 && b.fullMoves == 1
  {
    BoardState(StartSquares(), White, Rights(BothSides, BothSides), None, 0, 1)
  }

  /** One row of the starting position, as characters and as coded. */
  lemma CodeFirstRow(qs: seq<Position>, row: string, rows: seq<string>)
    requires |qs| > 8 && RunLength(Chars(qs[..8])) == row
    requires rows != [] && CodeRows(Chars(qs[8..])) == Join(rows, '/')
    ensures CodeRows(Chars(qs)) == Join([row] + rows, '/')
  {
    CharsParts(qs, 8);
    assert ([row] + rows)[1..] == rows;
  }

  lemma {:induction false} FullRow(row: string)
    requires |row| <= 8 && '0' !in row
    ensures RunLength(row) == row
  {
    if row != "" {
      FullRow(row[1..]);
    }
  }

  lemma EmptyRow(row: string)
    requires |row| == 8 && forall i | 0 <= i < 8 :: row[i] == '0'
    ensures RunLength(row) == "8"
  {
    assert ZeroRun(row) == 8;
    assert CodeRuns(row[8..], 1) == "";
    assert RunLength(row) == [Digit(8)] + CodeRuns(row[8..], 1);
  }

  lemma StartRow(y: int, row: string)
    requires 0 <= y < 8 && |row| == 8
    requires forall x | 0 <= x < 8 :: row[x] == SquareChar(StartPiece(8 * y + x))
    ensures Chars(StartSquares()[8 * y..][..8]) == row
  {
    forall x | 0 <= x < 8 ensures Chars(StartSquares()[8 * y..][..8])[x] == row[x] {
      assert StartSquares()[8 * y..][..8][x] == StartSquares()[8 * y + x];
    }
  }

  /** The characters of one row of the starting position. */
  lemma StartRowChars(y: int, x: int)
    requires 0 <= y < 8 && 0 <= x < 8
    ensures SquareChar(StartPiece(8 * y + x)) == if y in {2, 3, 4, 5} then '0' else STANDARD_ROWS[y][x]
    ensures y in {0, 1, 6, 7} ==> STANDARD_ROWS[y][x] != '0'
  {
  }

  lemma StartRowCoded(y: int)
    requires 0 <= y < 8
    ensures RunLength(Chars(StartSquares()[8 * y..][..8])) == STANDARD_ROWS[y]
  {
    var row := if y in {2, 3, 4, 5} then "00000000" else STANDARD_ROWS[y];
    assert |row| == 8;
    hide StartSquares, StartPiece, SquareChar, RunLength;
    forall x | 0 <= x < 8 ensures row[x] == SquareChar(StartPiece(8 * y + x)) {
      StartRowChars(y, x);
    }
    StartRow(y, row);
    if y in {2, 3, 4, 5} {
      EmptyRow(row);
    } else {
      forall x | 0 <= x < 8 ensures row[x] != '0' {
        StartRowChars(y, x);
      }
      FullRow(row);
    }
  }

  lemma {:induction false} StartCode(y: int)
    requires 0 <= y < 8
    ensures CodeRows(Chars(StartSquares()[8 * y..])) == Join(STANDARD_ROWS[y..], '/')
    decreases 8 - y
  {
    var qs := StartSquares()[8 * y..];
    StartRowCoded(y);
    if y == 7 {
      assert qs[..8] == qs && STANDARD_ROWS[y..] == [STANDARD_ROWS[7]];
    } else {
      StartCode(y + 1);
      assert qs[8..] == StartSquares()[8 * (y + 1)..];
      assert STANDARD_ROWS[y..] == [STANDARD_ROWS[y]] + STANDARD_ROWS[y + 1..];
      CodeFirstRow(qs, STANDARD_ROWS[y], STANDARD_ROWS[y + 1..]);
    }
  }

  lemma StartDetails()
    ensures CastleText(Rights(BothSides, BothSides)) == "KQkq"
    ensures ToDecimal(0) == "0" && ToDecimal(1) == "1"
  {
  }

  /** The preset string of a new game is the notation of the starting position. */
  lemma StandardFen()
    ensures Encode(StartBoard()) == STANDARD_FEN
    ensures Decode(STANDARD_FEN) == Ok(StartBoard())
  {
    StartCode(0);
    assert StartSquares()[8 * 0..] == StartSquares() && STANDARD_ROWS[0..] == STANDARD_ROWS;
    StartDetails();
    FenRoundTrip(StartBoard());
    hide CodeRows, Chars, StartSquares, Decode, Join, CastleText, ToDecimal;
  }

  // ----- Facts about the starting position --------------------------------------------------------------

  lemma StartKings(ps: seq<Position>)
    requires ps == StartSquares()
    ensures IsTheKing(ps, White, 60) && IsTheKing(ps, Black, 4)
  {
    hide StartSquares;
    forall i, color: Color | Holds(ps, i, Piece(King, color)) ensures i == if color.White? then 60 else 4 {
      assert ps[i].piece == StartPiece(i);
    }
  }

  /** A line from white's rows to e8 crosses the seventh rank, which is full of pawns. */
  lemma BeforeLast(s: int)
    requires OnBoard(s) && s / 8 >= 6 && Lined(s, 4)
    ensures 1 <= Dist(s, 4) - 1 < Dist(s, 4) && 8 <= Toward(s, 4, Dist(s, 4) - 1) < 16
  {
  }

  /** White's pieces all stand on the last two rows and none of them leaps or sees far enough. */
  lemma BlackKingUnattacked(ps: seq<Position>)
    requires ps == StartSquares()
    ensures !Attacked(ps, Black, 4)
  {
    hide StartSquares;
    forall s ensures !Attacker(ps, Black, s, 4) {
      if Occupied(ps, s, White) {
        assert ps[s].piece == StartPiece(s);
        assert s / 8 >= 6;
        if Lined(s, 4) {
          BeforeLast(s);
        }
      }
    }
  }

  lemma StartIsSane()
    ensures Sane(StartBoard())
  {
    var ps := StartSquares();
    StartKings(ps);
    BlackKingUnattacked(ps);
    TheKingSquare(ps, Black, 4);
    hide StartSquares, Attacked, IsTheKing;
  }

  /** The sum of Phi over the first `n` squares. */
  function PhiUpTo(n: nat): int {
    if n <= 8 then n
    else if n <= 16 then 8 + 7 * (n - 8)
    else if n <= 48 then 64
    else if n <= 56 then 64 + 7 * (n - 48)
    else 120 + (n - 56)
  }

  lemma {:induction false} PhiOfStart(n: nat)
    requires n <= 64
    ensures Phi(StartSquares()[..n]) == PhiUpTo(n)
  {
    var ps := StartSquares();
    hide StartSquares;
    if n > 0 {
      PhiOfStart(n - 1);
      assert ps[..n][..n - 1] == ps[..n - 1];
      assert ps[..n][n - 1].piece == StartPiece(n - 1);
    }
  }

  lemma StartPotential()
    ensures Phi(StartBoard().positions) == 128
    ensures Potential(StartBoard()) == 12900 && Patience(StartBoard()) == 13028
  {
    PhiOfStart(64);
    assert StartSquares()[..64] == StartSquares();
    hide Phi, StartSquares;
  }

  /** A new standard game, waiting for its players. */
  lemma CreateStandard(id: string, timeout: int, timeback: int)
    ensures Create(id, timeout, timeback, None).Ok?
    ensures var g := Create(id, timeout, timeback, None).value;
            && g.board == StartBoard() && g.status == Waiting && g.history == []
            && g.positionHistory == [Hash(StartBoard().positions)]
            && g.winner == None && g.reason == None && g.players == ColorMap(None, None)
            && g.lastRequest == -1 && g.time == ColorMap(timeout, timeout) && g.timeback == ColorMap(timeback, timeback)
  {
    StandardFen();
    hide StartBoard, Decode, Join, Hash;
  }
}
