/** The first move of each side: white's goes up the board, black's goes down, and no game ends in between. */
module Openings {
  import opened Boards
  import opened Rules
  import opened Text
  import opened Moving
  import opened Castling
  import opened KingSafety
  import opened Fen
  import opened Games
  import opened Start
  import opened Runs

  /** Everything but a pawn or knight on the last two rows is shut in behind its own pieces. */
  lemma ShutIn(s: int, t: int)
    requires OnBoard(s) && OnBoard(t) && s / 8 == 7 && Lined(s, t)
    ensures Dist(s, t) == 1 ==> t / 8 >= 6
    ensures Dist(s, t) > 1 ==> Toward(s, t, 1) / 8 >= 6
  {
  }

  lemma WhiteOpens(ps: seq<Position>, s: int, t: int)
    requires ps == StartSquares() && OnBoard(t) && Occupied(ps, s, White)
    requires CanMove(StartBoard(), s, t)
    ensures 32 <= t < 48 <= s && !ps[s].piece.value.kind.King?
  {
    hide StartSquares, StartBoard;
    assert forall i | OnBoard(i) && i / 8 >= 6 :: Occupied(ps, i, White) && ps[i].piece == StartPiece(i);
    assert s >= 48 by { assert ps[s].piece == StartPiece(s); }
    if Lined(s, t) && s >= 56 {
      ShutIn(s, t);
    }
    hide Attacked;
  }

  /** The board after a first move, as far as black is concerned. */
  ghost predicate IsOpened(b: BoardState) {
    && WellFormed(b.positions) && b.next == Black && b.halfMoves <= 1
    && (forall i | 0 <= i < 32 :: b.positions[i].piece == StartPiece(i))
    && (forall i | 32 <= i < 64 :: !Occupied(b.positions, i, Black))
  }

  lemma OpensBoard(b: BoardState, m: Move)
    requires Performable(b, m) && WellFormed(b.positions) && b.next == White && b.halfMoves == 0 && b.enPassant == None
    requires forall i | 0 <= i < 64 :: b.positions[i].piece == StartPiece(i)
    requires m.promotion.None? && 32 <= m.target < 48 <= m.source && !b.positions[m.source].piece.value.kind.King?
    ensures IsOpened(Perform(b, m))
  {
    PerformIsWellFormed(b, m);
    assert b.positions[m.source].piece == StartPiece(m.source);
    hide WellFormed;
  }

  lemma FirstMove(m: Move)
    requires Accepted(StartBoard(), m)
    ensures m.target < m.source
    ensures Performable(StartBoard(), m) && IsOpened(Perform(StartBoard(), m))
  {
    var b := StartBoard();
    WhiteOpens(b.positions, m.source, m.target);
    StartIsSane();
    AcceptedIsPerformable(b, m);
    assert forall i | 0 <= i < 64 :: b.positions[i].piece == StartPiece(i);
    hide CanMove, StartBoard, StartSquares, Sane, WellFormed, StartPiece, Perform, IsOpened;
    OpensBoard(b, m);
  }

  // ----- Black's answer -----------------------------------------------------------------------------------

  lemma BlackGoesDown(b: BoardState, m: Move)
    requires IsOpened(b) && Accepted(b, m)
    ensures m.source < m.target
  {
    var (s, t) := (m.source, m.target);
    assert s < 16 by {
      if s < 32 { assert b.positions[s].piece == StartPiece(s); }
    }
    if t < 16 {
      assert Occupied(b.positions, t, Black) by { assert b.positions[t].piece == StartPiece(t); }
    }
    forall i | 0 <= i < 16 ensures b.positions[i].piece.Some? {
      assert b.positions[i].piece == StartPiece(i);
    }
    hide Attacked, Clear, WellFormed;
  }

  lemma CrossesPawns(s: int)
    requires OnBoard(s) && s / 8 >= 2 && Lined(s, 4)
    ensures 1 <= Dist(s, 4) - 1 < Dist(s, 4) && 8 <= Toward(s, 4, Dist(s, 4) - 1) < 16
  {
  }

  /** The king behind its pawns is not attacked, wherever black's knight has gone. */
  lemma KingIsCovered(ps: seq<Position>)
    requires |ps| == 64 && forall i | 8 <= i < 16 :: ps[i].piece.Some?
    requires forall i | 0 <= i < 32 :: !Occupied(ps, i, White)
    ensures !Attacked(ps, Black, 4)
  {
    forall s ensures !Attacker(ps, Black, s, 4) {
      if Occupied(ps, s, White) {
        assert s / 8 >= 4;
        if Lined(s, 4) {
          CrossesPawns(s);
        }
      }
    }
  }

  lemma KnightAnswers(b: BoardState)
    requires IsOpened(b)
    ensures Legal(b, 6, 21)
  {
    var ps := b.positions;
    var after := Played(ps, 6, 21);
    assert ps[6].piece == StartPiece(6) && ps[21].piece == StartPiece(21) && ps[4].piece == StartPiece(4);
    forall i | 0 <= i < 32 ensures !Occupied(after, i, White) {
      assert ps[i].piece == StartPiece(i);
    }
    forall i | 8 <= i < 16 ensures after[i].piece.Some? {
      assert ps[i].piece == StartPiece(i);
    }
    assert IsTheKing(after, Black, 4) by {
      forall j | Holds(after, j, Piece(King, Black)) ensures j == 4 {
        assert j < 32 ==> ps[j].piece == StartPiece(j);
        assert j >= 32 ==> !Occupied(ps, j, Black);
      }
    }
    hide StartPiece, Played, WellFormed;
    KingIsCovered(after);
    TheKingSquare(after, Black, 4);
    hide Attacked;
  }

  /** Black still has a rook, and so enough to mate with. */
  lemma RookCanMate(b: BoardState)
    requires IsOpened(b)
    ensures !CannotMate(b.positions, Black)
  {
    assert b.positions[0].piece == StartPiece(0);
    KindAmong(b.positions, Black, 0);
    assert Rook in multiset(Kinds(b.positions, Black));
    hide Kinds;
  }

  /** No game is over after one move. */
  lemma OpeningGoesOn(b: BoardState, positionHistory: seq<string>)
    requires IsOpened(b) && |positionHistory| <= 2
    ensures Verdict(b, positionHistory).None?
  {
    KnightAnswers(b);
    RookCanMate(b);
    var h := Hash(b.positions);
    FewOccurrences(positionHistory, h);
    hide Legal, IsOpened, CannotMate, Hash;
  }

  // ----- A game can be opened -----------------------------------------------------------------------------

  lemma CrossesWhitePawns(s: int)
    requires OnBoard(s) && s / 8 <= 1 && Lined(s, 60)
    ensures 1 <= Dist(s, 60) - 1 < Dist(s, 60) && 48 <= Toward(s, 60, Dist(s, 60) - 1) < 56
  {
  }

  lemma WhiteKingIsCovered(ps: seq<Position>)
    requires |ps| == 64 && forall i | 48 <= i < 56 :: ps[i].piece.Some?
    requires forall i | 16 <= i < 64 :: !Occupied(ps, i, Black)
    ensures !Attacked(ps, White, 60)
  {
    forall s ensures !Attacker(ps, White, s, 60) {
      if Occupied(ps, s, Black) {
        assert s / 8 <= 1;
        if Lined(s, 60) {
          CrossesWhitePawns(s);
        }
      }
    }
  }

  lemma KnightOpens(b: BoardState)
    requires b == StartBoard()
    ensures Legal(b, 62, 45)
  {
    hide StartBoard, StartSquares;
    var ps := b.positions;
    var after := Played(ps, 62, 45);
    assert forall i | 0 <= i < 64 :: ps[i].piece == StartPiece(i);
    assert IsTheKing(after, White, 60);
    assert Leaps(62, 45) && PieceAttacks(ps, Piece(Knight, White), 62, 45) && CanMove(b, 62, 45);
    assert forall i | 16 <= i < 64 :: !Occupied(after, i, Black);
    hide StartPiece, Played;
    WhiteKingIsCovered(after);
    TheKingSquare(after, White, 60);
    hide Attacked, CanMove;
  }

  lemma KnightCode()
    ensures ParseMove("g1f3") == Ok(Move(62, 45, None))
  {
    assert EncodeMove(Move(62, 45, None)) == "g1f3";
    MoveRoundTrip(Move(62, 45, None));
    hide ParseMove;
  }

  lemma KnightIsTaken(b: BoardState)
    requires b == StartBoard()
    ensures Sane(b) && Takes(b, Move(62, 45, None))
  {
    StartIsSane();
    KnightOpens(b);
    hide StartBoard, Sane, Legal, Takes;
    assert Accepted(b, Move(62, 45, None));
    LegalIsTaken(b, Move(62, 45, None));
  }

  /** A fresh game accepts a first move, whatever time it has left. */
  lemma FreshGameOpens(g: GameState, now: int)
    requires IsFresh(g) && HasTime(g, now)
    ensures Ordered(g.board) && Accepts(g, "g1f3", now)
  {
    FreshIsSane(g);
    KnightCode();
    KnightIsTaken(g.board);
    hide Sane, Ordered, StartBoard, ParseMove, Hash, Takes;
  }
}
