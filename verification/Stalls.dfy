/** Sound boards on which an accepted move leaves a game that is active and in which no piece moves any more. */
module Stalls {
  import opened Boards
  import opened Rules
  import opened Text
  import opened Moving
  import opened Castling
  import opened KingSafety
  import opened Exceptions
  import opened Fen
  import opened Games
  import opened Runs

  /** White king e1 and rook e8, black king on a1, where it has just taken the other rook. */
  function RookedPieces(): map<int, Piece> {
    map[4 := Piece(Rook, White), 56 := Piece(King, Black), 60 := Piece(King, White)]
  }

  function Rooked(): (b: BoardState)
    ensures Shows(b.positions, RookedPieces())
    ensures b.next == White && b.castle == Rights(QueenSide, NoSide) && b.enPassant == None && b.halfMoves == 0
  {
    BoardState(Setup(RookedPieces()), White, Rights(QueenSide, NoSide), None, 0, 1)
  }

  /** After e1c1: white king c1 and rook e8, black king d1, black to move. */
  function DraggedPieces(): map<int, Piece> {
    map[4 := Piece(Rook, White), 58 := Piece(King, White), 59 := Piece(King, Black)]
  }

  // ----- The move is accepted -------------------------------------------------------------------------------

  /** Only the squares around a1 are attacked by black. */
  lemma RookedAttacks(ps: seq<Position>)
    requires Shows(ps, RookedPieces())
    ensures !Attacked(ps, White, 60) && !Attacked(ps, White, 59) && !Attacked(ps, White, 58)
    ensures OpenPath(ps, 60, false)
  {
    assert forall s :: Occupied(ps, s, Black) ==> s == 56;
    assert forall s, t | t in {58, 59, 60} :: !Attacker(ps, White, s, t);
  }

  lemma RookedKings(ps: seq<Position>)
    requires Shows(ps, RookedPieces())
    ensures IsTheKing(ps, White, 60) && IsTheKing(ps, Black, 56) && !Attacked(ps, Black, 56)
  {
    assert forall s :: Occupied(ps, s, White) ==> s == 4 || s == 60;
    assert forall s :: !Attacker(ps, Black, s, 56);
  }

  lemma RookedIsSane(b: BoardState)
    requires b == Rooked()
    ensures Sane(b)
  {
    hide Rooked, Attacked;
    RookedKings(b.positions);
    TheKingSquare(b.positions, Black, 56);
  }

  lemma RookedAfterLift(ps: seq<Position>)
    requires Shows(ps, RookedPieces())
    ensures var after := Played(ps, 60, 58); IsTheKing(after, White, 58) && !Attacked(after, White, 58)
  {
    var after := Played(ps, 60, 58);
    assert forall s :: Occupied(after, s, Black) ==> s == 56;
    assert forall s :: !Attacker(after, White, s, 58);
  }

  lemma RookedAccepts(b: BoardState, m: Move)
    requires b == Rooked() && m == Move(60, 58, None)
    ensures Accepted(b, m)
  {
    hide Rooked, WellFormed, Attacked, KingSteps;
    RookedAttacks(b.positions);
    RookedAfterLift(b.positions);
    TheKingSquare(Played(b.positions, 60, 58), White, 58);
  }

  /** Black's king is on d1, next to the white one. */
  ghost predicate IsDragged(b: BoardState) {
    && Shows(b.positions, DraggedPieces()) && b.next == Black
    && b.castle.black == NoSide && b.enPassant == None && b.halfMoves == 1
  }

  lemma RookedDrags(b: BoardState, m: Move)
    requires b == Rooked() && m == Move(60, 58, None)
    ensures Performable(b, m) && IsDragged(Perform(b, m))
  {
    hide Rooked;
    assert IsCastling(b, m);
  }

  // ----- Black cannot go on -----------------------------------------------------------------------------------

  lemma RookSees(ps: seq<Position>, t: int)
    requires Shows(ps, DraggedPieces()) && t in {52, 60}
    ensures Attacker(ps, Black, 4, t)
  {
    forall n | 1 <= n < Dist(4, t) ensures ps[Toward(4, t, n)].piece.None? {
      assert Toward(4, t, n) == 4 + 8 * n;
    }
  }

  lemma KingSees(ps: seq<Position>, t: int)
    requires Shows(ps, DraggedPieces()) && t in {50, 51, 59}
    ensures Attacker(ps, Black, 58, t)
  {
  }

  lemma WhiteKingIsFree(ps: seq<Position>)
    requires Shows(ps, DraggedPieces())
    ensures !Attacked(ps, Black, 58)
    ensures var after := Played(ps, 59, 58); IsTheKing(after, Black, 58) && !Attacked(after, Black, 58)
  {
    var after := Played(ps, 59, 58);
    assert forall s :: Occupied(ps, s, White) ==> s == 4 || s == 58;
    assert forall s :: Occupied(after, s, White) ==> s == 4;
    assert forall s :: !Attacker(ps, Black, s, 58);
    assert forall s :: !Attacker(after, Black, s, 58);
  }

  /** Of the squares around the black king only the white king's own is not attacked. */
  lemma AroundIsAttacked(ps: seq<Position>, t: int)
    requires Shows(ps, DraggedPieces()) && OnBoard(t) && Dist(59, t) == 1
    ensures t == 58 || Attacked(ps, Black, t)
  {
    assert t in {50, 51, 52, 58, 60};
    if t in {50, 51} {
      KingSees(ps, t);
    } else if t in {52, 60} {
      RookSees(ps, t);
    }
    hide WellFormed, DraggedPieces;
  }

  lemma DraggedKings(ps: seq<Position>)
    requires Shows(ps, DraggedPieces())
    ensures IsTheKing(ps, White, 58) && IsTheKing(ps, Black, 59) && Attacked(ps, Black, 59)
    ensures forall s :: Occupied(ps, s, Black) ==> s == 59
  {
    KingSees(ps, 59);
  }

  /** Black's only valid move is to take the white king. */
  lemma OnlyTakesKing(b: BoardState)
    requires IsDragged(b)
    ensures Legal(b, 59, 58) && forall s, t :: Legal(b, s, t) ==> t == 58
    ensures IsTheKing(b.positions, White, 58) && InCheck(b.positions, Black)
  {
    var ps := b.positions;
    WhiteKingIsFree(ps);
    DraggedKings(ps);
    forall t | OnBoard(t) && Dist(59, t) == 1 ensures t == 58 || Attacked(ps, Black, t) {
      AroundIsAttacked(ps, t);
    }
    assert !Occupied(ps, 58, Black) && Dist(59, 58) == 1;
    hide Attacked, WellFormed, Played, Shows, Dist;
    TheKingSquare(ps, Black, 59);
    TheKingSquare(Played(ps, 59, 58), Black, 58);
    assert KingSteps(b, Black, 59, 58);
  }

  // ----- The game stands still --------------------------------------------------------------------------------

  lemma RookIsEnough(b: BoardState)
    requires IsDragged(b)
    ensures !CannotMate(b.positions, White)
  {
    assert b.positions[4].piece == Some(Piece(Rook, White));
    KindAmong(b.positions, White, 4);
    assert Rook in multiset(Kinds(b.positions, White));
    hide Kinds;
  }

  lemma DraggedGoesOn(b: BoardState, positionHistory: seq<string>)
    requires IsDragged(b) && |positionHistory| <= 2
    ensures Verdict(b, positionHistory).None?
  {
    OnlyTakesKing(b);
    RookIsEnough(b);
    FewOccurrences(positionHistory, Hash(b.positions));
    hide Legal, CannotMate, Hash, InCheck, Shows;
  }

  lemma NothingIsTaken(b: BoardState, m: Move)
    requires IsDragged(b) && Ordered(b)
    ensures !Takes(b, m)
  {
    OnlyTakesKing(b);
    if Takes(b, m) && !IsNull(m) {
      KingWasThere(b, m);
      OneKingGoesOn(b, 58);
    }
    hide Legal, InCheck, Shows, Ordered;
  }

  lemma DragCode()
    ensures ParseMove("e1c1") == Ok(Move(60, 58, None))
  {
    assert EncodeMove(Move(60, 58, None)) == "e1c1";
    MoveRoundTrip(Move(60, 58, None));
    hide ParseMove;
  }

  lemma DragIsTaken(b: BoardState, m: Move)
    requires b == Rooked() && m == Move(60, 58, None)
    ensures Sane(b) && Takes(b, m) && IsDragged(BoardAfter(b, m))
  {
    RookedIsSane(b);
    RookedAccepts(b, m);
    RookedDrags(b, m);
    hide Rooked, Sane, Accepted;
    LegalIsTaken(b, m);
  }

  lemma DraggedIsStuck(b: BoardState)
    requires IsDragged(b)
    ensures !CanGoOn(b)
  {
    OnlyTakesKing(b);
    OneKingGoesOn(b, 58);
    hide Legal;
  }

  /** The accepted castling e1c1 drags the black king to d1. The game is active after it, but black can only take
      the king on c1, which throws, and is in check, so that it cannot pass: no code is ever accepted again. */
  lemma GameCanStall(g: GameState, now: int)
    requires g.board == Rooked() && g.status == Active && HasTime(g, now) && |g.positionHistory| <= 1
    ensures Sane(g.board) && Accepts(g, "e1c1", now)
    ensures var r := AfterMove(g, "e1c1", now);
            r.status == Active && !CanGoOn(r.board) && forall code, later :: !Accepts(r, code, later)
  {
    var m := Move(60, 58, None);
    DragCode();
    DragIsTaken(g.board, m);
    hide Rooked, Sane, IsDragged, Takes, Verdict, Hash, ParseMove, Shows;
    assert Accepts(g, "e1c1", now);
    var r := AfterMove(g, "e1c1", now);
    TurnMovesBoard(g, Turn("e1c1", now));
    DraggedGoesOn(r.board, r.positionHistory);
    DraggedIsStuck(r.board);
    forall code, later ensures !Accepts(r, code, later) {
      if ParseMove(code).Ok? {
        NothingIsTaken(r.board, ParseMove(code).value);
      }
    }
  }

  // ----- After a promoted king ----------------------------------------------------------------------------------

  /** After e7e8q: white queen e8, black king h1. */
  function QueenPieces(): map<int, Piece> {
    map[4 := Piece(Queen, White), 63 := Piece(King, Black)]
  }

  lemma PromotedAfter(b: BoardState, m: Move)
    requires b == LoneKings() && m == Move(12, 4, Some(Piece(Queen, Black)))
    ensures Performable(b, m)
    ensures var r := Perform(b, m);
            Shows(r.positions, QueenPieces()) && r.next == Black && r.halfMoves <= b.halfMoves + 1
  {
    hide LoneKings;
  }

  /** Black's king may step to g1. */
  lemma KingMayStand(ps: seq<Position>)
    requires Shows(ps, QueenPieces())
    ensures !Attacked(ps, Black, 62)
    ensures var after := Played(ps, 63, 62); IsTheKing(after, Black, 62) && !Attacked(after, Black, 62)
  {
    var after := Played(ps, 63, 62);
    assert forall s :: Occupied(ps, s, White) ==> s == 4;
    assert forall s :: Occupied(after, s, White) ==> s == 4;
    assert forall s :: !Attacker(ps, Black, s, 62);
    assert forall s :: !Attacker(after, Black, s, 62);
  }

  lemma KingMayStep(b: BoardState)
    requires Shows(b.positions, QueenPieces()) && b.next == Black
    ensures Legal(b, 63, 62)
  {
    var ps := b.positions;
    KingMayStand(ps);
    assert !Occupied(ps, 62, Black) && Dist(63, 62) == 1 && Holds(ps, 63, Piece(King, Black));
    hide Attacked, WellFormed, Played, Shows, Dist;
    TheKingSquare(Played(ps, 63, 62), Black, 62);
    assert KingSteps(b, Black, 63, 62);
  }

  lemma QueenIsEnough(b: BoardState)
    requires Shows(b.positions, QueenPieces())
    ensures !CannotMate(b.positions, White)
  {
    assert b.positions[4].piece == Some(Piece(Queen, White));
    KindAmong(b.positions, White, 4);
    assert Queen in multiset(Kinds(b.positions, White));
    hide Kinds;
  }

  lemma QueenGoesOn(b: BoardState, positionHistory: seq<string>)
    requires Shows(b.positions, QueenPieces()) && b.next == Black && b.halfMoves < 100 && |positionHistory| <= 2
    ensures Verdict(b, positionHistory).None?
  {
    KingMayStep(b);
    QueenIsEnough(b);
    FewOccurrences(positionHistory, Hash(b.positions));
    hide Legal, CannotMate, Hash, InCheck, Shows;
  }

  lemma PromotionCode()
    ensures ParseMove("e7e8q") == Ok(Move(12, 4, Some(Piece(Queen, Black))))
  {
    var m := Move(12, 4, Some(Piece(Queen, Black)));
    assert EncodeMove(m) == "e7e8q";
    MoveRoundTrip(m);
    hide ParseMove;
  }

  lemma PromotionIsTaken(b: BoardState, m: Move)
    requires b == LoneKings() && m == Move(12, 4, Some(Piece(Queen, Black)))
    ensures Sane(b) && PromotesKing(b, m) && Takes(b, m) && !IsNull(m)
  {
    LoneKingsAccept(b, m);
    hide LoneKings, Sane, Accepted;
    LegalIsTaken(b, m);
  }

  /** The accepted e7e8q turns the white king into a queen. The game is active after it, and whatever is called then,
      no piece moves any more: there are null moves at most. */
  lemma PromotionCanStall(g: GameState, now: int, turns: seq<Turn>)
    requires g.board == LoneKings() && g.status == Active && HasTime(g, now) && |g.positionHistory| <= 1
    ensures Sane(g.board) && Accepts(g, "e7e8q", now) && AfterMove(g, "e7e8q", now).status == Active
    ensures IsRun(AfterMove(g, "e7e8q", now), turns) ==> RealMoves(turns) == 0
  {
    var m := Move(12, 4, Some(Piece(Queen, Black)));
    PromotionCode();
    PromotionIsTaken(g.board, m);
    PromotedAfter(g.board, m);
    assert g.board.halfMoves == 0;
    hide LoneKings, Sane, Takes, Verdict, Hash, ParseMove, Shows, Perform, Performable, PromotesKing, IsRun;
    assert Accepts(g, "e7e8q", now);
    var turn := Turn("e7e8q", now);
    TurnMovesBoard(g, turn);
    QueenGoesOn(AfterMove(g, "e7e8q", now).board, AfterMove(g, "e7e8q", now).positionHistory);
    if IsRun(AfterMove(g, "e7e8q", now), turns) {
      PromotedKingStandsStill(g, turn, turns);
    }
  }
}
