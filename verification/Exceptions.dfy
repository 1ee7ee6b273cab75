/** Boards on which an accepted move leaves the mover's own king in check, or the mover without one. */
module Exceptions {
  import opened Boards
  import opened Rules
  import opened Moving
  import opened Castling
  import opened KingSafety

  /** The pieces stand exactly on the squares of `pieces`. */
  ghost predicate Shows(ps: seq<Position>, pieces: map<int, Piece>) {
    && WellFormed(ps)
    && forall i | 0 <= i < 64 :: ps[i].piece == if i in pieces then Some(pieces[i]) else None
  }

  function Setup(pieces: map<int, Piece>): (ps: seq<Position>)
    ensures Shows(ps, pieces)
  {
    seq(64, i => Square(i, if i in pieces then Some(pieces[i]) else None))
  }

  // ----- A pawn pinned along the rank by way of the pawn it takes en passant ---------------------------

  /** White king a5 and pawn b5, black king h8, pawn c5 and rook h5; black's last move was c7-c5. */
  function PinnedPieces(): map<int, Piece> {
    map[7 := Piece(King, Black), 24 := Piece(King, White), 25 := Piece(Pawn, White),
        26 := Piece(Pawn, Black), 31 := Piece(Rook, Black)]
  }

  function PinnedPawn(): (b: BoardState)
    ensures Shows(b.positions, PinnedPieces())
    ensures b.next == White && b.castle == Rights(NoSide, NoSide) && b.enPassant == Some(18)
  {
    BoardState(Setup(PinnedPieces()), White, Rights(NoSide, NoSide), Some(18), 0, 1)
  }

  lemma PinnedKings(ps: seq<Position>)
    requires Shows(ps, PinnedPieces())
    ensures IsTheKing(ps, White, 24) && IsTheKing(ps, Black, 7) && !Attacked(ps, Black, 7)
  {
    forall s ensures !Attacker(ps, Black, s, 7) {
      assert Occupied(ps, s, White) ==> s == 24 || s == 25;
    }
  }

  lemma PinnedPawnIsSane(b: BoardState)
    requires b == PinnedPawn()
    ensures Sane(b)
  {
    hide PinnedPawn, Attacked;
    PinnedKings(b.positions);
    TheKingSquare(b.positions, Black, 7);
  }

  /** With the pawn on c6 and black's still on c5, nothing attacks the king on a5. */
  lemma PinnedAfterLift(ps: seq<Position>)
    requires Shows(ps, PinnedPieces())
    ensures var after := Played(ps, 25, 18);
            && IsTheKing(after, White, 24) && !Attacked(after, White, 24)
            && Occupied(after, 31, Black) && LooksThrough(after, 31, 26, 24)
  {
    var after := Played(ps, 25, 18);
    assert Toward(31, 24, 5) == 26;
    forall s ensures !Attacker(after, White, s, 24) {
      assert Occupied(after, s, Black) ==> s == 7 || s == 26 || s == 31;
    }
    forall n | 1 <= n < Dist(31, 24) ensures Toward(31, 24, n) == 26 || after[Toward(31, 24, n)].piece.None? {
      assert Toward(31, 24, n) == 31 - n;
    }
  }

  lemma PinnedPawnAccepts(b: BoardState, m: Move)
    requires b == PinnedPawn() && m == Move(25, 18, None)
    ensures Accepted(b, m) && IsEnPassant(b, m) && Victim(b, m) == 26 && !IsCastling(b, m)
  {
    hide PinnedPawn, WellFormed, Attacked, LooksThrough;
    PinnedAfterLift(b.positions);
    TheKingSquare(Played(b.positions, 25, 18), White, 24);
  }

  /** b5xc6 en passant is accepted although both pawns leave the fifth rank and the rook then sees the king. */
  lemma EnPassantCanLeaveCheck(b: BoardState, m: Move)
    requires b == PinnedPawn() && m == Move(25, 18, None)
    ensures Sane(b) && Accepted(b, m) && Performable(b, m) && InCheck(Perform(b, m).positions, b.next)
  {
    hide PinnedPawn, WellFormed;
    PinnedPawnIsSane(b);
    PinnedPawnAccepts(b, m);
    PinnedAfterLift(b.positions);
    hide Attacked, LooksThrough, Accepted;
    TheKingSquare(Played(b.positions, 25, 18), White, 24);
    hide Played, PinnedPieces, Sane, IsEnPassant, IsCastling, Victim;
    AcceptedIsPerformable(b, m);
    assert DiscoversCheck(b, m);
    ExactKingSafety(b, m);
  }

  // ----- A king taken along by castling ----------------------------------------------------------------

  /** White king e1, black king on a1, where it has just taken the rook. */
  function CorneredPieces(): map<int, Piece> {
    map[56 := Piece(King, Black), 60 := Piece(King, White)]
  }

  function CorneredKing(): (b: BoardState)
    ensures Shows(b.positions, CorneredPieces())
    ensures b.next == White && b.castle == Rights(QueenSide, NoSide) && b.enPassant == None
  {
    BoardState(Setup(CorneredPieces()), White, Rights(QueenSide, NoSide), None, 0, 1)
  }

  lemma CorneredKings(ps: seq<Position>)
    requires Shows(ps, CorneredPieces())
    ensures IsTheKing(ps, White, 60) && IsTheKing(ps, Black, 56) && !Attacked(ps, Black, 56)
  {
    assert forall s :: Occupied(ps, s, White) ==> s == 60;
    assert forall s :: Attacker(ps, Black, s, 56) ==> s == 60 && Dist(60, 56) == 1;
  }

  lemma CorneredPath(ps: seq<Position>)
    requires Shows(ps, CorneredPieces())
    ensures SafePath(ps, White, 60, false) && OpenPath(ps, 60, false)
  {
    assert forall s :: Occupied(ps, s, Black) ==> s == 56;
    assert forall s, t | t in {58, 59, 60} :: !Attacker(ps, White, s, t);
  }

  lemma CorneredAfterLift(ps: seq<Position>)
    requires Shows(ps, CorneredPieces())
    ensures var after := Played(ps, 60, 58); IsTheKing(after, White, 58) && !Attacked(after, White, 58)
  {
    var after := Played(ps, 60, 58);
    assert forall s :: Occupied(after, s, Black) ==> s == 56;
    assert forall s :: Attacker(after, White, s, 58) ==> s == 56 && Dist(56, 58) == 1;
  }

  lemma CorneredKingIsSane(b: BoardState)
    requires b == CorneredKing()
    ensures Sane(b)
  {
    hide CorneredKing, Attacked, SafePath;
    CorneredKings(b.positions);
    TheKingSquare(b.positions, Black, 56);
  }

  lemma CorneredKingAccepts(b: BoardState, m: Move)
    requires b == CorneredKing() && m == Move(60, 58, None)
    ensures Accepted(b, m) && DragsKing(b, m)
  {
    hide CorneredKing, WellFormed, Attacked, SafePath, KingSteps;
    CorneredKings(b.positions);
    CorneredPath(b.positions);
    CorneredAfterLift(b.positions);
    TheKingSquare(Played(b.positions, 60, 58), White, 58);
  }

  /** Castling queen side is accepted and moves the black king from a1 to d1, next to the white one. */
  lemma CastlingCanDragKing(b: BoardState, m: Move)
    requires b == CorneredKing() && m == Move(60, 58, None)
    ensures Sane(b) && Accepted(b, m) && Performable(b, m) && InCheck(Perform(b, m).positions, b.next)
    ensures IsTheKing(Perform(b, m).positions, Black, 59)
  {
    hide CorneredKing, WellFormed;
    CorneredKingIsSane(b);
    CorneredKingAccepts(b, m);
    CorneredKings(b.positions);
    AcceptedIsPerformable(b, m);
    hide Attacked, SafePath, Played, CorneredPieces, Sane, Accepted, SquaresAfter;
    ExactKingSafety(b, m);
    EnemyKeepsKing(b, m, 56);
  }

  // ----- A king that promotes ----------------------------------------------------------------------------

  /** White king e7, black king h1. */
  function LonePieces(): map<int, Piece> {
    map[12 := Piece(King, White), 63 := Piece(King, Black)]
  }

  function LoneKings(): (b: BoardState)
    ensures Shows(b.positions, LonePieces())
    ensures b.next == White && b.castle == Rights(NoSide, NoSide) && b.enPassant == None && b.halfMoves == 0
  {
    BoardState(Setup(LonePieces()), White, Rights(NoSide, NoSide), None, 0, 1)
  }

  lemma LoneKingsAreSane(b: BoardState)
    requires b == LoneKings()
    ensures Sane(b) && !Attacked(b.positions, White, 4)
  {
    hide LoneKings;
    var ps := b.positions;
    assert IsTheKing(ps, White, 12) && IsTheKing(ps, Black, 63);
    assert forall s :: Occupied(ps, s, White) ==> s == 12;
    assert forall s :: Occupied(ps, s, Black) ==> s == 63;
    assert forall s :: !Attacker(ps, Black, s, 63);
    assert forall s :: !Attacker(ps, White, s, 4);
    TheKingSquare(ps, Black, 63);
  }

  lemma LoneAfterLift(ps: seq<Position>)
    requires Shows(ps, LonePieces())
    ensures var after := Played(ps, 12, 4); IsTheKing(after, White, 4) && !Attacked(after, White, 4)
  {
    var after := Played(ps, 12, 4);
    assert forall s :: Occupied(after, s, Black) ==> s == 63;
    assert forall s :: !Attacker(after, White, s, 4);
  }

  lemma LoneKingSteps(b: BoardState)
    requires b == LoneKings()
    ensures KingSteps(b, White, 12, 4)
  {
    hide LoneKings, Attacked, WellFormed;
    LoneKingsAreSane(b);
    hide Sane;
  }

  lemma LoneKingsAccept(b: BoardState, m: Move)
    requires b == LoneKings() && m == Move(12, 4, Some(Piece(Queen, Black)))
    ensures Sane(b) && Accepted(b, m) && PromotesKing(b, m)
  {
    hide LoneKings, Attacked, WellFormed, KingSteps, Castles;
    LoneKingsAreSane(b);
    LoneKingSteps(b);
    LoneAfterLift(b.positions);
    TheKingSquare(Played(b.positions, 12, 4), White, 4);
    hide Sane, Played;
    assert CanMove(b, 12, 4);
  }

  /** e7e8q is accepted for a king, and white goes on without one. */
  lemma KingCanBePromoted(b: BoardState, m: Move)
    requires b == LoneKings() && m == Move(12, 4, Some(Piece(Queen, Black)))
    ensures Sane(b) && Accepted(b, m) && Performable(b, m) && !HasKing(Perform(b, m).positions, White)
  {
    LoneKingsAccept(b, m);
    hide Sane, Accepted;
    PromotedKingIsGone(b, m);
  }
}
