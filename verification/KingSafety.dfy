/** Kings over a move: each colour keeps its one king, and exactly when the mover's king is left in check. */
module KingSafety {
  import opened Boards
  import opened Rules
  import opened Moving
  import opened Castling
  import opened Accounting

  ghost predicate IsTheKing(ps: seq<Position>, color: Color, k: int) {
    Holds(ps, k, Piece(King, color)) && forall j :: Holds(ps, j, Piece(King, color)) ==> j == k
  }

  ghost predicate OneKing(ps: seq<Position>, color: Color) {
    exists k :: IsTheKing(ps, color, k)
  }

  /** One king each, and the side that just moved is not in check. */
  ghost predicate KingsSafe(b: BoardState)
    requires |b.positions| == 64
  {
    OneKing(b.positions, White) && OneKing(b.positions, Black) && !InCheck(b.positions, b.next.Enemy())
  }

  /** The three facts about castling, en passant and kings that every reached board is shown to have. */
  ghost predicate Sane(b: BoardState) {
    WellFormed(b.positions) && RightsAtHome(b) && EnPassantBehind(b) && KingsSafe(b)
  }

  /** A promotion suffix on a king's move would turn the king into another piece. */
  predicate PromotesKing(b: BoardState, m: Move) {
    m.promotion.Some? && Holds(b.positions, m.source, Piece(King, b.next))
  }

  /** Castling takes along whatever stands in the corner, were it the enemy's king. */
  predicate DragsKing(b: BoardState, m: Move)
    requires |b.positions| == 64 && OnBoard(m.source) && b.positions[m.source].piece.Some?
  {
    IsCastling(b, m) && Holds(b.positions, CornerFrom(m.target), Piece(King, b.next.Enemy()))
  }

  /** A rider on `q` that would attack `t` if only the square `hole` were empty. */
  ghost predicate LooksThrough(ps: seq<Position>, q: int, hole: int, t: int)
    requires |ps| == 64 && OnBoard(q) && OnBoard(t) && ps[q].piece.Some?
  {
    && match ps[q].piece.value.kind {
         case Rook => Straight(q, t)
         case Bishop => Diagonal(q, t)
         case Queen => Lined(q, t)
         case _ => false
       }
    && (exists n | 1 <= n < Dist(q, t) :: Toward(q, t, n) == hole)
    && (forall n | 1 <= n < Dist(q, t) :: Toward(q, t, n) == hole || ps[Toward(q, t, n)].piece.None?)
  }

  /** The pawn taken en passant was all that stood between the mover's king and an enemy rider, with the
      capturing pawn already gone from its square. */
  ghost predicate DiscoversCheck(b: BoardState, m: Move)
    requires |b.positions| == 64 && OnBoard(m.source) && OnBoard(m.target) && b.positions[m.source].piece.Some?
  {
    && IsEnPassant(b, m)
    && var after := Played(b.positions, m.source, m.target);
       var k := KingSquare(after, b.next);
       && OnBoard(k)
       && exists q :: Occupied(after, q, b.next.Enemy()) && LooksThrough(after, q, Victim(b, m), k)
  }

  // ----- Kings stay ---------------------------------------------------------------------------------

  lemma TheKingSquare(ps: seq<Position>, color: Color, k: int)
    requires |ps| == 64 && IsTheKing(ps, color, k)
    ensures KingSquare(ps, color) == k && OnBoard(k)
    ensures InCheck(ps, color) <==> Attacked(ps, color, k)
  {
  }

  lemma SaneIsPlayable(b: BoardState)
    requires |b.positions| == 64 && RightsAtHome(b) && EnPassantBehind(b) && HasKing(b.positions, b.next)
    ensures KingInPlay(b) && CastlesFit(b)
  {
    RightsAtHomeFit(b);
  }

  lemma CaptureIsAttack(b: BoardState, s: int, t: int)
    requires |b.positions| == 64 && CanMove(b, s, t) && Occupied(b.positions, s, b.next)
    requires Occupied(b.positions, t, b.next.Enemy())
    ensures Attacker(b.positions, b.next.Enemy(), s, t)
  {
    hide Attacked, Clear;
  }

  /** The enemy's king cannot be taken: what takes it would have had it in check. */
  lemma KingIsNotTaken(b: BoardState, m: Move)
    requires Sane(b) && Accepted(b, m)
    ensures !Holds(b.positions, m.target, Piece(King, b.next.Enemy()))
  {
    if Holds(b.positions, m.target, Piece(King, b.next.Enemy())) {
      var k :| IsTheKing(b.positions, b.next.Enemy(), k);
      TheKingSquare(b.positions, b.next.Enemy(), k);
      CaptureIsAttack(b, m.source, m.target);
      assert false;
    }
  }

  /** A piece a move does not touch is still there afterwards. */
  lemma Untouched(b: BoardState, m: Move, i: int, p: Piece)
    requires Performable(b, m) && Holds(b.positions, i, p) && i != m.source && i != m.target
    requires IsCastling(b, m) ==> i != CornerFrom(m.target) && i != CornerTo(m.target)
    requires IsEnPassant(b, m) ==> i != Victim(b, m)
    ensures Holds(SquaresAfter(b, m), i, p)
  {
  }

  lemma MovedKing(b: BoardState, m: Move)
    requires Performable(b, m) && Holds(b.positions, m.source, Piece(King, b.next)) && m.promotion.None?
    ensures Holds(SquaresAfter(b, m), m.target, Piece(King, b.next))
  {
  }

  /** Where the mover's king stands after the move. */
  function KingGoesTo(m: Move, k: int): int { if k == m.source then m.target else k }

  lemma PlayedKing(ps: seq<Position>, color: Color, k: int, m: Move)
    requires |ps| == 64 && IsTheKing(ps, color, k) && OnBoard(m.source) && OnBoard(m.target)
    requires m.source != m.target && k != m.target
    ensures IsTheKing(Played(ps, m.source, m.target), color, KingGoesTo(m, k))
  {
    var king := Piece(King, color);
    forall j | Holds(Played(ps, m.source, m.target), j, king) ensures j == KingGoesTo(m, k) {
      assert Holds(ps, if j == m.target then m.source else j, king);
    }
  }

  lemma KingOffTarget(b: BoardState, m: Move, k: int)
    requires |b.positions| == 64 && EnPassantBehind(b) && Legal(b, m.source, m.target)
    requires Holds(b.positions, k, Piece(King, b.next))
    ensures m.source != m.target && k != m.target
  {
    hide Attacked, Clear;
  }

  lemma MoverHasKing(b: BoardState, m: Move, k: int)
    requires Sane(b) && Accepted(b, m) && !PromotesKing(b, m) && Performable(b, m) && IsTheKing(b.positions, b.next, k)
    ensures Holds(SquaresAfter(b, m), KingGoesTo(m, k), Piece(King, b.next))
    ensures IsTheKing(Played(b.positions, m.source, m.target), b.next, KingGoesTo(m, k))
  {
    KingOffTarget(b, m, k);
    PlayedKing(b.positions, b.next, k, m);
    if IsCastling(b, m) {
      CastlingMovesCorner(b, m);
    } else if IsEnPassant(b, m) {
      EnPassantTakesPawn(b, m);
    }
    hide Legal, EnPassantBehind, RightsAtHome, KingsSafe, SquaresAfter, WellFormed, Played;
    if k == m.source {
      MovedKing(b, m);
    } else {
      Untouched(b, m, k, Piece(King, b.next));
    }
  }

  lemma MoverKeepsKing(b: BoardState, m: Move, k: int)
    requires Sane(b) && Accepted(b, m) && !PromotesKing(b, m) && Performable(b, m) && IsTheKing(b.positions, b.next, k)
    ensures IsTheKing(SquaresAfter(b, m), b.next, KingGoesTo(m, k))
  {
    MoverHasKing(b, m, k);
    if IsCastling(b, m) {
      CastlingMovesCorner(b, m);
    }
    assert Occupied(b.positions, m.source, b.next);
    hide Legal, EnPassantBehind, RightsAtHome, KingsSafe, SquaresAfter, WellFormed, Performable, IsCastling;
    forall j | Holds(SquaresAfter(b, m), j, Piece(King, b.next)) ensures j == KingGoesTo(m, k) {
      KingAfter(b, m, b.next, j);
    }
  }

  lemma DraggedKing(b: BoardState, m: Move)
    requires Performable(b, m) && DragsKing(b, m) && CornerFrom(m.target) != CornerTo(m.target)
    requires CornerFrom(m.target) != m.source && CornerFrom(m.target) != m.target
    ensures Holds(SquaresAfter(b, m), CornerTo(m.target), Piece(King, b.next.Enemy()))
    ensures !Holds(SquaresAfter(b, m), CornerFrom(m.target), Piece(King, b.next.Enemy()))
  {
  }

  lemma EnemyStandsApart(b: BoardState, m: Move, k: int)
    requires Sane(b) && Accepted(b, m) && Holds(b.positions, k, Piece(King, b.next.Enemy())) && !DragsKing(b, m)
    ensures k != m.source && k != m.target
    ensures IsCastling(b, m) ==> k != CornerFrom(m.target) && k != CornerTo(m.target)
    ensures IsEnPassant(b, m) ==> k != Victim(b, m)
  {
    KingIsNotTaken(b, m);
    if IsCastling(b, m) {
      CastlingMovesCorner(b, m);
    } else if IsEnPassant(b, m) {
      EnPassantTakesPawn(b, m);
    }
    hide CanMove, EnPassantBehind, RightsAtHome, KingsSafe, WellFormed;
  }

  lemma EnemyKeepsKing(b: BoardState, m: Move, k: int)
    requires Sane(b) && Accepted(b, m) && Performable(b, m) && IsTheKing(b.positions, b.next.Enemy(), k)
    ensures IsTheKing(SquaresAfter(b, m), b.next.Enemy(), if DragsKing(b, m) then CornerTo(m.target) else k)
  {
    KingIsNotTaken(b, m);
    assert Occupied(b.positions, m.source, b.next);
    if IsCastling(b, m) {
      CastlingMovesCorner(b, m);
    } else if IsEnPassant(b, m) {
      EnPassantTakesPawn(b, m);
    }
    if DragsKing(b, m) {
      DraggedKing(b, m);
    } else {
      EnemyStandsApart(b, m, k);
      Untouched(b, m, k, Piece(King, b.next.Enemy()));
    }
    hide Legal, EnPassantBehind, RightsAtHome, KingsSafe, SquaresAfter, WellFormed, Performable, IsCastling;
    forall j | Holds(SquaresAfter(b, m), j, Piece(King, b.next.Enemy()))
      ensures j == if DragsKing(b, m) then CornerTo(m.target) else k
    {
      KingAfter(b, m, b.next.Enemy(), j);
    }
  }

  // ----- Checks -------------------------------------------------------------------------------------

  /** The two boards have the same empty squares and the same enemy pieces. */
  ghost predicate SameToEnemy(ps: seq<Position>, qs: seq<Position>, color: Color) {
    && |ps| == |qs| == 64
    && forall i | 0 <= i < 64 ::
         && (ps[i].piece.None? <==> qs[i].piece.None?)
         && (Occupied(ps, i, color.Enemy()) ==> qs[i].piece == ps[i].piece)
         && (Occupied(qs, i, color.Enemy()) ==> qs[i].piece == ps[i].piece)
  }

  /** Attacks depend on the enemy's pieces and on which squares are empty, on nothing else. */
  lemma AttackedAlike(ps: seq<Position>, qs: seq<Position>, color: Color, t: int)
    requires SameToEnemy(ps, qs, color) && OnBoard(t)
    ensures Attacked(ps, color, t) <==> Attacked(qs, color, t)
  {
    forall s | OnBoard(s) && Lined(s, t) ensures Clear(ps, s, t) <==> Clear(qs, s, t) {
    }
    hide Clear, Dx, Dy, Dist;
    if Attacked(ps, color, t) {
      var s :| Attacker(ps, color, s, t);
      assert Attacker(qs, color, s, t);
    }
    if Attacked(qs, color, t) {
      var s :| Attacker(qs, color, s, t);
      assert Attacker(ps, color, s, t);
    }
  }

  lemma QuietMoveIsSafe(b: BoardState, m: Move, k: int)
    requires Performable(b, m) && Occupied(b.positions, m.source, b.next) && OnBoard(k)
    requires !IsCastling(b, m) && !IsEnPassant(b, m)
    ensures Attacked(SquaresAfter(b, m), b.next, k) <==> Attacked(Played(b.positions, m.source, m.target), b.next, k)
  {
    AttackedAlike(SquaresAfter(b, m), Played(b.positions, m.source, m.target), b.next, k);
  }

  lemma QueenSideCorner(t: int)
    requires t == 2 || t == 58
    ensures CornerFrom(t) == t - 2 && Straight(t - 2, t) && Dist(t - 2, t) == 2 && Toward(t - 2, t, 1) == t - 1
  {
    assert t % 8 == 2 && (t - 2) % 8 == 0 && t / 8 == (t - 2) / 8;
  }

  lemma KingSideCorner(t: int)
    requires t == 6 || t == 62
    ensures CornerFrom(t) == t + 1 && Straight(t + 1, t) && Dist(t + 1, t) == 1
  {
    assert t % 8 == 6 && (t + 1) % 8 == 7 && t / 8 == (t + 1) / 8;
  }

  /** At most one square, and that empty, lies between the two. */
  lemma ClearNearby(ps: seq<Position>, s: int, t: int)
    requires |ps| == 64 && OnBoard(s) && OnBoard(t) && Lined(s, t) && 1 <= Dist(s, t) <= 2
    requires Dist(s, t) == 2 ==> ps[Toward(s, t, 1)].piece.None?
    ensures Clear(ps, s, t)
  {
    hide Lined, Dist, Toward;
  }

  /** The corner on the queen's side sees the king's target over the square between, the other one is beside it. */
  lemma CornerIsClear(ps: seq<Position>, t: int)
    requires |ps| == 64 && t in {2, 6, 58, 62} && (t == 2 || t == 58 ==> Vacant(ps, t - 1))
    ensures OnBoard(CornerFrom(t)) && Straight(CornerFrom(t), t) && Clear(ps, CornerFrom(t), t)
  {
    hide CornerFrom, Straight, Diagonal, Dist, Toward, Clear;
    if t == 2 || t == 58 {
      QueenSideCorner(t);
    } else {
      KingSideCorner(t);
    }
    ClearNearby(ps, CornerFrom(t), t);
  }

  lemma AttackerAttacks(ps: seq<Position>, color: Color, s: int, t: int)
    requires |ps| == 64 && OnBoard(t) && Attacker(ps, color, s, t)
    ensures Attacked(ps, color, t)
  {
    hide Attacker;
  }

  lemma CornerSeesTarget(ps: seq<Position>, color: Color, t: int)
    requires |ps| == 64 && t in {2, 6, 58, 62} && (t == 2 || t == 58 ==> Vacant(ps, t - 1))
    requires Occupied(ps, CornerFrom(t), color.Enemy()) && ps[CornerFrom(t)].piece.value.kind in {Rook, Queen}
    ensures Attacked(ps, color, t)
  {
    CornerIsClear(ps, t);
    hide CornerFrom, Straight, Diagonal, Clear, Attacked;
    assert Attacker(ps, color, CornerFrom(t), t);
    AttackerAttacks(ps, color, CornerFrom(t), t);
  }

  lemma CastlingPath(b: BoardState, m: Move)
    requires |b.positions| == 64 && RightsAtHome(b) && Accepted(b, m) && IsCastling(b, m)
    ensures m.target in {2, 6, 58, 62} && !Attacked(b.positions, b.next, m.target)
    ensures m.target == 2 || m.target == 58 ==> Vacant(b.positions, m.target - 1)
  {
    CastlingMovesCorner(b, m);
    assert Holds(b.positions, m.source, Piece(King, b.next));
    assert !KingSteps(b, b.next, m.source, m.target);
    hide Attacked, Clear;
  }

  /** The enemy piece a castling could take along is neither rook nor queen: those would see the king's target. */
  lemma CornerIsNoRider(b: BoardState, m: Move)
    requires |b.positions| == 64 && RightsAtHome(b) && Accepted(b, m) && IsCastling(b, m)
    ensures !Holds(b.positions, CornerFrom(m.target), Piece(Rook, b.next.Enemy()))
    ensures !Holds(b.positions, CornerFrom(m.target), Piece(Queen, b.next.Enemy()))
  {
    CastlingPath(b, m);
    hide RightsAtHome, Accepted, IsCastling, Attacked, CornerFrom;
    var c := CornerFrom(m.target);
    if Occupied(b.positions, c, b.next.Enemy()) && b.positions[c].piece.value.kind in {Rook, Queen} {
      CornerSeesTarget(b.positions, b.next, m.target);
    }
  }

  /** A corner square lies beyond the king's target as seen from anywhere else on the board. */
  lemma CornerIsBeyond(q: int, t: int, n: int)
    requires OnBoard(q) && t in {2, 6, 58, 62} && Lined(q, t) && 1 <= n < Dist(q, t)
    ensures Toward(q, t, n) != CornerFrom(t)
  {
  }

  /** Emptying the corner uncovers nothing, so a new attacker can only be the piece taken along. */
  lemma OnlyCornerAttacks(before: seq<Position>, after: seq<Position>, color: Color, t: int, q: int)
    requires |before| == |after| == 64 && t in {2, 6, 58, 62}
    requires forall i | 0 <= i < 64 && i != CornerTo(t) && i != CornerFrom(t) :: after[i] == before[i]
    requires before[CornerTo(t)].piece.None? && after[CornerFrom(t)].piece.None?
    requires !Attacked(before, color, t) && Attacker(after, color, q, t)
    ensures q == CornerTo(t)
  {
    assert !Attacker(before, color, q, t);
    if q != CornerTo(t) {
      forall n | Lined(q, t) && 1 <= n < Dist(q, t) ensures before[Toward(q, t, n)].piece.None? {
        CornerIsBeyond(q, t, n);
      }
      hide Dx, Dy, Dist, CornerTo, CornerFrom, Toward;
      assert false;
    }
  }

  lemma BesideOnRank(ps: seq<Position>, color: Color, q: int, t: int)
    requires |ps| == 64 && OnBoard(q) && OnBoard(t) && Dist(q, t) == 1 && Dy(q, t) == 0
    ensures Attacker(ps, color, q, t) <==>
              Occupied(ps, q, color.Enemy()) && ps[q].piece.value.kind in {Rook, Queen, King}
  {
  }

  lemma CastlingCheck(b: BoardState, m: Move)
    requires Performable(b, m) && RightsAtHome(b) && Accepted(b, m) && IsCastling(b, m)
    requires !Attacked(Played(b.positions, m.source, m.target), b.next, m.target)
    ensures Attacked(SquaresAfter(b, m), b.next, m.target) <==> DragsKing(b, m)
  {
    CastlingMovesCorner(b, m);
    CornerIsNoRider(b, m);
    var (t, corner) := (m.target, CornerTo(m.target));
    var (before, after) := (Played(b.positions, m.source, t), SquaresAfter(b, m));
    assert t in {2, 6, 58, 62} && Dist(corner, t) == 1 && Dy(corner, t) == 0;
    assert after[corner].piece == b.positions[CornerFrom(t)].piece;
    BesideOnRank(after, b.next, corner, t);
    assert forall i | 0 <= i < 64 && i != corner && i != CornerFrom(t) :: after[i] == before[i];
    assert before[corner].piece.None? && after[CornerFrom(t)].piece.None?;
    hide Legal, RightsAtHome, SquaresAfter, Played, CornerTo, CornerFrom, Attacker, Dist, Dy;
    if Attacked(after, b.next, t) {
      var q :| Attacker(after, b.next, q, t);
      OnlyCornerAttacks(before, after, b.next, t, q);
    }
  }

  lemma HoleOpensLine(ps: seq<Position>, color: Color, hole: int, q: int, k: int)
    requires |ps| == 64 && OnBoard(k) && OnBoard(hole)
    requires Attacker(Put(ps, hole, None), color, q, k) && !Attacker(ps, color, q, k)
    ensures Occupied(ps, q, color.Enemy()) && LooksThrough(ps, q, hole, k)
  {
    hide Dx, Dy, Dist, Toward;
  }

  lemma LineThroughHole(ps: seq<Position>, color: Color, hole: int, q: int, k: int)
    requires |ps| == 64 && OnBoard(k) && OnBoard(hole)
    requires Occupied(ps, q, color.Enemy()) && LooksThrough(ps, q, hole, k)
    ensures Attacker(Put(ps, hole, None), color, q, k)
  {
    assert q != hole by {
      var n :| 1 <= n < Dist(q, k) && Toward(q, k, n) == hole;
    }
    hide Dx, Dy, Dist, Toward;
  }

  /** Taking en passant empties one more square than the test for check has looked at. */
  lemma EnPassantCheck(b: BoardState, m: Move, k: int)
    requires Performable(b, m) && RightsAtHome(b) && EnPassantBehind(b) && Accepted(b, m) && IsEnPassant(b, m)
    requires OnBoard(k) && k == KingSquare(Played(b.positions, m.source, m.target), b.next)
    requires !Attacked(Played(b.positions, m.source, m.target), b.next, k)
    ensures Attacked(SquaresAfter(b, m), b.next, k) <==> DiscoversCheck(b, m)
  {
    EnPassantTakesPawn(b, m);
    var (before, after, hole) := (Played(b.positions, m.source, m.target), SquaresAfter(b, m), Victim(b, m));
    assert after == Put(before, hole, None);
    hide Legal, RightsAtHome, SquaresAfter, Played, IsEnPassant, EnPassantBehind;
    if Attacked(after, b.next, k) {
      var q :| Attacker(after, b.next, q, k);
      HoleOpensLine(before, b.next, hole, q, k);
    }
    if DiscoversCheck(b, m) {
      var q :| Occupied(before, q, b.next.Enemy()) && LooksThrough(before, q, hole, k);
      LineThroughHole(before, b.next, hole, q, k);
    }
  }

  /** Exactly when an accepted move leaves the mover's own king in check. */
  lemma ExactKingSafety(b: BoardState, m: Move)
    requires Sane(b) && Accepted(b, m) && !PromotesKing(b, m)
    ensures Performable(b, m)
    ensures OneKing(Perform(b, m).positions, White) && OneKing(Perform(b, m).positions, Black)
    ensures InCheck(Perform(b, m).positions, b.next) <==> DiscoversCheck(b, m) || DragsKing(b, m)
  {
    AcceptedIsPerformable(b, m);
    var k :| IsTheKing(b.positions, b.next, k);
    var e :| IsTheKing(b.positions, b.next.Enemy(), e);
    MoverHasKing(b, m, k);
    MoverKeepsKing(b, m, k);
    EnemyKeepsKing(b, m, e);
    var to := KingGoesTo(m, k);
    TheKingSquare(Played(b.positions, m.source, m.target), b.next, to);
    TheKingSquare(SquaresAfter(b, m), b.next, to);
    if IsCastling(b, m) {
      CastlingMovesCorner(b, m);
      CastlingCheck(b, m);
    } else if IsEnPassant(b, m) {
      EnPassantCheck(b, m, to);
    } else {
      QuietMoveIsSafe(b, m, to);
    }
    hide CanMove, RightsAtHome, SquaresAfter, Played, EnPassantBehind, Attacked, WellFormed;
  }

  /** A move that keeps every fact the next move relies on. */
  ghost predicate KeepsKingsSafe(b: BoardState, m: Move)
    requires |b.positions| == 64 && OnBoard(m.source) && OnBoard(m.target) && b.positions[m.source].piece.Some?
  {
    !PromotesKing(b, m) && !DiscoversCheck(b, m) && !DragsKing(b, m)
  }

  /** A king that moves with a promotion suffix leaves its colour without one. */
  lemma PromotedKingIsGone(b: BoardState, m: Move)
    requires Sane(b) && Accepted(b, m) && PromotesKing(b, m)
    ensures Performable(b, m) && !HasKing(Perform(b, m).positions, b.next)
  {
    AcceptedIsPerformable(b, m);
    var k :| IsTheKing(b.positions, b.next, k);
    assert k == m.source && !IsCastling(b, m);
    hide Legal, EnPassantBehind, RightsAtHome, KingsSafe, WellFormed;
    forall j ensures !Holds(SquaresAfter(b, m), j, Piece(King, b.next)) {
      if Holds(SquaresAfter(b, m), j, Piece(King, b.next)) {
        KingAfter(b, m, b.next, j);
      }
    }
  }

  /** The board after an accepted move is as sound as the one before exactly when the move promotes no king,
      uncovers no line by taking en passant and drags no king along. */
  lemma SaneAfter(b: BoardState, m: Move)
    requires Sane(b) && Accepted(b, m)
    ensures Performable(b, m)
    ensures Sane(Perform(b, m)) <==> KeepsKingsSafe(b, m)
  {
    RightsStayHome(b, m);
    EnPassantStaysBehind(b, m);
    PerformIsWellFormed(b, m);
    if PromotesKing(b, m) {
      PromotedKingIsGone(b, m);
    } else {
      ExactKingSafety(b, m);
    }
    hide SquaresAfter, DiscoversCheck, DragsKing, Attacked;
  }

  /** A plain condition that is enough: nothing is taken en passant, only pawns carry a promotion suffix, and
      castling takes along a rook of one's own. */
  lemma PlainMovesAreSafe(b: BoardState, m: Move)
    requires |b.positions| == 64 && RightsAtHome(b) && Accepted(b, m)
    requires !IsEnPassant(b, m)
    requires m.promotion.Some? ==> Holds(b.positions, m.source, Piece(Pawn, b.next))
    requires IsCastling(b, m) ==> Holds(b.positions, CornerFrom(m.target), Piece(Rook, b.next))
    ensures KeepsKingsSafe(b, m)
  {
  }
}
