/** Castling rights over a move, and what they say about every castling that is played. */
module Castling {
  import opened Boards
  import opened Rules
  import opened Moving

  function Home(color: Color): int { if color.White? then 60 else 4 }

  /** A colour with any right has its king, if it has one, on its home square. */
  ghost predicate RightsAtHome(b: BoardState) {
    forall color: Color, k ::
      Holds(b.positions, k, Piece(King, color)) && b.castle.Of(color) != NoSide ==> k == Home(color)
  }

  /** The promotion suffixes the program lets through: any piece reaching the first or last rank may carry
      one, but never to a king or pawn. */
  predicate PromotionAllowed(m: Move) {
    m.promotion.Some? ==>
      (m.target >= 56 || m.target <= 7) && !m.promotion.value.kind.King? && !m.promotion.value.kind.Pawn?
  }

  /** A move the program accepts. */
  ghost predicate Accepted(b: BoardState, m: Move)
    requires |b.positions| == 64
  {
    Legal(b, m.source, m.target) && PromotionAllowed(m)
  }

  predicate SubRights(r: CastleRights, s: CastleRights) {
    (r.AllowsKingSide() ==> s.AllowsKingSide()) && (r.AllowsQueenSide() ==> s.AllowsQueenSide())
  }

  lemma RightsAtHomeFit(b: BoardState)
    requires |b.positions| == 64 && RightsAtHome(b)
    ensures CastlesFit(b)
  {
  }

  /** A castling that is played takes a corner piece from its corner to the empty square the king crossed. */
  lemma CastlingMovesCorner(b: BoardState, m: Move)
    requires |b.positions| == 64 && RightsAtHome(b) && Accepted(b, m) && IsCastling(b, m)
    ensures m.source == Home(b.next) && m.promotion.None? && Holds(b.positions, m.source, Piece(King, b.next))
    ensures m.target == m.source + 2 || m.target == m.source - 2
    ensures IsCorner(CornerFrom(m.target)) && OnBoard(CornerFrom(m.target))
    ensures CornerTo(m.target) == (m.source + m.target) / 2
    ensures Vacant(b.positions, CornerTo(m.target)) && Vacant(b.positions, m.target)
    ensures !Attacked(b.positions, b.next, CornerTo(m.target))
  {
    assert Holds(b.positions, m.source, Piece(King, b.next));
    assert !KingSteps(b, b.next, m.source, m.target);
    hide Attacked;
  }

  /** Every accepted move writes to squares of the board only. */
  lemma AcceptedIsPerformable(b: BoardState, m: Move)
    requires |b.positions| == 64 && RightsAtHome(b) && Accepted(b, m)
    ensures Performable(b, m)
  {
    if IsCastling(b, m) {
      CastlingMovesCorner(b, m);
    }
  }

  /** Rights only ever shrink. */
  lemma RightsShrink(b: BoardState, m: Move, color: Color)
    requires Performable(b, m)
    ensures SubRights(Perform(b, m).castle.Of(color), b.castle.Of(color))
  {
  }

  /** Which rights a move costs, side by side: the mover's king leaving costs both, its rook leaving a corner
      costs that corner's side, and also the other side's if the corner's own was gone already. The other
      colour's rights stay, even when its rook is captured. */
  lemma RightsKept(b: BoardState, m: Move)
    requires Performable(b, m)
    ensures var (before, after) := (b.castle.Of(b.next), Perform(b, m).castle.Of(b.next));
            var kind := Landed(b, m).kind;
            && (after.AllowsKingSide() <==>
                  && before.AllowsKingSide() && !kind.King?
                  && !(kind.Rook? && IsCorner(m.source) && (Column(m.source) == 8 || !before.AllowsQueenSide())))
            && (after.AllowsQueenSide() <==>
                  && before.AllowsQueenSide() && !kind.King?
                  && !(kind.Rook? && IsCorner(m.source) && (Column(m.source) == 1 || !before.AllowsKingSide())))
    ensures Perform(b, m).castle.Of(b.next.Enemy()) == b.castle.Of(b.next.Enemy())
  {
    hide SquaresAfter;
  }

  /** Where a king stands after a move, it stood before, or it came there by that move. */
  lemma KingAfter(b: BoardState, m: Move, color: Color, k: int)
    requires Performable(b, m) && PromotionAllowed(m) && Occupied(b.positions, m.source, b.next)
    requires Holds(SquaresAfter(b, m), k, Piece(King, color))
    ensures (color == b.next && k == m.target && Holds(b.positions, m.source, Piece(King, color)))
         || (IsCastling(b, m) && k == CornerTo(m.target)
             && Holds(b.positions, CornerFrom(m.target), Piece(King, color)))
         || (k != m.source && Holds(b.positions, k, Piece(King, color)))
  {
  }

  /** The invariant behind castling: kept by every accepted move, with no condition on the move. */
  lemma RightsStayHome(b: BoardState, m: Move)
    requires |b.positions| == 64 && RightsAtHome(b) && Accepted(b, m)
    ensures Performable(b, m) && RightsAtHome(Perform(b, m))
  {
    AcceptedIsPerformable(b, m);
    if IsCastling(b, m) {
      CastlingMovesCorner(b, m);
    }
    forall color: Color, k | Holds(SquaresAfter(b, m), k, Piece(King, color)) && RightsAfter(b, m).Of(color) != NoSide
      ensures k == Home(color)
    {
      KingAfter(b, m, color, k);
      RightsShrink(b, m, color);
      hide SquaresAfter, Legal, Performable;
    }
  }
}
