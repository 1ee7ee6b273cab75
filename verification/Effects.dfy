/** What an accepted move does to the board, by square numbers and kinds of pieces. */
module Effects {
  import opened Boards
  import opened Rules
  import opened Moving
  import opened Castling
  import opened Accounting
  import opened Games

  /** The kind with which a piece lands: that of the suffix if there is one. */
  function KindAfter(b: BoardState, m: Move): Kind
    requires |b.positions| == 64 && 0 <= m.source < 64 && b.positions[m.source].piece.Some?
  {
    if m.promotion.Some? then m.promotion.value.kind else b.positions[m.source].piece.value.kind
  }

  /** What stands on a square after the move. */
  function PieceAfter(b: BoardState, m: Move, i: int): Option<Piece>
    requires |b.positions| == 64 && 0 <= m.source < 64 && 0 <= i < 64 && b.positions[m.source].piece.Some?
  {
    var ps := b.positions;
    var kind := KindAfter(b, m);
    var behind := if b.next == White then m.target + 8 else m.target - 8;
    if i == m.source then None
    else if i == m.target then Some(Piece(kind, b.next))
    else if kind == King && m.target == m.source + 2 then
      // castling on the king's side: what is in the corner goes over
      if i == m.source + 3 then None
      else if i == m.source + 1 && m.source + 3 < 64 then ps[m.source + 3].piece
      else ps[i].piece
    else if kind == King && m.target == m.source - 2 then
      if i == m.source - 4 then None
      else if i == m.source - 1 && m.source - 4 >= 0 then ps[m.source - 4].piece
      else ps[i].piece
    else if kind == Pawn && b.enPassant == Some(m.target) && i == behind then None
    else ps[i].piece
  }

  lemma SingleSteps(b: BoardState, m: Move)
    requires Ordered(b) && Accepted(b, m) && Holds(b.positions, m.source, Piece(King, b.next)) && m.promotion.None?
    requires Abs(Column(m.source) - Column(m.target)) != 2
    ensures m.target != m.source + 2 && m.target != m.source - 2
  {
    hide Attacked, WellFormed, EnPassantBehind, SafePath;
  }

  /** A king moves two files exactly when it castles, and lands as a king only without a suffix. */
  lemma KingsTwoFiles(b: BoardState, m: Move)
    requires Ordered(b) && Accepted(b, m) && KindAfter(b, m) == King
    ensures IsCastling(b, m) <==> m.target == m.source + 2 || m.target == m.source - 2
  {
    assert b.positions[m.source].piece.value == Piece(King, b.next);
    hide Attacked, WellFormed, EnPassantBehind;
    if IsCastling(b, m) {
      CastlingMovesCorner(b, m);
    } else {
      SingleSteps(b, m);
    }
  }

  lemma LandsAs(b: BoardState, m: Move)
    requires Ordered(b) && Accepted(b, m)
    ensures Landed(b, m) == Piece(KindAfter(b, m), b.next)
    ensures m.source != m.target && OnBoard(m.source) && OnBoard(m.target)
    ensures KindAfter(b, m) == Pawn ==> b.positions[m.source].piece == Some(Piece(Pawn, b.next)) && m.promotion.None?
  {
    hide Attacked, Clear, WellFormed, EnPassantBehind, SafePath;
  }

  lemma CastlingSquares(b: BoardState, m: Move, i: int)
    requires Ordered(b) && Accepted(b, m) && 0 <= i < 64 && IsCastling(b, m) && Performable(b, m)
    ensures Perform(b, m).positions[i] == b.positions[i].(piece := PieceAfter(b, m, i))
  {
    CastlingMovesCorner(b, m);
    LandsAs(b, m);
    KingsTwoFiles(b, m);
    hide Accepted, Ordered;
  }

  lemma EnPassantSquares(b: BoardState, m: Move, i: int)
    requires Ordered(b) && Accepted(b, m) && 0 <= i < 64 && IsEnPassant(b, m) && Performable(b, m)
    ensures Perform(b, m).positions[i] == b.positions[i].(piece := PieceAfter(b, m, i))
  {
    LandsAs(b, m);
    EnPassantTakesPawn(b, m);
    hide Accepted, Ordered;
  }

  lemma PlainSquares(b: BoardState, m: Move, i: int)
    requires Ordered(b) && Accepted(b, m) && 0 <= i < 64 && Performable(b, m)
    requires !IsEnPassant(b, m) && !IsCastling(b, m)
    ensures Perform(b, m).positions[i] == b.positions[i].(piece := PieceAfter(b, m, i))
  {
    LandsAs(b, m);
    if KindAfter(b, m) == King {
      KingsTwoFiles(b, m);
    }
    hide Accepted, Ordered;
  }

  /** Everything about the squares after an accepted move, castling and en passant included. */
  lemma SquaresAfterMove(b: BoardState, m: Move, i: int)
    requires Ordered(b) && Accepted(b, m) && 0 <= i < 64
    ensures Performable(b, m)
    ensures Perform(b, m).positions[i] == b.positions[i].(piece := PieceAfter(b, m, i))
  {
    AcceptedIsPerformable(b, m);
    if IsCastling(b, m) {
      CastlingSquares(b, m, i);
    } else if IsEnPassant(b, m) {
      EnPassantSquares(b, m, i);
    } else {
      PlainSquares(b, m, i);
    }
    hide Accepted, Ordered, Perform, PieceAfter;
  }

  /** In particular a pawn becomes what its suffix says, and any other piece stays what it is without one. */
  lemma PieceArrives(b: BoardState, m: Move)
    requires Ordered(b) && Accepted(b, m)
    ensures Performable(b, m)
    ensures m.promotion.Some? ==>
              Perform(b, m).positions[m.target].piece == Some(Piece(m.promotion.value.kind, b.next))
    ensures m.promotion.None? ==> Perform(b, m).positions[m.target].piece == b.positions[m.source].piece
    ensures Perform(b, m).positions[m.source].piece == None
  {
    LandsAs(b, m);
    SquaresAfterMove(b, m, m.source);
    SquaresAfterMove(b, m, m.target);
    assert b.positions[m.source].piece.value.color == b.next;
    hide Accepted, Ordered, Perform, Performable;
  }

  /** What is left of a colour's right. */
  function RightAfter(right: CastleRights, kind: Kind, source: int): CastleRights {
    if kind == King then NoSide
    else if kind == Rook && (source == 0 || source == 56) then if right == BothSides then KingSide else NoSide
    else if kind == Rook && (source == 7 || source == 63) then if right == BothSides then QueenSide else NoSide
    else right
  }

  lemma PawnsStep(b: BoardState, m: Move)
    requires Ordered(b) && Accepted(b, m) && b.positions[m.source].piece == Some(Piece(Pawn, b.next))
    ensures Abs(Row(m.source) - Row(m.target)) == 2 <==> m.target == m.source - 16 || m.target == m.source + 16
  {
    hide Attacked, Clear, WellFormed, EnPassantBehind, SafePath;
  }

  /** The other fields: whose turn it is, the square offered, the counters, and the rights. A king that lands takes both
      rights of its colour with it, a rook that leaves a corner the one of that side, or the last one there is. */
  lemma FieldsAfterMove(b: BoardState, m: Move)
    requires Ordered(b) && Accepted(b, m)
    ensures Performable(b, m)
    ensures var r := Perform(b, m);
            var kind := KindAfter(b, m);
            && r.next == (if b.next == White then Black else White)
            && r.fullMoves == (if b.next == Black then b.fullMoves + 1 else b.fullMoves)
            && r.halfMoves == (if b.positions[m.target].piece.Some? || b.positions[m.source].piece.value.kind == Pawn
                               then 0 else b.halfMoves + 1)
            && r.enPassant == (if kind == Pawn && m.target == m.source - 16 then Some(m.source - 8)
                               else if kind == Pawn && m.target == m.source + 16 then Some(m.source + 8) else None)
    ensures var r := Perform(b, m);
            if b.next == White then
              && r.castle.black == b.castle.black
              && r.castle.white == RightAfter(b.castle.white, KindAfter(b, m), m.source)
            else
              && r.castle.white == b.castle.white
              && r.castle.black == RightAfter(b.castle.black, KindAfter(b, m), m.source)
  {
    AcceptedIsPerformable(b, m);
    LandsAs(b, m);
    hide Attacked, Clear, WellFormed, EnPassantBehind, SafePath, SquaresAfter;
    if KindAfter(b, m) == Pawn {
      PawnsStep(b, m);
    }
    hide Accepted, Ordered;
  }

  /** A null move passes the turn, withdraws the offered square and counts; nothing else changes. */
  lemma NullChanges(b: BoardState)
    requires Ordered(b) && Takes(b, Move(-1, -1, None))
    ensures BoardAfter(b, Move(-1, -1, None)) ==
              BoardState(b.positions, if b.next == White then Black else White, b.castle, None, b.halfMoves + 1,
                         if b.next == Black then b.fullMoves + 1 else b.fullMoves)
  {
  }
}
