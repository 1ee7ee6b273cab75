/** Counting over moves: how many pieces each colour has, and how far the pawns still have to go. */
module Accounting {
  import opened Boards
  import opened Rules
  import opened Moving
  import opened Castling

  // ----- The en passant square ----------------------------------------------------------------------

  /** A set en passant square is empty, on its rank, with an opposing pawn directly behind it. */
  ghost predicate EnPassantBehind(b: BoardState) {
    b.enPassant.Some? ==>
      var e := b.enPassant.value;
      && OnBoard(e) && e / 8 == (if b.next.White? then 2 else 5)
      && Vacant(b.positions, e)
      && Holds(b.positions, e - 8 * Forward(b.next), Piece(Pawn, b.next.Enemy()))
  }

  /** What a move captures, if anything, is one piece of the side not to move. */
  lemma EnPassantTakesPawn(b: BoardState, m: Move)
    requires |b.positions| == 64 && RightsAtHome(b) && EnPassantBehind(b) && Accepted(b, m) && IsEnPassant(b, m)
    ensures Vacant(b.positions, m.target) && Holds(b.positions, Victim(b, m), Piece(Pawn, b.next.Enemy()))
    ensures Victim(b, m) != m.source && Victim(b, m) != m.target
    ensures Holds(b.positions, m.source, Piece(Pawn, b.next)) && m.promotion.None?
    ensures Abs(Dx(m.source, m.target)) == 1 && Dy(m.source, m.target) == Forward(b.next)
  {
  }

  /** A pawn that moves two ranks crosses an empty square and lands unpromoted. */
  lemma DoubleStep(b: BoardState, m: Move)
    requires |b.positions| == 64 && Accepted(b, m) && Landed(b, m).kind.Pawn?
    requires Abs(Row(m.source) - Row(m.target)) == 2
    ensures var mid := m.source + (m.target - m.source) / 2;
            && OnBoard(mid) && Vacant(b.positions, mid) && mid != m.source
            && mid == m.target - 8 * Forward(b.next)
            && mid / 8 == (if b.next.White? then 5 else 2)
    ensures Landed(b, m) == Piece(Pawn, b.next)
  {
    assert b.positions[m.source].piece.value.kind.Pawn?;
  }

  lemma EnPassantStaysBehind(b: BoardState, m: Move)
    requires |b.positions| == 64 && RightsAtHome(b) && EnPassantBehind(b) && Accepted(b, m)
    ensures Performable(b, m) && EnPassantBehind(Perform(b, m))
  {
    AcceptedIsPerformable(b, m);
    if Perform(b, m).enPassant.Some? {
      DoubleStep(b, m);
      if IsEnPassant(b, m) {
        EnPassantTakesPawn(b, m);
      }
    }
  }

  // ----- Sums over the board ------------------------------------------------------------------------

  /** The sum over all squares of a weight that depends on the square and what it holds. */
  function Total(weight: (int, Option<Piece>) -> int, ps: seq<Position>): int {
    if ps == [] then 0
    else Total(weight, ps[..|ps| - 1]) + weight(|ps| - 1, ps[|ps| - 1].piece)
  }

  lemma {:induction false} TotalPut(weight: (int, Option<Piece>) -> int, ps: seq<Position>, i: int, p: Option<Piece>)
    requires 0 <= i < |ps|
    ensures Total(weight, Put(ps, i, p)) == Total(weight, ps) - weight(i, ps[i].piece) + weight(i, p)
  {
    var n := |ps| - 1;
    if i == n {
      assert Put(ps, i, p)[..n] == ps[..n];
    } else {
      assert Put(ps, i, p)[..n] == Put(ps[..n], i, p);
      TotalPut(weight, ps[..n], i, p);
    }
  }

  /** A capture: a piece on the target square, or a pawn taken en passant. */
  predicate Captures(b: BoardState, m: Move)
    requires |b.positions| == 64 && OnBoard(m.source) && OnBoard(m.target) && b.positions[m.source].piece.Some?
  {
    b.positions[m.target].piece.Some? || IsEnPassant(b, m)
  }

  /** The square a capture empties. */
  function CapturedOn(b: BoardState, m: Move): int
    requires |b.positions| == 64 && OnBoard(m.source) && OnBoard(m.target) && b.positions[m.source].piece.Some?
  {
    if IsEnPassant(b, m) then Victim(b, m) else m.target
  }

  lemma CaptureIsEnemy(b: BoardState, m: Move)
    requires |b.positions| == 64 && RightsAtHome(b) && EnPassantBehind(b) && Accepted(b, m) && Captures(b, m)
    ensures Occupied(b.positions, CapturedOn(b, m), b.next.Enemy())
    ensures !IsCastling(b, m)
  {
    if IsEnPassant(b, m) {
      EnPassantTakesPawn(b, m);
    } else if IsCastling(b, m) {
      CastlingMovesCorner(b, m);
    }
  }

  /** A move as three changes of a sum: the mover is relocated, the captured piece goes, and a castling
      relocates the corner piece. */
  lemma TotalAfter(weight: (int, Option<Piece>) -> int, b: BoardState, m: Move)
    requires |b.positions| == 64 && RightsAtHome(b) && EnPassantBehind(b) && Accepted(b, m)
    requires forall i :: weight(i, None) == 0
    ensures Performable(b, m)
    ensures Total(weight, SquaresAfter(b, m)) ==
              Total(weight, b.positions)
              - weight(m.source, b.positions[m.source].piece) + weight(m.target, Some(Landed(b, m)))
              - (if Captures(b, m) then
                   (CaptureIsEnemy(b, m); weight(CapturedOn(b, m), b.positions[CapturedOn(b, m)].piece)) else 0)
              + (if IsCastling(b, m) then
                   var corner := b.positions[CornerFrom(m.target)].piece;
                   weight(CornerTo(m.target), corner) - weight(CornerFrom(m.target), corner) else 0)
  {
    AcceptedIsPerformable(b, m);
    var lifted := Put(b.positions, m.source, None);
    var moved := Put(lifted, m.target, Some(Landed(b, m)));
    TotalPut(weight, b.positions, m.source, None);
    TotalPut(weight, lifted, m.target, Some(Landed(b, m)));
    if IsCastling(b, m) {
      CastlingMovesCorner(b, m);
      var corner := b.positions[CornerFrom(m.target)].piece;
      TotalPut(weight, moved, CornerTo(m.target), corner);
      TotalPut(weight, Put(moved, CornerTo(m.target), corner), CornerFrom(m.target), None);
    } else if IsEnPassant(b, m) {
      EnPassantTakesPawn(b, m);
      TotalPut(weight, moved, Victim(b, m), None);
    }
  }

  // ----- Pieces -------------------------------------------------------------------------------------

  function OneEach(color: Color): (int, Option<Piece>) -> int {
    (i: int, p: Option<Piece>) => if p.Some? && p.value.color == color then 1 else 0
  }

  /** How many pieces a colour has. */
  function PieceCount(ps: seq<Position>, color: Color): int { Total(OneEach(color), ps) }

  /** The mover keeps all its pieces; the other side loses exactly one on a capture and none otherwise. */
  lemma PieceAccounting(b: BoardState, m: Move)
    requires |b.positions| == 64 && RightsAtHome(b) && EnPassantBehind(b) && Accepted(b, m)
    ensures Performable(b, m)
    ensures PieceCount(Perform(b, m).positions, b.next) == PieceCount(b.positions, b.next)
    ensures PieceCount(Perform(b, m).positions, b.next.Enemy())
              == PieceCount(b.positions, b.next.Enemy()) - if Captures(b, m) then 1 else 0
  {
    AcceptedIsPerformable(b, m);
    if Captures(b, m) {
      CaptureIsEnemy(b, m);
    }
    TotalAfter(OneEach(b.next), b, m);
    TotalAfter(OneEach(b.next.Enemy()), b, m);
  }

  // ----- Progress -----------------------------------------------------------------------------------

  function Burden(): (int, Option<Piece>) -> int {
    (i: int, p: Option<Piece>) =>
      if p.None? then 0
      else if p.value.kind.Pawn? then 1 + (if p.value.color.White? then i / 8 else 7 - i / 8)
      else 1
  }

  /** Pieces on the board, plus the ranks each pawn has left to its last one. */
  function Phi(ps: seq<Position>): int { Total(Burden(), ps) }

  lemma {:induction false} PhiIsNatural(ps: seq<Position>)
    requires |ps| <= 64
    ensures 0 <= Phi(ps)
  {
    if ps != [] {
      PhiIsNatural(ps[..|ps| - 1]);
    }
  }

  /** A pawn's burden falls with every move it makes, promoting or not; any other piece carries the same. */
  lemma BurdenOfMover(b: BoardState, m: Move)
    requires |b.positions| == 64 && Accepted(b, m)
    ensures var before := Burden()(m.source, b.positions[m.source].piece);
            var after := Burden()(m.target, Some(Landed(b, m)));
            if b.positions[m.source].piece.value.kind.Pawn? then after <= before - 1 else after == before
  {
  }

  /** No move adds to Phi, and the half move counter starts again exactly when a move uses up some of it. */
  lemma PhiFalls(b: BoardState, m: Move)
    requires |b.positions| == 64 && RightsAtHome(b) && EnPassantBehind(b) && Accepted(b, m)
    ensures Performable(b, m)
    ensures var r := Perform(b, m);
            && Phi(r.positions) <= Phi(b.positions)
            && r.halfMoves == if Phi(r.positions) < Phi(b.positions) then 0 else b.halfMoves + 1
  {
    AcceptedIsPerformable(b, m);
    if Captures(b, m) {
      CaptureIsEnemy(b, m);
    }
    if IsCastling(b, m) {
      CastlingMovesCorner(b, m);
      assert CornerFrom(m.target) / 8 == CornerTo(m.target) / 8;
    }
    TotalAfter(Burden(), b, m);
    BurdenOfMover(b, m);
    hide Legal, SquaresAfter, RightsAfter;
  }

  /** What is left to be played: 100 half moves for every unit of Phi, and those until the counter runs out. */
  function Potential(b: BoardState): int { 100 * Phi(b.positions) + 100 - b.halfMoves }

  lemma PotentialFalls(b: BoardState, m: Move)
    requires |b.positions| == 64 && RightsAtHome(b) && EnPassantBehind(b) && Accepted(b, m) && b.halfMoves < 100
    ensures Performable(b, m) && Potential(Perform(b, m)) < Potential(b)
  {
    PhiFalls(b, m);
  }

  /** The same with null moves about, which may push the counter past 100 unnoticed. */
  function Patience(b: BoardState): int { 101 * Phi(b.positions) + Max(0, 100 - b.halfMoves) }

  /** Every accepted move uses up patience, or leaves a board the fifty move rule ends. */
  lemma PatienceFalls(b: BoardState, m: Move)
    requires |b.positions| == 64 && RightsAtHome(b) && EnPassantBehind(b) && Accepted(b, m)
    ensures Performable(b, m)
    ensures Patience(Perform(b, m)) < Patience(b) || EndingOf(Perform(b, m)).Some?
  {
    PhiFalls(b, m);
  }
}
