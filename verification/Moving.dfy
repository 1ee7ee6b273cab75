/** Playing a move on the board: squares, castling rights, en passant square and counters. */
module Moving {
  import opened Boards
  import opened Rules

  /** A move; a null move has source and target -1. */
  datatype Move = Move(source: int, target: int, promotion: Option<Piece>)

  /** The piece as it lands. A promotion suffix changes the kind of whatever piece moved, and the rest of
      the move is decided by that new kind. */
  function Landed(b: BoardState, m: Move): Piece
    requires |b.positions| == 64 && OnBoard(m.source) && b.positions[m.source].piece.Some?
  {
    var piece := b.positions[m.source].piece.value;
    if m.promotion.Some? then piece.(kind := m.promotion.value.kind) else piece
  }

  /** A king that lands as a king two files away takes the piece in the corner along. */
  predicate IsCastling(b: BoardState, m: Move)
    requires |b.positions| == 64 && OnBoard(m.source) && b.positions[m.source].piece.Some?
  {
    Landed(b, m).kind.King? && Abs(Column(m.source) - Column(m.target)) == 2
  }

  function CornerFrom(target: int): int { if Column(target) == 7 then target + 1 else target - 2 }

  function CornerTo(target: int): int { if Column(target) == 7 then target - 1 else target + 1 }

  predicate IsEnPassant(b: BoardState, m: Move)
    requires |b.positions| == 64 && OnBoard(m.source) && b.positions[m.source].piece.Some?
  {
    Landed(b, m).kind.Pawn? && b.enPassant == Some(m.target)
  }

  /** Where the pawn taken en passant stands. */
  function Victim(b: BoardState, m: Move): int { m.target - 8 * Forward(b.next) }

  /** Every square the move writes to is on the board. */
  predicate Performable(b: BoardState, m: Move) {
    && |b.positions| == 64 && OnBoard(m.source) && OnBoard(m.target) && b.positions[m.source].piece.Some?
    && (IsCastling(b, m) ==> OnBoard(CornerFrom(m.target)) && OnBoard(CornerTo(m.target)))
    && (IsEnPassant(b, m) ==> OnBoard(Victim(b, m)))
  }

  function SquaresAfter(b: BoardState, m: Move): (r: seq<Position>)
    requires Performable(b, m)
    ensures |r| == 64
  {
    var moved := Put(Put(b.positions, m.source, None), m.target, Some(Landed(b, m)));
    if IsCastling(b, m) then
      Put(Put(moved, CornerTo(m.target), moved[CornerFrom(m.target)].piece), CornerFrom(m.target), None)
    else if IsEnPassant(b, m) then
      Put(moved, Victim(b, m), None)
    else
      moved
  }

  predicate IsCorner(i: int) { Column(i) in {1, 8} && Row(i) in {1, 8} }

  /** What is left of a colour's right when a rook leaves the corner square `i`. */
  function WithoutCorner(right: CastleRights, i: int): CastleRights {
    if right != BothSides then NoSide else if Column(i) == 1 then KingSide else QueenSide
  }

  function RightsAfter(b: BoardState, m: Move): Rights
    requires Performable(b, m)
  {
    var kind := Landed(b, m).kind;
    if kind.King? then b.castle.With(b.next, NoSide)
    else if kind.Rook? && IsCorner(m.source) then
      b.castle.With(b.next, WithoutCorner(b.castle.Of(b.next), m.source))
    else b.castle
  }

  /** The board after the move. */
  function Perform(b: BoardState, m: Move): (r: BoardState)
    requires Performable(b, m)
    ensures |r.positions| == 64
  {
    var piece := b.positions[m.source].piece.value;
    BoardState(
      SquaresAfter(b, m),
      b.next.Enemy(),
      RightsAfter(b, m),
      if Landed(b, m).kind.Pawn? && Abs(Row(m.source) - Row(m.target)) == 2
      then Some(m.source + (m.target - m.source) / 2) else None,
      if b.positions[m.target].piece.Some? || piece.kind.Pawn? then 0 else b.halfMoves + 1,
      b.fullMoves + if b.next.Black? then 1 else 0)
  }

  lemma PerformIsWellFormed(b: BoardState, m: Move)
    requires Performable(b, m) && WellFormed(b.positions)
    ensures WellFormed(Perform(b, m).positions)
  {
    hide RightsAfter, SquareColor, Row, Column;
  }

  /** The king's part of a move: its rights are gone, and castling moves the corner piece. */
  method MoveKing(board: Board, color: Color, source: int, target: int)
    requires board.Valid() && OnBoard(source) && OnBoard(target)
    requires Abs(Column(source) - Column(target)) == 2 ==> OnBoard(CornerFrom(target)) && OnBoard(CornerTo(target))
    modifies board`castle, board.positions
    ensures board.Valid() && board.castle == old(board.castle).With(color, NoSide)
    ensures board.positions[..] ==
              var ps := old(board.positions[..]);
              if Abs(Column(source) - Column(target)) == 2 then
                Put(Put(ps, CornerTo(target), ps[CornerFrom(target)].piece), CornerFrom(target), None)
              else ps
  {
    ghost var ps := board.positions[..];
    assert ps[source] == Square(source, ps[source].piece) && ps[target] == Square(target, ps[target].piece);
    hide WellFormed;
    var start := board.positions[source];
    var end := board.positions[target];
    var step := Abs(start.column - end.column);
    board.castle := board.castle.With(color, NoSide);
    if step == 2 {
      if end.column == 7 {
        board.Set(target - 1, board.positions[target + 1].piece);
        board.Set(target + 1, None);
      } else {
        board.Set(target + 1, board.positions[target - 2].piece);
        board.Set(target - 2, None);
      }
    }
  }

  /** The rook's part of a move: leaving a corner costs the right of that side. */
  method MoveRook(board: Board, color: Color, source: int)
    requires board.Valid() && OnBoard(source)
    modifies board`castle
    ensures board.castle ==
              if IsCorner(source) then old(board.castle).With(color, WithoutCorner(old(board.castle).Of(color), source))
              else old(board.castle)
  {
    var pos := board.positions[source];
    assert pos == Square(source, board.positions[..][source].piece);
    var isInitialMove := (pos.column == 1 || pos.column == 8) && (pos.row == 8 || pos.row == 1);
    if isInitialMove {
      var isQueenSide := pos.column == 1;
      if isQueenSide && board.castle.Of(color) == BothSides {
        board.castle := board.castle.With(color, KingSide);
      } else if !isQueenSide && board.castle.Of(color) == BothSides {
        board.castle := board.castle.With(color, QueenSide);
      } else if board.castle.Of(color) != BothSides {
        board.castle := board.castle.With(color, NoSide);
      }
    }
  }

  /** The pawn's part of a move: taking en passant, and offering to be taken so after a double step. */
  method MovePawn(board: Board, color: Color, source: int, target: int) returns (shouldResetEnPassant: bool)
    requires board.Valid() && OnBoard(source) && OnBoard(target)
    requires board.enPassant == Some(target) ==> OnBoard(target - 8 * Forward(color))
    modifies board`enPassant, board.positions
    ensures board.Valid()
    ensures board.positions[..] ==
              var ps := old(board.positions[..]);
              if old(board.enPassant) == Some(target) then Put(ps, target - 8 * Forward(color), None) else ps
    ensures !shouldResetEnPassant <==> Abs(Row(source) - Row(target)) == 2
    ensures !shouldResetEnPassant ==> board.enPassant == Some(source + (target - source) / 2)
  {
    ghost var ps := board.positions[..];
    assert ps[source] == Square(source, ps[source].piece) && ps[target] == Square(target, ps[target].piece);
    hide WellFormed;
    shouldResetEnPassant := true;
    var start := board.positions[source];
    var end := board.positions[target];
    var step := Abs(start.row - end.row);
    if Some(target) == board.enPassant {
      var dir := if color.White? then 1 else -1;
      var captured := target + dir * 8;
      board.Set(captured, None);
    }
    if step == 2 {
      var dist := target - source;
      var mid := source + dist / 2;
      board.enPassant := Some(mid);
      shouldResetEnPassant := false;
    }
  }

  /** The part every move shares: lift, drop, promote, pass the turn and count. */
  method LiftAndDrop(board: Board, move: Move) returns (piece: Piece)
    requires board.Valid() && Performable(board.State(), move)
    modifies board, board.positions
    ensures board.Valid() && piece == Landed(old(board.State()), move)
    ensures board.positions[..] == Put(Put(old(board.positions[..]), move.source, None), move.target, Some(piece))
    ensures var b := old(board.State());
            && board.next == b.next.Enemy()
            && board.halfMoves == Perform(b, move).halfMoves
            && board.fullMoves == Perform(b, move).fullMoves
            && board.castle == b.castle
            && board.enPassant == b.enPassant
  {
    ghost var b := board.State();
    var Move(source, target, promotion) := move;
    piece := board.positions[source].piece.value;
    var color := board.next;
    var enemy := color.Enemy();
    var hasTargetPiece := board.positions[target].piece.Some?;
    assert hasTargetPiece == b.positions[target].piece.Some?;
    PutTwice(Put(b.positions, source, None), target, Some(piece), Some(Landed(b, move)));
    hide WellFormed, Put, SquaresAfter, RightsAfter;

    board.Set(source, None);
    board.Set(target, Some(piece));
    board.next := enemy;

    if hasTargetPiece || piece.kind.Pawn? {
      board.halfMoves := 0;
    } else {
      board.halfMoves := board.halfMoves + 1;
    }

    // `piece` and the piece on the target square are one object: promoting the one promotes the other.
    if promotion.Some? {
      piece := piece.(kind := promotion.value.kind);
      board.Set(target, Some(piece));
    }

    if color.Black? {
      board.fullMoves := board.fullMoves + 1;
    }
  }

  method PerformMove(board: Board, move: Move)
    requires board.Valid() && Performable(board.State(), move)
    modifies board, board.positions
    ensures board.Valid() && board.State() == Perform(old(board.State()), move)
  {
    var color := board.next;
    hide WellFormed, Row, Column, IsCorner, WithoutCorner, CornerFrom, CornerTo, Put;
    var piece := LiftAndDrop(board, move);
    var shouldResetEnPassant := true;
    if piece.kind.King? {
      MoveKing(board, color, move.source, move.target);
    }
    if piece.kind.Rook? {
      MoveRook(board, color, move.source);
    }
    if piece.kind.Pawn? {
      shouldResetEnPassant := MovePawn(board, color, move.source, move.target);
    }
    if shouldResetEnPassant {
      board.enPassant := None;
    }
  }
}
