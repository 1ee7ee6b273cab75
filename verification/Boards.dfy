/** The board of the chess model: pieces, squares, castling rights and the mutable `Board` object.
    Squares are numbered 0..63 from the top left: square 0 is a8, square 63 is h1. */
module Boards {

  datatype Option<+T> = None | Some(value: T)

  datatype Color = White | Black {
    function Enemy(): Color { if White? then Black else White }
  }

  datatype Kind = Rook | Bishop | Knight | Queen | King | Pawn

  datatype Piece = Piece(kind: Kind, color: Color)

  /** One square: its own colour, rank and file are fixed, only `piece` ever changes. */
  datatype Position = Position(color: Color, row: int, column: int, piece: Option<Piece>)

  datatype CastleRights = QueenSide | KingSide | NoSide | BothSides {
    predicate AllowsKingSide() { KingSide? || BothSides? }
    predicate AllowsQueenSide() { QueenSide? || BothSides? }
  }

  datatype Rights = Rights(white: CastleRights, black: CastleRights) {
    function Of(color: Color): CastleRights { if color.White? then white else black }
    function With(color: Color, right: CastleRights): Rights {
      if color.White? then Rights(right, black) else Rights(white, right)
    }
  }

  /** The value of a board at one moment. */
  datatype BoardState = BoardState(
    positions: seq<Position>,
    next: Color,
    castle: Rights,
    enPassant: Option<int>,
    halfMoves: nat,
    fullMoves: nat)

  predicate OnBoard(i: int) { 0 <= i < 64 }

  /** The file of a square, 1 for a to 8 for h. */
  function Column(i: int): int { i % 8 + 1 }

  /** The rank of a square. */
  function Row(i: int): int { 8 - i / 8 }

  function SquareColor(i: int): Color {
    if Column(i) % 2 == Row(i) % 2 then Black else White
  }

  /** The square numbered `i`, holding `piece`. */
  function Square(i: int, piece: Option<Piece>): Position {
    Position(SquareColor(i), Row(i), Column(i), piece)
  }

  /** 64 squares, each carrying the rank, file and colour of its number. */
  predicate WellFormed(ps: seq<Position>) {
    && |ps| == 64
    && forall i | 0 <= i < 64 :: ps[i] == Square(i, ps[i].piece)
  }

  function Put(ps: seq<Position>, i: int, piece: Option<Piece>): (r: seq<Position>)
    requires 0 <= i < |ps|
    ensures |r| == |ps|
  {
    ps[i := ps[i].(piece := piece)]
  }

  lemma PutTwice(ps: seq<Position>, i: int, first: Option<Piece>, second: Option<Piece>)
    requires 0 <= i < |ps|
    ensures Put(Put(ps, i, first), i, second) == Put(ps, i, second)
  {
  }

  predicate Holds(ps: seq<Position>, i: int, piece: Piece) {
    0 <= i < |ps| && ps[i].piece == Some(piece)
  }

  predicate Occupied(ps: seq<Position>, i: int, color: Color) {
    0 <= i < |ps| && ps[i].piece.Some? && ps[i].piece.value.color == color
  }

  /** The board as the program keeps it: an array of squares and the fields of the FEN notation. */
  class Board {
    const positions: array<Position>
    var next: Color
    var castle: Rights
    var enPassant: Option<int>
    var halfMoves: nat
    var fullMoves: nat

    ghost predicate Valid()
      reads this, positions
    {
      WellFormed(positions[..])
    }

    function State(): BoardState
      reads this, positions
    {
      BoardState(positions[..], next, castle, enPassant, halfMoves, fullMoves)
    }

    constructor (state: BoardState)
      requires WellFormed(state.positions)
      ensures Valid() && State() == state && fresh(positions)
    {
      positions := new Position[|state.positions|](i requires 0 <= i < |state.positions| => state.positions[i]);
      next, castle, enPassant := state.next, state.castle, state.enPassant;
      halfMoves, fullMoves := state.halfMoves, state.fullMoves;
    }

    /** Overwrites the piece on one square. */
    method Set(i: int, piece: Option<Piece>)
      requires Valid() && OnBoard(i)
      modifies positions
      ensures Valid() && positions[..] == Put(old(positions[..]), i, piece)
    {
      positions[i] := positions[i].(piece := piece);
    }
  }
}
