/** How pieces attack and move, stated by the geometry of the board alone. Nothing here scans, loops or
    edits a board: this is the reference the program's analysis is proved against. */
module Rules {
  import opened Boards

  // ----- Geometry ---------------------------------------------------------------------------------

  function Sgn(n: int): int { if n > 0 then 1 else if n < 0 then -1 else 0 }

  function Abs(n: int): nat { if n < 0 then -n else n }

  function Max(m: int, n: int): int { if m > n then m else n }

  /** How many files, and how many ranks downwards, lie between two squares. */
  function Dx(s: int, t: int): int { t % 8 - s % 8 }

  function Dy(s: int, t: int): int { t / 8 - s / 8 }

  function Dist(s: int, t: int): nat { Max(Abs(Dx(s, t)), Abs(Dy(s, t))) }

  function Times(sign: int, n: int): int {
    if sign == 0 then 0 else if sign > 0 then n else -n
  }

  /** Going `n` times in direction (dx, dy) from `i` stays on the board. */
  predicate Fits(i: int, dx: int, dy: int, n: int) {
    0 <= i % 8 + Times(dx, n) < 8 && 0 <= i / 8 + Times(dy, n) < 8
  }

  function Along(i: int, dx: int, dy: int, n: int): (r: int)
    requires OnBoard(i) && Fits(i, dx, dy, n)
    ensures OnBoard(r)
  {
    i + Times(dx, n) + 8 * Times(dy, n)
  }

  lemma AlongCoordinates(i: int, dx: int, dy: int, n: int)
    requires OnBoard(i) && Fits(i, dx, dy, n)
    ensures Along(i, dx, dy, n) % 8 == i % 8 + Times(dx, n)
    ensures Along(i, dx, dy, n) / 8 == i / 8 + Times(dy, n)
  {
  }

  predicate Straight(s: int, t: int) { s != t && (Dx(s, t) == 0 || Dy(s, t) == 0) }

  predicate Diagonal(s: int, t: int) { s != t && Abs(Dx(s, t)) == Abs(Dy(s, t)) }

  predicate Lined(s: int, t: int) { Straight(s, t) || Diagonal(s, t) }

  /** The square `n` steps from `s` towards `t`. */
  function Toward(s: int, t: int, n: int): (r: int)
    requires OnBoard(s) && OnBoard(t) && Lined(s, t) && 0 <= n <= Dist(s, t)
    ensures OnBoard(r)
  {
    Along(s, Sgn(Dx(s, t)), Sgn(Dy(s, t)), n)
  }

  /** No piece stands strictly between two squares of one line. */
  ghost predicate Clear(ps: seq<Position>, s: int, t: int)
    requires |ps| == 64 && OnBoard(s) && OnBoard(t) && Lined(s, t)
  {
    forall n | 1 <= n < Dist(s, t) :: ps[Toward(s, t, n)].piece.None?
  }

  // ----- Attacks ----------------------------------------------------------------------------------

  predicate Leaps(s: int, t: int) {
    (Abs(Dx(s, t)) == 1 && Abs(Dy(s, t)) == 2) || (Abs(Dx(s, t)) == 2 && Abs(Dy(s, t)) == 1)
  }

  /** White pawns go up the board, towards smaller square numbers. */
  function Forward(color: Color): int { if color.White? then -1 else 1 }

  /** Whether a piece of this colour and kind, if it stood on `s`, would attack `t`. */
  ghost predicate PieceAttacks(ps: seq<Position>, p: Piece, s: int, t: int)
    requires |ps| == 64 && OnBoard(s) && OnBoard(t)
  {
    match p.kind
    case Rook => Straight(s, t) && Clear(ps, s, t)
    case Bishop => Diagonal(s, t) && Clear(ps, s, t)
    case Queen => Lined(s, t) && Clear(ps, s, t)
    case Knight => Leaps(s, t)
    case King => Dist(s, t) == 1
    case Pawn => Abs(Dx(s, t)) == 1 && Dy(s, t) == Forward(p.color)
  }

  /** The piece on `s` is not of the given colour and attacks `t`. */
  ghost predicate Attacker(ps: seq<Position>, color: Color, s: int, t: int)
    requires |ps| == 64 && OnBoard(t)
  {
    Occupied(ps, s, color.Enemy()) && PieceAttacks(ps, ps[s].piece.value, s, t)
  }

  /** Some piece not of the given colour attacks `t`. */
  ghost predicate Attacked(ps: seq<Position>, color: Color, t: int)
    requires |ps| == 64 && OnBoard(t)
  {
    exists s :: Attacker(ps, color, s, t)
  }

  // ----- Moves ------------------------------------------------------------------------------------

  ghost predicate PawnReaches(b: BoardState, color: Color, s: int, t: int)
    requires |b.positions| == 64 && OnBoard(s) && OnBoard(t)
  {
    var f := Forward(color);
    if Dx(s, t) == 0 then
      && b.positions[t].piece.None?
      && (|| Dy(s, t) == f
          || (Dy(s, t) == 2 * f && Row(s) in {2, 7} && b.positions[s + 8 * f].piece.None?))
    else
      && Abs(Dx(s, t)) == 1 && Dy(s, t) == f
      && (Occupied(b.positions, t, color.Enemy()) || b.enPassant == Some(t))
  }

  ghost predicate Safe(ps: seq<Position>, color: Color, i: int)
    requires |ps| == 64
  {
    OnBoard(i) && !Attacked(ps, color, i)
  }

  predicate Vacant(ps: seq<Position>, i: int) { 0 <= i < |ps| && ps[i].piece.None? }

  /** None of the three squares a castling king stands on, crosses and reaches is attacked. */
  ghost predicate SafePath(ps: seq<Position>, color: Color, s: int, kingSide: bool)
    requires |ps| == 64
  {
    if kingSide then
      Safe(ps, color, s) && Safe(ps, color, s + 1) && Safe(ps, color, s + 2)
    else
      Safe(ps, color, s) && Safe(ps, color, s - 1) && Safe(ps, color, s - 2)
  }

  /** The squares between a castling king and the corner are empty. */
  predicate OpenPath(ps: seq<Position>, s: int, kingSide: bool) {
    if kingSide then
      Vacant(ps, s + 1) && Vacant(ps, s + 2)
    else
      Vacant(ps, s - 1) && Vacant(ps, s - 2) && Vacant(ps, s - 3)
  }

  ghost predicate Castles(b: BoardState, color: Color, s: int, t: int)
    requires |b.positions| == 64
  {
    || (b.castle.Of(color).AllowsKingSide() && t == s + 2
        && SafePath(b.positions, color, s, true) && OpenPath(b.positions, s, true))
    || (b.castle.Of(color).AllowsQueenSide() && t == s - 2
        && SafePath(b.positions, color, s, false) && OpenPath(b.positions, s, false))
  }

  /** The squares looked at for one castling, up to the first that rules it out, are all on the board. */
  ghost predicate PathFits(ps: seq<Position>, color: Color, s: int, kingSide: bool)
    requires |ps| == 64
  {
    var step := if kingSide then 1 else -1;
    && (Safe(ps, color, s) ==> OnBoard(s + step))
    && (Safe(ps, color, s) && Safe(ps, color, s + step) ==> OnBoard(s + 2 * step))
    && (!kingSide && SafePath(ps, color, s, false) && Vacant(ps, s - 1) && Vacant(ps, s - 2) ==> OnBoard(s - 3))
  }

  /** Looking for the castlings of a king of this colour on `s` stays on the board. */
  ghost predicate CastleFits(b: BoardState, color: Color, s: int)
    requires |b.positions| == 64
  {
    && (b.castle.Of(color).AllowsKingSide() ==> PathFits(b.positions, color, s, true))
    && (b.castle.Of(color).AllowsQueenSide() ==> PathFits(b.positions, color, s, false))
  }

  /** A king's single step onto a square not attacked now. */
  ghost predicate KingSteps(b: BoardState, color: Color, s: int, t: int)
    requires |b.positions| == 64
  {
    OnBoard(t) && Dist(s, t) == 1 && !Occupied(b.positions, t, color) && !Attacked(b.positions, color, t)
  }

  /** What `moves` generates: everything but the question whether the mover's own king is left in check. */
  ghost predicate CanMove(b: BoardState, s: int, t: int)
    requires |b.positions| == 64
  {
    && OnBoard(s) && OnBoard(t)
    && b.positions[s].piece.Some?
    && var p := b.positions[s].piece.value;
       match p.kind
       case Pawn => PawnReaches(b, p.color, s, t)
       case King =>
         KingSteps(b, p.color, s, t) || Castles(b, p.color, s, t)
       case _ => PieceAttacks(b.positions, p, s, t) && !Occupied(b.positions, t, p.color)
  }

  /** The squares after lifting the piece on `s` and dropping it on `t`. */
  function Played(ps: seq<Position>, s: int, t: int): (r: seq<Position>)
    requires |ps| == 64 && OnBoard(s) && OnBoard(t)
    ensures |r| == 64
  {
    Put(Put(ps, s, None), t, ps[s].piece)
  }

  function KingFrom(ps: seq<Position>, color: Color, from: nat): (k: int)
    requires from <= |ps|
    ensures k == -1 || (from <= k && Holds(ps, k, Piece(King, color)))
    ensures forall j | from <= j :: Holds(ps, j, Piece(King, color)) ==> 0 <= k <= j
    decreases |ps| - from
  {
    if from == |ps| then -1
    else if Holds(ps, from, Piece(King, color)) then from
    else KingFrom(ps, color, from + 1)
  }

  /** The first square holding the king of a colour, or -1. */
  function KingSquare(ps: seq<Position>, color: Color): (k: int)
    ensures k == -1 || Holds(ps, k, Piece(King, color))
    ensures forall j :: Holds(ps, j, Piece(King, color)) ==> 0 <= k <= j
  {
    KingFrom(ps, color, 0)
  }

  ghost predicate HasKing(ps: seq<Position>, color: Color) {
    exists k :: Holds(ps, k, Piece(King, color))
  }

  /** The king of a colour is attacked. False when that colour has no king. */
  ghost predicate InCheck(ps: seq<Position>, color: Color)
    requires |ps| == 64
  {
    HasKing(ps, color) && Attacked(ps, color, KingSquare(ps, color))
  }

  /** The side to move has a king, and it does not stand on the en passant square. */
  ghost predicate KingInPlay(b: BoardState) {
    && HasKing(b.positions, b.next)
    && (b.enPassant.Some? ==> !Holds(b.positions, b.enPassant.value, Piece(King, b.next)))
  }

  lemma PlayedKeepsKing(b: BoardState, s: int, t: int)
    requires |b.positions| == 64 && KingInPlay(b)
    requires CanMove(b, s, t) && Occupied(b.positions, s, b.next)
    ensures HasKing(Played(b.positions, s, t), b.next)
  {
    var k :| Holds(b.positions, k, Piece(King, b.next));
    assert Holds(Played(b.positions, s, t), if k == s then t else k, Piece(King, b.next));
  }

  lemma PlayedHadKing(ps: seq<Position>, s: int, t: int, color: Color)
    requires |ps| == 64 && OnBoard(s) && OnBoard(t) && HasKing(Played(ps, s, t), color)
    ensures HasKing(ps, color)
  {
    var k :| Holds(Played(ps, s, t), k, Piece(King, color));
    assert Holds(ps, if k == t && s != t then s else k, Piece(King, color)) || Holds(ps, s, Piece(King, color));
  }

  /** A move the rules engine accepts for the side to move: the mover's king, found on the board as it
      stands after the piece has been lifted and dropped, is not attacked there. */
  ghost predicate Legal(b: BoardState, s: int, t: int)
    requires |b.positions| == 64
  {
    && Occupied(b.positions, s, b.next)
    && CanMove(b, s, t)
    && var after := Played(b.positions, s, t);
       HasKing(after, b.next) && !InCheck(after, b.next)
  }

  /** Looking for the castlings of any king of the side to move stays on the board. */
  ghost predicate CastlesFit(b: BoardState)
    requires |b.positions| == 64
  {
    forall s :: Holds(b.positions, s, Piece(King, b.next)) ==> CastleFits(b, b.next, s)
  }

  // ----- Calls that throw -------------------------------------------------------------------------

  /** Listing the moves of the piece on `s` runs off the board. */
  ghost predicate Unlistable(b: BoardState, s: int)
    requires |b.positions| == 64
  {
    OnBoard(s) && b.positions[s].piece.Some? && b.positions[s].piece.value.kind.King?
    && !CastleFits(b, b.positions[s].piece.value.color, s)
  }

  /** Validating the move throws: its piece cannot be listed, or it is generated and leaves no king to look for. */
  ghost predicate Stumbles(b: BoardState, s: int, t: int)
    requires |b.positions| == 64
  {
    && Occupied(b.positions, s, b.next)
    && (Unlistable(b, s) || (CanMove(b, s, t) && !HasKing(Played(b.positions, s, t), b.next)))
  }

  ghost predicate StumblesAt(b: BoardState, s: int)
    requires |b.positions| == 64
  {
    exists t :: Stumbles(b, s, t)
  }

  /** The search for a valid move throws: it meets a piece that makes it throw before one that can move. */
  ghost predicate SearchStumbles(b: BoardState)
    requires |b.positions| == 64
  {
    exists s :: StumblesAt(b, s) && forall j, t :: Legal(b, j, t) ==> s <= j
  }

  /** With a king in play that has room to castle, neither throws. */
  lemma InPlayNeverStumbles(b: BoardState)
    requires |b.positions| == 64 && KingInPlay(b) && CastlesFit(b)
    ensures !SearchStumbles(b) && forall s, t :: !Stumbles(b, s, t)
  {
    forall s, t ensures !Stumbles(b, s, t) {
      if Occupied(b.positions, s, b.next) && CanMove(b, s, t) {
        PlayedKeepsKing(b, s, t);
      }
    }
    hide Stumbles;
  }

  // ----- Endings ----------------------------------------------------------------------------------

  datatype Ending = Checkmate | Stalemate | FiftyMoves | ThreefoldRepetition | InsufficientMaterial

  ghost predicate HasLegalMove(b: BoardState)
    requires |b.positions| == 64
  {
    exists s, t :: Legal(b, s, t)
  }

  /** The kinds of a colour's pieces, in board order. */
  function Kinds(ps: seq<Position>, color: Color): seq<Kind> {
    if ps == [] then []
    else
      var last := ps[|ps| - 1].piece;
      Kinds(ps[..|ps| - 1], color) + if last.Some? && last.value.color == color then [last.value.kind] else []
  }

  lemma {:induction false} KindAmong(ps: seq<Position>, color: Color, i: nat)
    requires i < |ps| && Occupied(ps, i, color)
    ensures ps[i].piece.value.kind in Kinds(ps, color)
  {
    if i < |ps| - 1 {
      KindAmong(ps[..|ps| - 1], color, i);
    }
  }

  /** A lone king, or a king with a single bishop or knight. */
  ghost predicate CannotMate(ps: seq<Position>, color: Color) {
    multiset(Kinds(ps, color)) in {multiset{King}, multiset{King, Bishop}, multiset{King, Knight}}
  }

  /** How the board alone ends the game, if it does. */
  ghost function EndingOf(b: BoardState): Option<Ending>
    requires |b.positions| == 64
  {
    if !HasLegalMove(b) then Some(if InCheck(b.positions, b.next) then Checkmate else Stalemate)
    else if b.halfMoves >= 100 then Some(FiftyMoves)
    else if CannotMate(b.positions, White) && CannotMate(b.positions, Black) then Some(InsufficientMaterial)
    else None
  }
}
