/** The moves of chess by square numbers. The reference in `Rules` is stated by ranks, files and lines; here every
    piece's moves are spelled out once more by what they add to the number of a square, and shown to be the same. */
module Laws {
  import opened Boards
  import opened Rules
  import opened Moving
  import opened KingSafety

  // ----- Walking ------------------------------------------------------------------------------------------

  function Other(color: Color): Color { if color == White then Black else White }

  datatype Way = N | NE | E | SE | S | SW | W | NW

  /** The square `n` steps away; north is towards the eighth rank. */
  function Go(s: int, way: Way, n: int): int {
    match way
    case N => s - 8 * n
    case NE => s - 7 * n
    case E => s + n
    case SE => s + 9 * n
    case S => s + 8 * n
    case SW => s + 7 * n
    case W => s - n
    case NW => s - 9 * n
  }

  function Least(m: int, n: int): int { if m < n then m else n }

  /** How many steps there are to the edge. */
  function RoomFor(s: int, way: Way): int {
    match way
    case N => s / 8
    case NE => Least(s / 8, 7 - s % 8)
    case E => 7 - s % 8
    case SE => Least(7 - s / 8, 7 - s % 8)
    case S => 7 - s / 8
    case SW => Least(7 - s / 8, s % 8)
    case W => s % 8
    case NW => Least(s / 8, s % 8)
  }

  /** A piece on `s` walks to `t` over empty squares, in `n` steps this way. */
  ghost predicate Walks(ps: seq<Position>, s: int, way: Way, n: int, t: int) {
    && |ps| == 64 && 0 <= s < 64 && 1 <= n <= RoomFor(s, way) && t == Go(s, way, n)
    && forall k | 1 <= k < n :: 0 <= Go(s, way, k) < 64 && ps[Go(s, way, k)].piece == None
  }

  predicate IsStraight(way: Way) { way == N || way == E || way == S || way == W }

  function Sideways(way: Way): int {
    match way case NE => 1 case E => 1 case SE => 1 case SW => -1 case W => -1 case NW => -1 case _ => 0
  }

  function Downwards(way: Way): int {
    match way case SE => 1 case S => 1 case SW => 1 case N => -1 case NE => -1 case NW => -1 case _ => 0
  }

  lemma StraightCoordinates(s: int, way: Way, n: int)
    requires 0 <= s < 64 && 0 <= n <= RoomFor(s, way) && IsStraight(way)
    ensures var t := Go(s, way, n);
            && 0 <= t < 64 && t % 8 == s % 8 + Times(Sideways(way), n) && t / 8 == s / 8 + Times(Downwards(way), n)
  {
  }

  lemma StepByParts(s: int, dx: int, dy: int)
    requires 0 <= s < 64 && 0 <= s % 8 + dx < 8 && 0 <= s / 8 + dy < 8
    ensures var t := s + dx + 8 * dy; 0 <= t < 64 && t % 8 == s % 8 + dx && t / 8 == s / 8 + dy
  {
  }

  lemma DiagonalCoordinates(s: int, way: Way, n: int)
    requires 0 <= s < 64 && 0 <= n <= RoomFor(s, way) && !IsStraight(way)
    ensures var t := Go(s, way, n);
            && 0 <= t < 64 && t % 8 == s % 8 + Times(Sideways(way), n) && t / 8 == s / 8 + Times(Downwards(way), n)
  {
    StepByParts(s, Times(Sideways(way), n), Times(Downwards(way), n));
  }

  /** Where walking leads, by rank and file. */
  lemma WayCoordinates(s: int, way: Way, n: int)
    requires 0 <= s < 64 && 0 <= n <= RoomFor(s, way)
    ensures var t := Go(s, way, n);
            && 0 <= t < 64 && t % 8 == s % 8 + Times(Sideways(way), n) && t / 8 == s / 8 + Times(Downwards(way), n)
  {
    if IsStraight(way) {
      StraightCoordinates(s, way, n);
    } else {
      DiagonalCoordinates(s, way, n);
    }
    hide Go, RoomFor, Times, Sideways, Downwards, IsStraight;
  }

  function WayTo(s: int, t: int): Way {
    var (dx, dy) := (Sgn(Dx(s, t)), Sgn(Dy(s, t)));
    if dx == 0 then (if dy < 0 then N else S)
    else if dy == 0 then (if dx > 0 then E else W)
    else if dy < 0 then (if dx > 0 then NE else NW)
    else (if dx > 0 then SE else SW)
  }

  /** Two squares of a line are joined by one way. */
  lemma WayOfLine(s: int, t: int)
    requires OnBoard(s) && OnBoard(t) && Lined(s, t)
    ensures var way := WayTo(s, t);
            && 1 <= Dist(s, t) <= RoomFor(s, way) && t == Go(s, way, Dist(s, t))
            && Sideways(way) == Sgn(Dx(s, t)) && Downwards(way) == Sgn(Dy(s, t))
            && (Straight(s, t) <==> IsStraight(way)) && (Diagonal(s, t) <==> !IsStraight(way))
  {
  }

  lemma WayIsLine(s: int, way: Way, n: int)
    requires OnBoard(s) && 1 <= n <= RoomFor(s, way)
    ensures var t := Go(s, way, n); OnBoard(t) && Lined(s, t) && Dist(s, t) == n && WayTo(s, t) == way
  {
    WayCoordinates(s, way, n);
  }

  lemma TowardIsGo(s: int, t: int, k: int)
    requires OnBoard(s) && OnBoard(t) && Lined(s, t) && 0 <= k <= Dist(s, t)
    ensures Toward(s, t, k) == Go(s, WayTo(s, t), k) && OnBoard(Go(s, WayTo(s, t), k))
  {
    WayOfLine(s, t);
    WayCoordinates(s, WayTo(s, t), k);
  }

  /** Seeing along a line is walking one way. */
  lemma ClearIsWalk(ps: seq<Position>, s: int, t: int)
    requires |ps| == 64 && OnBoard(s) && OnBoard(t) && Lined(s, t)
    ensures Clear(ps, s, t) <==> Walks(ps, s, WayTo(s, t), Dist(s, t), t)
  {
    WayOfLine(s, t);
    forall k | 1 <= k < Dist(s, t) ensures Toward(s, t, k) == Go(s, WayTo(s, t), k) && OnBoard(Toward(s, t, k)) {
      TowardIsGo(s, t, k);
    }
    hide Lined, Dist, Toward, Go, RoomFor, WayTo;
  }

  ghost predicate WalksStraight(ps: seq<Position>, s: int, t: int) {
    exists way, n :: IsStraight(way) && Walks(ps, s, way, n, t)
  }

  ghost predicate WalksDiagonally(ps: seq<Position>, s: int, t: int) {
    exists way, n :: !IsStraight(way) && Walks(ps, s, way, n, t)
  }

  lemma WalkIsLine(ps: seq<Position>, s: int, way: Way, n: int, t: int)
    requires Walks(ps, s, way, n, t)
    ensures OnBoard(t) && Lined(s, t) && Clear(ps, s, t)
    ensures if IsStraight(way) then Straight(s, t) else Diagonal(s, t)
  {
    WayIsLine(s, way, n);
    WayOfLine(s, t);
    ClearIsWalk(ps, s, t);
    hide Clear, Lined, Go, RoomFor;
  }

  // ----- Attacks ------------------------------------------------------------------------------------------

  lemma RookWalks(ps: seq<Position>, color: Color, s: int, t: int)
    requires |ps| == 64 && OnBoard(s) && OnBoard(t)
    ensures PieceAttacks(ps, Piece(Rook, color), s, t) <==> WalksStraight(ps, s, t)
  {
    if PieceAttacks(ps, Piece(Rook, color), s, t) {
      WayOfLine(s, t);
      ClearIsWalk(ps, s, t);
    }
    if way, n :| IsStraight(way) && Walks(ps, s, way, n, t) {
      WalkIsLine(ps, s, way, n, t);
    }
    hide Clear, Go, RoomFor, WayTo, Walks;
  }

  lemma BishopWalks(ps: seq<Position>, color: Color, s: int, t: int)
    requires |ps| == 64 && OnBoard(s) && OnBoard(t)
    ensures PieceAttacks(ps, Piece(Bishop, color), s, t) <==> WalksDiagonally(ps, s, t)
  {
    if PieceAttacks(ps, Piece(Bishop, color), s, t) {
      WayOfLine(s, t);
      ClearIsWalk(ps, s, t);
    }
    if way, n :| !IsStraight(way) && Walks(ps, s, way, n, t) {
      WalkIsLine(ps, s, way, n, t);
    }
    hide Clear, Go, RoomFor, WayTo, Walks;
  }

  lemma QueenWalks(ps: seq<Position>, color: Color, s: int, t: int)
    requires |ps| == 64 && OnBoard(s) && OnBoard(t)
    ensures PieceAttacks(ps, Piece(Queen, color), s, t) <==> WalksStraight(ps, s, t) || WalksDiagonally(ps, s, t)
  {
    RookWalks(ps, color, s, t);
    BishopWalks(ps, color, s, t);
    hide Clear, Straight, Diagonal, WalksStraight, WalksDiagonally;
  }

  /** One of the eight leaps, with room for it. */
  predicate IsLeap(s: int, t: int) {
    || (t == s - 17 && s % 8 >= 1) || (t == s - 15 && s % 8 <= 6)
    || (t == s - 10 && s % 8 >= 2) || (t == s - 6 && s % 8 <= 5)
    || (t == s + 6 && s % 8 >= 2) || (t == s + 10 && s % 8 <= 5)
    || (t == s + 15 && s % 8 >= 1) || (t == s + 17 && s % 8 <= 6)
  }

  lemma KnightLeaps(ps: seq<Position>, color: Color, s: int, t: int)
    requires |ps| == 64 && OnBoard(s) && OnBoard(t)
    ensures PieceAttacks(ps, Piece(Knight, color), s, t) <==> IsLeap(s, t)
  {
  }

  /** A step to one of the eight neighbours. */
  predicate IsStep(s: int, t: int) {
    || t == s - 8 || t == s + 8
    || (s % 8 >= 1 && (t == s - 9 || t == s - 1 || t == s + 7))
    || (s % 8 <= 6 && (t == s - 7 || t == s + 1 || t == s + 9))
  }

  lemma KingStepsOnce(ps: seq<Position>, color: Color, s: int, t: int)
    requires |ps| == 64 && OnBoard(s) && OnBoard(t)
    ensures PieceAttacks(ps, Piece(King, color), s, t) <==> IsStep(s, t)
  {
  }

  /** White pawns take towards smaller numbers, black ones towards larger. */
  predicate IsPawnTake(color: Color, s: int, t: int) {
    if color == White then (t == s - 9 && s % 8 >= 1) || (t == s - 7 && s % 8 <= 6)
    else (t == s + 7 && s % 8 >= 1) || (t == s + 9 && s % 8 <= 6)
  }

  lemma PawnTakes(ps: seq<Position>, color: Color, s: int, t: int)
    requires |ps| == 64 && OnBoard(s) && OnBoard(t)
    ensures PieceAttacks(ps, Piece(Pawn, color), s, t) <==> IsPawnTake(color, s, t)
  {
  }

  /** The piece on `s`, if it is of this colour, attacks `t`. */
  ghost predicate Hits(ps: seq<Position>, color: Color, s: int, t: int) {
    && 0 <= s < |ps| && ps[s].piece.Some? && ps[s].piece.value.color == color
    && match ps[s].piece.value.kind
       case Rook => WalksStraight(ps, s, t)
       case Bishop => WalksDiagonally(ps, s, t)
       case Queen => WalksStraight(ps, s, t) || WalksDiagonally(ps, s, t)
       case Knight => IsLeap(s, t)
       case King => IsStep(s, t)
       case Pawn => IsPawnTake(color, s, t)
  }

  /** What attacks a square is what hits it. */
  lemma AttackersHit(ps: seq<Position>, color: Color, s: int, t: int)
    requires |ps| == 64 && OnBoard(t)
    ensures Attacker(ps, color, s, t) <==> Hits(ps, Other(color), s, t)
  {
    if OnBoard(s) {
      var enemy := Other(color);
      RookWalks(ps, enemy, s, t);
      BishopWalks(ps, enemy, s, t);
      QueenWalks(ps, enemy, s, t);
      KnightLeaps(ps, enemy, s, t);
      KingStepsOnce(ps, enemy, s, t);
      PawnTakes(ps, enemy, s, t);
    }
    hide PieceAttacks, WalksStraight, WalksDiagonally, IsLeap, IsStep, IsPawnTake;
  }

  lemma AttackedIsHit(ps: seq<Position>, color: Color, t: int)
    requires |ps| == 64 && OnBoard(t)
    ensures Attacked(ps, color, t) <==> exists s :: Hits(ps, Other(color), s, t)
  {
    forall s ensures Attacker(ps, color, s, t) <==> Hits(ps, Other(color), s, t) {
      AttackersHit(ps, color, s, t);
    }
    hide Attacker, Hits;
    if s :| Hits(ps, Other(color), s, t) {
      assert Attacker(ps, color, s, t);
    }
  }

  // ----- Moves --------------------------------------------------------------------------------------------

  /** What the pieces other than pawns and kings can move to: what they attack and do not own. */
  lemma PiecesMove(b: BoardState, color: Color, s: int, t: int)
    requires |b.positions| == 64 && OnBoard(s) && OnBoard(t)
    requires b.positions[s].piece.Some? && b.positions[s].piece.value.color == color
    requires b.positions[s].piece.value.kind in {Rook, Bishop, Queen, Knight}
    ensures CanMove(b, s, t) <==>
              && Hits(b.positions, color, s, t)
              && !(b.positions[t].piece.Some? && b.positions[t].piece.value.color == color)
  {
    var ps := b.positions;
    RookWalks(ps, color, s, t);
    BishopWalks(ps, color, s, t);
    QueenWalks(ps, color, s, t);
    KnightLeaps(ps, color, s, t);
    hide PieceAttacks, WalksStraight, WalksDiagonally, IsLeap;
  }

  /** A pawn goes one square ahead, two from its second rank, or takes aslant what is there or offered. */
  predicate IsPawnMove(b: BoardState, color: Color, s: int, t: int)
    requires |b.positions| == 64 && 0 <= s < 64 && 0 <= t < 64
  {
    var ps := b.positions;
    var takes := (ps[t].piece.Some? && ps[t].piece.value.color != color) || b.enPassant == Some(t);
    if color == White then
      || (t == s - 8 && ps[t].piece == None)
      || (t == s - 16 && s / 8 == 6 && ps[s - 8].piece == None && ps[t].piece == None)
      || (((t == s - 9 && s % 8 >= 1) || (t == s - 7 && s % 8 <= 6)) && takes)
    else
      || (t == s + 8 && ps[t].piece == None)
      || (t == s + 16 && s / 8 == 1 && ps[s + 8].piece == None && ps[t].piece == None)
      || (((t == s + 7 && s % 8 >= 1) || (t == s + 9 && s % 8 <= 6)) && takes)
  }

  lemma PawnsMove(b: BoardState, color: Color, s: int, t: int)
    requires |b.positions| == 64 && OnBoard(s) && OnBoard(t) && b.positions[s].piece == Some(Piece(Pawn, color))
    ensures CanMove(b, s, t) <==> IsPawnMove(b, color, s, t)
  {
  }

  /** A king that does not castle steps to a neighbour that its colour does not hold and nothing of the enemy hits. */
  lemma KingsMove(b: BoardState, color: Color, s: int, t: int)
    requires |b.positions| == 64 && OnBoard(s) && OnBoard(t) && b.positions[s].piece == Some(Piece(King, color))
    requires t != s - 2 && t != s + 2
    ensures CanMove(b, s, t) <==>
              && IsStep(s, t) && !(b.positions[t].piece.Some? && b.positions[t].piece.value.color == color)
              && forall q :: !Hits(b.positions, Other(color), q, t)
  {
    AttackedIsHit(b.positions, color, t);
    KingStepsOnce(b.positions, color, s, t);
    hide Attacked, Hits;
  }

  // ----- Castling -----------------------------------------------------------------------------------------

  /** No piece of the other colour hits the square. */
  ghost predicate IsQuiet(ps: seq<Position>, color: Color, t: int) {
    forall q :: !Hits(ps, Other(color), q, t)
  }

  lemma SafeIsQuiet(ps: seq<Position>, color: Color, t: int)
    requires |ps| == 64 && OnBoard(t)
    ensures Safe(ps, color, t) <==> IsQuiet(ps, color, t)
  {
    AttackedIsHit(ps, color, t);
    hide Attacked, Hits;
  }

  /** A king at home castles on its king's side exactly when the right is there, the two squares beside it are empty
      and neither it nor they are hit. */
  lemma KingSideCastling(b: BoardState, color: Color)
    requires |b.positions| == 64
    requires b.positions[if color == White then 60 else 4].piece == Some(Piece(King, color))
    ensures var ps := b.positions;
            var right := if color == White then b.castle.white else b.castle.black;
            if color == White then
              (CanMove(b, 60, 62) <==>
                 && (right == KingSide || right == BothSides)
                 && ps[61].piece == None && ps[62].piece == None
                 && IsQuiet(ps, White, 60) && IsQuiet(ps, White, 61) && IsQuiet(ps, White, 62))
            else
              (CanMove(b, 4, 6) <==>
                 && (right == KingSide || right == BothSides)
                 && ps[5].piece == None && ps[6].piece == None
                 && IsQuiet(ps, Black, 4) && IsQuiet(ps, Black, 5) && IsQuiet(ps, Black, 6))
  {
    var k := if color == White then 60 else 4;
    SafeIsQuiet(b.positions, color, k);
    SafeIsQuiet(b.positions, color, k + 1);
    SafeIsQuiet(b.positions, color, k + 2);
    hide Safe, IsQuiet;
    assert !KingSteps(b, color, k, k + 2);
  }

  /** And on its queen's side exactly when the right is there, the three squares beside it are empty, and neither it
      nor the first two of them are hit. */
  lemma QueenSideCastling(b: BoardState, color: Color)
    requires |b.positions| == 64
    requires b.positions[if color == White then 60 else 4].piece == Some(Piece(King, color))
    ensures var ps := b.positions;
            var right := if color == White then b.castle.white else b.castle.black;
            if color == White then
              (CanMove(b, 60, 58) <==>
                 && (right == QueenSide || right == BothSides)
                 && ps[59].piece == None && ps[58].piece == None && ps[57].piece == None
                 && IsQuiet(ps, White, 60) && IsQuiet(ps, White, 59) && IsQuiet(ps, White, 58))
            else
              (CanMove(b, 4, 2) <==>
                 && (right == QueenSide || right == BothSides)
                 && ps[3].piece == None && ps[2].piece == None && ps[1].piece == None
                 && IsQuiet(ps, Black, 4) && IsQuiet(ps, Black, 3) && IsQuiet(ps, Black, 2))
  {
    var k := if color == White then 60 else 4;
    SafeIsQuiet(b.positions, color, k);
    SafeIsQuiet(b.positions, color, k - 1);
    SafeIsQuiet(b.positions, color, k - 2);
    hide Safe, IsQuiet;
    assert !KingSteps(b, color, k, k - 2);
  }

  // ----- A castling that can be made is valid -------------------------------------------------------------

  /** The squares with the king moved from `k` to `t`. */
  ghost predicate IsShifted(ps: seq<Position>, after: seq<Position>, k: int, t: int, king: Piece) {
    && |ps| == |after| == 64 && 0 <= k < 64 && 0 <= t < 64
    && after[k].piece == None && after[t].piece == Some(king)
    && forall i | 0 <= i < 64 && i != k && i != t :: after[i].piece == ps[i].piece
  }

  /** A walk over the square the king has left is one along its rank, and led to that square before. */
  lemma WalkOverHome(q: int, way: Way, n: int, k: int, t: int, j: int)
    requires 0 <= q < 64 && 1 <= j < n <= RoomFor(q, way) && Go(q, way, j) == k && Go(q, way, n) == t
    requires t == k + 2 || t == k - 2
    ensures way == E || way == W
  {
  }

  lemma WalkIsShort(q: int, way: Way, j: int, n: int)
    requires 0 <= q < 64 && 1 <= j < n <= RoomFor(q, way)
    ensures Go(q, way, j) != Go(q, way, n) && 0 <= Go(q, way, j) < 64
  {
    WayCoordinates(q, way, j);
  }

  lemma WalkBefore(ps: seq<Position>, after: seq<Position>, k: int, t: int, king: Piece, q: int, way: Way, n: int)
    requires IsShifted(ps, after, k, t, king) && (t == k + 2 || t == k - 2) && Walks(after, q, way, n, t)
    ensures Walks(ps, q, way, n, t) || ((way == E || way == W) && exists j :: Walks(ps, q, way, j, k))
  {
    forall j | 1 <= j < n ensures Go(q, way, j) != t && 0 <= Go(q, way, j) < 64 {
      WalkIsShort(q, way, j, n);
    }
    if j :| 1 <= j < n && Go(q, way, j) == k {
      WalkOverHome(q, way, n, k, t, j);
      forall i | 1 <= i < j ensures Go(q, way, i) != k {
        WalkIsShort(q, way, i, j);
      }
      hide Go, RoomFor;
      assert Walks(ps, q, way, j, k);
    } else {
      hide Go, RoomFor;
      assert Walks(ps, q, way, n, t);
    }
  }

  lemma HitBefore(ps: seq<Position>, after: seq<Position>, color: Color, k: int, t: int, q: int)
    requires IsShifted(ps, after, k, t, Piece(King, color)) && (t == k + 2 || t == k - 2)
    requires Hits(after, Other(color), q, t)
    ensures Hits(ps, Other(color), q, t) || Hits(ps, Other(color), q, k)
  {
    assert q != k && q != t && ps[q].piece == after[q].piece;
    var kind := ps[q].piece.value.kind;
    if kind in {Rook, Queen} && WalksStraight(after, q, t) {
      var way, n :| IsStraight(way) && Walks(after, q, way, n, t);
      WalkBefore(ps, after, k, t, Piece(King, color), q, way, n);
    } else if kind in {Bishop, Queen} && WalksDiagonally(after, q, t) {
      var way, n :| !IsStraight(way) && Walks(after, q, way, n, t);
      WalkBefore(ps, after, k, t, Piece(King, color), q, way, n);
    }
    hide Walks, IsLeap, IsStep, IsPawnTake;
  }

  /** The king may stand on the square it castles to, if it was hit neither there nor at home. */
  lemma StaysQuiet(ps: seq<Position>, after: seq<Position>, color: Color, k: int, t: int)
    requires IsShifted(ps, after, k, t, Piece(King, color)) && (t == k + 2 || t == k - 2)
    requires IsQuiet(ps, color, k) && IsQuiet(ps, color, t)
    ensures IsQuiet(after, color, t)
  {
    forall q ensures !Hits(after, Other(color), q, t) {
      if Hits(after, Other(color), q, t) {
        HitBefore(ps, after, color, k, t, q);
      }
    }
    hide Hits, IsShifted;
  }

  lemma CastlingIsQuiet(b: BoardState, k: int, t: int)
    requires |b.positions| == 64 && 0 <= k < 64 && b.positions[k].piece == Some(Piece(King, b.next))
    requires (t == k + 2 || t == k - 2) && CanMove(b, k, t)
    ensures 0 <= t < 64 && b.positions[t].piece == None
    ensures IsQuiet(b.positions, b.next, k) && IsQuiet(b.positions, b.next, t)
  {
    assert !KingSteps(b, b.next, k, t) || Dist(k, t) == 1;
    SafeIsQuiet(b.positions, b.next, k);
    if OnBoard(t) {
      SafeIsQuiet(b.positions, b.next, t);
    }
    hide Safe, IsQuiet;
  }

  /** A castling of the side to move that its one king can make is valid: there is no further condition. */
  lemma CastlingIsValid(b: BoardState, k: int, t: int)
    requires |b.positions| == 64 && IsTheKing(b.positions, b.next, k) && (t == k + 2 || t == k - 2)
    ensures Legal(b, k, t) <==> CanMove(b, k, t)
  {
    if CanMove(b, k, t) {
      var ps := b.positions;
      var after := Played(ps, k, t);
      assert Dist(k, t) != 1;
      CastlingIsQuiet(b, k, t);
      assert IsShifted(ps, after, k, t, Piece(King, b.next));
      StaysQuiet(ps, after, b.next, k, t);
      PlayedKing(ps, b.next, k, Move(k, t, None));
      AttackedIsHit(after, b.next, t);
      hide CanMove, Attacked, Hits, IsShifted, Played, Dist;
      TheKingSquare(after, b.next, t);
    }
  }

  // ----- Valid moves --------------------------------------------------------------------------------------

  /** The squares with the piece on `s` lifted and dropped on `t`. */
  ghost predicate IsMoved(ps: seq<Position>, after: seq<Position>, s: int, t: int) {
    && |ps| == |after| == 64 && 0 <= s < 64 && 0 <= t < 64 && s != t
    && after[s] == ps[s].(piece := None) && after[t] == ps[t].(piece := ps[s].piece)
    && forall i | 0 <= i < 64 && i != s && i != t :: after[i] == ps[i]
  }

  /** A move is valid exactly when its piece is of the side to move and can make it, and nothing then hits the king. */
  lemma ValidIfQuiet(b: BoardState, k: int, s: int, t: int, after: seq<Position>)
    requires IsMoved(b.positions, after, s, t) && IsTheKing(b.positions, b.next, k) && t != k
    ensures Legal(b, s, t) <==>
              && b.positions[s].piece.Some? && b.positions[s].piece.value.color == b.next
              && CanMove(b, s, t) && IsQuiet(after, b.next, if s == k then t else k)
  {
    assert after == Played(b.positions, s, t);
    PlayedKing(b.positions, b.next, k, Move(s, t, None));
    hide CanMove, Attacked, Hits, Played, IsMoved;
    TheKingSquare(after, b.next, if s == k then t else k);
    AttackedIsHit(after, b.next, if s == k then t else k);
  }

  // ----- Calls that throw ---------------------------------------------------------------------------------

  lemma NoKingValid(b: BoardState)
    requires |b.positions| == 64 && forall i :: !Holds(b.positions, i, Piece(King, b.next))
    ensures forall s, t :: !Legal(b, s, t)
  {
    forall s, t ensures !Legal(b, s, t) {
      if Legal(b, s, t) {
        PlayedHadKing(b.positions, s, t, b.next);
      }
    }
    hide CanMove;
  }

  /** Without a king of the side to move, validating a move that its piece can make throws, and so does the search for
      a valid move if there is such a piece. */
  lemma KinglessThrows(b: BoardState, s: int, t: int)
    requires |b.positions| == 64 && forall i | 0 <= i < 64 :: b.positions[i].piece != Some(Piece(King, b.next))
    requires Occupied(b.positions, s, b.next)
    ensures Stumbles(b, s, t) <==> CanMove(b, s, t)
    ensures CanMove(b, s, t) ==> SearchStumbles(b)
  {
    assert forall i :: !Holds(b.positions, i, Piece(King, b.next));
    NoKingValid(b);
    if CanMove(b, s, t) {
      assert forall i :: !Holds(Played(b.positions, s, t), i, Piece(King, b.next));
      hide CanMove, Legal, Unlistable, Played;
      assert Stumbles(b, s, t);
      assert StumblesAt(b, s);
    }
    hide CanMove, Legal;
  }

  /** A king in the corner with the right to castle towards it cannot be listed, unless an attack ends the test
      before. */
  lemma CornerKingThrows(b: BoardState)
    requires |b.positions| == 64 && b.positions[63].piece == Some(Piece(King, White))
    requires b.castle.white == KingSide
    ensures Unlistable(b, 63) <==> IsQuiet(b.positions, White, 63)
  {
    SafeIsQuiet(b.positions, White, 63);
    hide Attacked, IsQuiet;
  }
}
