/** Threats and moves on a live board. `HasThreat` and `Moves` call each other: a king may not step onto
    a threatened square, and a knight's threat is found by trying out a knight on the square. Every
    method that edits the board on the way puts it back. */
module Analysis {
  import opened Sequences
  import opened Boards
  import opened Rules
  import opened Scanning
  import opened Sight
  import opened Threats

  // ----- Rooks, bishops and queens -----------------------------------------------------------------

  datatype Axis = Horizontal | Vertical

  datatype Slope = Ascending | Descending

  datatype Direction = Forwards | Backwards

  function AxisStep(axis: Axis, direction: Direction): int {
    var factor := if direction == Backwards then -1 else 1;
    if axis == Horizontal then factor else 8 * factor
  }

  function AxisVerify(axis: Axis): Verify {
    if axis == Horizontal then AlongRank else AlongFile
  }

  function SlopeStep(slope: Slope, direction: Direction): int {
    var factor := if slope == Ascending then (if direction == Forwards then -1 else 1)
                  else (if direction == Backwards then -1 else 1);
    if slope == Descending then 9 * factor else 7 * factor
  }

  method Add(board: Board, result: seq<int>, color: Color, idx: int) returns (r: seq<int>, goOn: bool)
    requires board.Valid() && OnBoard(idx)
    ensures r == if Occupied(board.positions[..], idx, color) then result else result + [idx]
    ensures goOn <==> board.positions[..][idx].piece.None?
  {
    var piece := board.positions[idx].piece;
    if piece.Some? && piece.value.color == color {
      return result, false;
    }
    r := result + [idx];
    goOn := !(piece.Some? && piece.value.color != color);
  }

  /** One ray of a rider: the squares it reaches are appended to `result`, nearest first. */
  method AddRay(board: Board, result: seq<int>, color: Color, index: int, step: int, verify: Verify)
    returns (r: seq<int>)
    requires board.Valid() && OnBoard(index) && IsStep(step, verify)
    ensures |result| <= |r| && r[..|result|] == result
    ensures IsReach(r[|result|..], board.positions[..], color, index, step)
  {
    r := result;
    ghost var ps := board.positions[..];
    ghost var more: seq<int> := [];
    assert step in STEPS;
    var rs := Scan(board, index, step, verify);
    hide Fits, Along, StepX, StepY, IsStep, WellFormed, Sees, IsReach, IsPath;
    EmptyPath(ps, index, step);
    for i := 0 to |rs|
      invariant r == result + more && |more| == i
      invariant IsPath(more, ps, index, step)
      invariant i > 0 ==> ps[Along(index, StepX(step), StepY(step), i)].piece.None?
      invariant forall t | t in more :: !Occupied(ps, t, color)
    {
      assert Fits(index, StepX(step), StepY(step), i + 1);
      assert i > 0 ==> Fits(index, StepX(step), StepY(step), i);
      var goOn;
      r, goOn := Add(board, r, color, rs[i].index);
      PathGrows(more, ps, index, step);
      if !goOn {
        more := r[|result|..];
        PathIsReach(more, ps, color, index, step);
        return;
      }
      more := more + [rs[i].index];
    }
    PathIsReach(more, ps, color, index, step);
  }

  /** `r` lists, once each, the squares a piece of this kind and colour on `s` attacks and does not own. */
  ghost predicate ListsAttacks(r: seq<int>, ps: seq<Position>, p: Piece, s: int)
    requires |ps| == 64 && OnBoard(s)
  {
    && NoDuplicates(r)
    && forall t :: t in r <==> OnBoard(t) && PieceAttacks(ps, p, s, t) && !Occupied(ps, t, p.color)
  }

  /** `r` lists, once each, the squares reached along the rays of `steps`. */
  ghost predicate ListsRays(r: seq<int>, ps: seq<Position>, color: Color, s: int, steps: set<int>)
    requires |ps| == 64 && OnBoard(s)
  {
    && NoDuplicates(r)
    && forall t :: t in r <==> Sees(ps, s, StepTo(s, t), t) && StepTo(s, t) in steps && !Occupied(ps, t, color)
  }

  lemma RaysGrow(r: seq<int>, more: seq<int>, ps: seq<Position>, color: Color, s: int, steps: set<int>, step: int)
    requires |ps| == 64 && OnBoard(s) && ListsRays(r, ps, color, s, steps) && step !in steps
    requires IsReach(more, ps, color, s, step)
    ensures ListsRays(r + more, ps, color, s, steps + {step})
  {
    assert forall t :: Sees(ps, s, step, t) <==> Sees(ps, s, StepTo(s, t), t) && StepTo(s, t) == step;
    hide Sees, StepTo;
    forall t
      ensures t in r + more <==>
                Sees(ps, s, StepTo(s, t), t) && StepTo(s, t) in steps + {step} && !Occupied(ps, t, color)
    {
      assert t in r + more <==> t in r || t in more;
      assert t in more <==> Sees(ps, s, step, t) && !Occupied(ps, t, color);
    }
    forall i, j | 0 <= i < j < |r + more| ensures (r + more)[i] != (r + more)[j] {
      assert i < |r| <= j ==> (r + more)[i] in r && (r + more)[j] in more;
    }
  }

  lemma RookRays(r: seq<int>, ps: seq<Position>, color: Color, s: int)
    requires |ps| == 64 && OnBoard(s) && ListsRays(r, ps, color, s, {-8, -1, 1, 8})
    ensures ListsAttacks(r, ps, Piece(Rook, color), s)
  {
    forall t | OnBoard(t) && Lined(s, t) ensures Straight(s, t) <==> StepTo(s, t) in {-8, -1, 1, 8} {
      StepOfLine(s, t);
    }
    hide Clear, StepTo, Dx, Dy;
  }

  lemma BishopRays(r: seq<int>, ps: seq<Position>, color: Color, s: int)
    requires |ps| == 64 && OnBoard(s) && ListsRays(r, ps, color, s, {-9, -7, 7, 9})
    ensures ListsAttacks(r, ps, Piece(Bishop, color), s)
  {
    forall t | OnBoard(t) && Lined(s, t) ensures Diagonal(s, t) <==> StepTo(s, t) in {-9, -7, 7, 9} {
      StepOfLine(s, t);
    }
    hide Clear, StepTo, Dx, Dy;
  }

  method RookMoves(board: Board, index: int) returns (result: seq<int>)
    requires board.Valid() && OnBoard(index) && board.positions[..][index].piece.Some?
    ensures var ps := board.positions[..]; ListsAttacks(result, ps, Piece(Rook, ps[index].piece.value.color), index)
  {
    var src := board.positions[index];
    var color := src.piece.value.color;
    result := [];
    var directions := [(Horizontal, Forwards), (Horizontal, Backwards), (Vertical, Forwards), (Vertical, Backwards)];
    ghost var steps: set<int> := {};
    ghost var all := [1, -1, 8, -8];
    for i := 0 to 4
      invariant steps == (set k | 0 <= k < i :: all[k])
      invariant ListsRays(result, board.positions[..], color, index, steps)
    {
      var (axis, dir) := directions[i];
      assert AxisStep(axis, dir) == all[i];
      var before := result;
      result := AddRay(board, result, color, index, AxisStep(axis, dir), AxisVerify(axis));
      RaysGrow(before, result[|before|..], board.positions[..], color, index, steps, all[i]);
      steps := steps + {all[i]};
      assert result == before + result[|before|..];
    }
    assert steps == {all[0], all[1], all[2], all[3]};
    RookRays(result, board.positions[..], color, index);
  }

  method BishopMoves(board: Board, index: int) returns (result: seq<int>)
    requires board.Valid() && OnBoard(index) && board.positions[..][index].piece.Some?
    ensures var ps := board.positions[..]; ListsAttacks(result, ps, Piece(Bishop, ps[index].piece.value.color), index)
  {
    var src := board.positions[index];
    var color := src.piece.value.color;
    result := [];
    var directions := [(Ascending, Forwards), (Ascending, Backwards), (Descending, Forwards), (Descending, Backwards)];
    ghost var steps: set<int> := {};
    ghost var all := [-7, 7, 9, -9];
    for i := 0 to 4
      invariant steps == (set k | 0 <= k < i :: all[k])
      invariant ListsRays(result, board.positions[..], color, index, steps)
    {
      var (slope, dir) := directions[i];
      assert SlopeStep(slope, dir) == all[i];
      var before := result;
      result := AddRay(board, result, color, index, SlopeStep(slope, dir), AlongDiagonal);
      RaysGrow(before, result[|before|..], board.positions[..], color, index, steps, all[i]);
      steps := steps + {all[i]};
      assert result == before + result[|before|..];
    }
    assert steps == {all[0], all[1], all[2], all[3]};
    BishopRays(result, board.positions[..], color, index);
  }

  /** The members of `s` in the order of their first occurrence, as a JavaScript `Set` keeps them. */
  function FirstOccurrences(s: seq<int>): (r: seq<int>)
    ensures NoDuplicates(r) && forall t :: t in r <==> t in s
  {
    if s == [] then []
    else
      var rest := FirstOccurrences(s[..|s| - 1]);
      if s[|s| - 1] in rest then rest else rest + [s[|s| - 1]]
  }

  /** The queen's squares: those of a bishop and those of a rook, collected in a set. */
  method QueenMoves(board: Board, index: int) returns (result: seq<int>)
    requires board.Valid() && OnBoard(index) && board.positions[..][index].piece.Some?
    ensures var ps := board.positions[..]; ListsAttacks(result, ps, Piece(Queen, ps[index].piece.value.color), index)
  {
    var diagonal := BishopMoves(board, index);
    var straight := RookMoves(board, index);
    result := FirstOccurrences(diagonal + straight);
  }

  // ----- Knights and pawns --------------------------------------------------------------------------

  lemma AppendDistinct(r: seq<int>, t: int)
    requires NoDuplicates(r) && t !in r
    ensures NoDuplicates(r + [t])
  {
  }

  lemma NotSeenBefore(r: seq<int>, i: int)
    requires NoDuplicates(r) && 0 <= i < |r|
    ensures r[i] !in r[..i]
    ensures r[..i + 1] == r[..i] + [r[i]]
  {
  }

  lemma LeapsByStep(s: int)
    requires OnBoard(s)
    ensures forall t | OnBoard(t) && Leaps(s, t) :: t - s in [10, 17, 6, 15, -10, -17, -6, -15]
  {
  }

  lemma LeapsByFile(ps: seq<Position>, s: int, t: int)
    requires WellFormed(ps) && OnBoard(s) && OnBoard(t)
    ensures Leaps(s, t) <==>
              || (Abs(ps[t].column - ps[s].column) == 1 && Abs(ps[t].row - ps[s].row) == 2)
              || (Abs(ps[t].column - ps[s].column) == 2 && Abs(ps[t].row - ps[s].row) == 1)
  {
    assert ps[s] == Square(s, ps[s].piece) && ps[t] == Square(t, ps[t].piece);
  }

  method KnightMoves(board: Board, index: int) returns (result: seq<int>)
    requires board.Valid() && OnBoard(index) && board.positions[..][index].piece.Some?
    ensures var ps := board.positions[..]; ListsAttacks(result, ps, Piece(Knight, ps[index].piece.value.color), index)
  {
    ghost var ps := board.positions[..];
    var steps := [10, 17, 6, 15, -10, -17, -6, -15];
    var possibilities: seq<int> := [];
    var src := board.positions[index];
    ghost var color := src.piece.value.color;
    assert NoDuplicates(steps) && NoDuplicates(possibilities);
    hide NoDuplicates;
    for i := 0 to |steps|
      invariant NoDuplicates(possibilities)
      invariant forall t :: t in possibilities <==> OnBoard(t) && t - index in steps[..i]
    {
      var target := index + steps[i];
      NotSeenBefore(steps, i);
      if target > -1 && target < 64 {
        assert target - index == steps[i];
        AppendDistinct(possibilities, target);
        possibilities := possibilities + [target];
      }
    }
    assert steps[..|steps|] == steps;
    LeapsByStep(index);
    hide Leaps;
    result := [];
    for i := 0 to |possibilities|
      invariant NoDuplicates(result)
      invariant forall t :: t in result <==> t in possibilities[..i] && Leaps(index, t) && !Occupied(ps, t, color)
    {
      var possibility := possibilities[i];
      assert possibility in possibilities;
      NotSeenBefore(possibilities, i);
      AppendDistinct(result, possibility);
      LeapsByFile(ps, index, possibility);
      var target := board.positions[possibility];
      var colDiff := Abs(target.column - src.column);
      var rowDiff := Abs(target.row - src.row);
      if target.piece.Some? && target.piece.value.color == src.piece.value.color {
        continue;
      }
      if colDiff == 1 && rowDiff == 2 {
        result := result + [possibility];
      }
      if colDiff == 2 && rowDiff == 1 {
        result := result + [possibility];
      }
    }
    assert possibilities[..|possibilities|] == possibilities;
  }

  /** The index steps of a pawn: ahead, both diagonals, and two ahead from a start rank. */
  predicate IsPawnStep(color: Color, s: int, step: int) {
    || step in [8 * Forward(color), 9 * Forward(color), 7 * Forward(color)]
    || (Row(s) in [2, 7] && step == 16 * Forward(color))
  }

  lemma PawnStepsCover(b: BoardState, color: Color, s: int, t: int)
    requires |b.positions| == 64 && OnBoard(s) && OnBoard(t) && PawnReaches(b, color, s, t)
    ensures IsPawnStep(color, s, t - s)
  {
    assert t - s == Dx(s, t) + 8 * Dy(s, t);
  }

  /** What the program's filter asks of a target is what the rules ask of a pawn's move. */
  lemma PawnFilter(b: BoardState, color: Color, s: int, t: int)
    requires WellFormed(b.positions) && OnBoard(s) && OnBoard(t) && IsPawnStep(color, s, t - s)
    ensures var (from, to) := (b.positions[s], b.positions[t]);
            var (colDiff, rowDiff) := (Abs(to.column - from.column), Abs(to.row - from.row));
            && (colDiff <= 1 && rowDiff == 2 ==> OnBoard(s + (t - s) / 2))
            && (PawnReaches(b, color, s, t) <==>
                  && colDiff <= 1
                  && (rowDiff == 2 ==> b.positions[s + (t - s) / 2].piece.None?)
                  && (colDiff == 0 ==> to.piece.None?)
                  && (colDiff > 0 ==> (to.piece.Some? && to.piece.value.color != color) || b.enPassant == Some(t)))
  {
    assert b.positions[s] == Square(s, b.positions[s].piece) && b.positions[t] == Square(t, b.positions[t].piece);
    hide WellFormed;
  }

  method PawnMayGo(board: Board, index: int, color: Color, target: int) returns (ok: bool)
    requires board.Valid() && OnBoard(index) && OnBoard(target) && IsPawnStep(color, index, target - index)
    ensures ok <==> PawnReaches(board.State(), color, index, target)
  {
    PawnFilter(board.State(), color, index, target);
    hide PawnReaches, IsPawnStep, WellFormed;
    var src := board.positions[index];
    var colDiff := Abs(board.positions[target].column - src.column);
    var rowDiff := Abs(board.positions[target].row - src.row);
    var targetPiece := board.positions[target].piece;
    if colDiff > 1 {
      return false;
    }
    if rowDiff == 2 {
      var diff := target - index;
      var mid := index + diff / 2;
      if board.positions[mid].piece.Some? {
        return false;
      }
    }
    if targetPiece.Some? && colDiff == 0 {
      return false;
    }
    var isTargetSameColor := targetPiece.Some? && targetPiece.value.color == color;
    var isEnPassantTarget := board.enPassant == Some(target);
    if colDiff > 0 && (targetPiece.None? || isTargetSameColor) && !isEnPassantTarget {
      return false;
    }
    return true;
  }

  method PawnMoves(board: Board, index: int) returns (result: seq<int>)
    requires board.Valid() && OnBoard(index) && board.positions[..][index].piece.Some?
    ensures forall t :: t in result <==>
              OnBoard(t) && PawnReaches(board.State(), board.positions[..][index].piece.value.color, index, t)
  {
    ghost var b := board.State();
    var src := board.positions[index];
    var color := src.piece.value.color;
    assert src.row == Row(index) by { assert b.positions[index] == Square(index, b.positions[index].piece); }
    var steps := [8, 9, 7];
    if src.row in [2, 7] {
      steps := steps + [16];
    }
    if color == White {
      steps := seq(|steps|, i requires 0 <= i < |steps| => -1 * steps[i]);
    }
    ghost var f := Forward(color);
    assert steps == if src.row in [2, 7] then [8 * f, 9 * f, 7 * f, 16 * f] else [8 * f, 9 * f, 7 * f];
    assert forall d :: d in steps <==> IsPawnStep(color, index, d);
    hide IsPawnStep;
    result := [];
    for i := 0 to |steps|
      invariant forall t :: t in result <==> OnBoard(t) && t - index in steps[..i] && PawnReaches(b, color, index, t)
    {
      var target := index + steps[i];
      assert target - index == steps[i];
      assert steps[..i + 1] == steps[..i] + [steps[i]];
      hide PawnReaches;
      if target >= 0 && target < 64 {
        var ok := PawnMayGo(board, index, color, target);
        if ok {
          result := result + [target];
        }
      }
    }
    assert steps[..|steps|] == steps;
    forall t | OnBoard(t) && PawnReaches(b, color, index, t) ensures t - index in steps {
      PawnStepsCover(b, color, index, t);
    }
  }

  // ----- Kings, threats and all moves --------------------------------------------------------------

  /** `r` lists exactly the squares the piece on `s` can move to. */
  ghost predicate ListsMoves(r: seq<int>, b: BoardState, s: int)
    requires |b.positions| == 64
  {
    forall t :: t in r <==> CanMove(b, s, t)
  }

  /** Whether (x, y) comes before (u, v) in the order the king's neighbours are tried in. */
  predicate Before(x: int, y: int, u: int, v: int) { x < u || (x == u && y < v) }

  lemma KingTargets(s: int, t: int, x: int, y: int)
    requires OnBoard(s) && OnBoard(t) && Dx(s, t) == x && Dy(s, t) == y
    ensures t == s + x + 8 * y
    ensures Dist(s, t) == 1 <==> -1 <= x <= 1 && -1 <= y <= 1 && (x != 0 || y != 0)
  {
  }

  /** The first piece met on a diagonal attacks the square. */
  method HasDiagonalThreat(board: Board, color: Color, index: int) returns (threatened: bool)
    requires board.Valid() && OnBoard(index)
    ensures threatened <==>
              exists step :: step in {-9, -7, 7, 9} && ThreatAlong(board.positions[..], color, index, step)
  {
    ghost var ps := board.positions[..];
    var diagonalSteps := [-7, 7, 9, -9];
    hide ThreatAlong, IsNext;
    for i := 0 to 4
      invariant forall step | step in diagonalSteps[..i] :: !ThreatAlong(ps, color, index, step)
    {
      var step := diagonalSteps[i];
      assert step in {-9, -7, 7, 9};
      var res := Next(board, color, index, step, AlongDiagonal);
      NextDecides(ps, color, index, step, res);
      if res.index > -1 {
        var piece := board.positions[res.index].piece.value;
        if (piece.kind.Pawn? || piece.kind.King?) && res.distance == 1 {
          if piece.kind.Pawn? && piece.color.Black? && step > 0 {
            continue;
          }
          if piece.kind.Pawn? && piece.color.White? && step < 0 {
            continue;
          }
          return true;
        }
        if piece.kind.Bishop? || piece.kind.Queen? {
          return true;
        }
      }
    }
    assert diagonalSteps[..4] == diagonalSteps;
    return false;
  }

  /** The first piece met on a rank or file attacks the square. */
  method HasStraightThreat(board: Board, color: Color, index: int) returns (threatened: bool)
    requires board.Valid() && OnBoard(index)
    ensures threatened <==>
              exists step :: step in {-8, -1, 1, 8} && ThreatAlong(board.positions[..], color, index, step)
  {
    ghost var ps := board.positions[..];
    var straightSteps := [1, -1, 8, -8];
    hide ThreatAlong, IsNext;
    for i := 0 to 4
      invariant forall step | step in straightSteps[..i] :: !ThreatAlong(ps, color, index, step)
    {
      var step := straightSteps[i];
      assert step in {-8, -1, 1, 8};
      var isHorizontal := Abs(step) == 1;
      var res := Next(board, color, index, step, if isHorizontal then AlongRank else AlongFile);
      NextDecides(ps, color, index, step, res);
      if res.index > -1 {
        var piece := board.positions[res.index].piece.value;
        if piece.kind.King? && res.distance == 1 {
          return true;
        }
        if piece.kind.Queen? || piece.kind.Rook? {
          return true;
        }
      }
    }
    assert straightSteps[..4] == straightSteps;
    return false;
  }

  /** A neighbour by index is a neighbour on the board when neither rank nor file wraps. */
  lemma KingNeighbour(ps: seq<Position>, s: int, x: int, y: int)
    requires WellFormed(ps) && OnBoard(s) && -1 <= x <= 1 && -1 <= y <= 1 && OnBoard(s + x + 8 * y)
    ensures var t := s + x + 8 * y;
            Abs(ps[s].row - ps[t].row) <= 1 && Abs(ps[s].column - ps[t].column) <= 1
            <==> Dx(s, t) == x && Dy(s, t) == y
  {
    var t := s + x + 8 * y;
    assert ps[s] == Square(s, ps[s].piece) && ps[t] == Square(t, ps[t].piece);
  }

  method TryKingStep(board: Board, color: Color, index: int, x: int, y: int) returns (ok: bool)
    requires board.Valid() && OnBoard(index) && -1 <= x <= 1 && -1 <= y <= 1
    modifies board.positions
    ensures board.positions[..] == old(board.positions[..])
    ensures ok <==> var t := index + x + 8 * y;
                    OnBoard(t) && KingSteps(board.State(), color, index, t) && Dx(index, t) == x && Dy(index, t) == y
    decreases 2, 2
  {
    var target := index + x + 8 * y;
    if y == 0 && x == 0 {
      return false;
    }
    if target < 0 || target > 63 {
      return false;
    }
    KingNeighbour(board.positions[..], index, x, y);
    KingTargets(index, target, Dx(index, target), Dy(index, target));
    hide WellFormed, Attacked, Dx, Dy, Dist;
    var src := board.positions[index];
    var pos := board.positions[target];
    var rowDiff := Abs(src.row - pos.row);
    var colDiff := Abs(src.column - pos.column);
    if rowDiff > 1 || colDiff > 1 {
      return false;
    }
    if pos.piece.Some? && pos.piece.value.color == color {
      return false;
    }
    var threatened := HasThreat(board, color, target);
    return !threatened;
  }

  /** The king's neighbours it may step onto, each tried in turn. */
  method KingSingleSteps(board: Board, color: Color, index: int) returns (result: seq<int>)
    requires board.Valid() && OnBoard(index)
    modifies board.positions
    ensures board.positions[..] == old(board.positions[..])
    ensures forall t :: t in result <==> KingSteps(board.State(), color, index, t)
    decreases 2, 3
  {
    ghost var b := board.State();
    result := [];
    forall t | KingSteps(b, color, index, t)
      ensures t == index + Dx(index, t) + 8 * Dy(index, t) && -1 <= Dx(index, t) <= 1 && -1 <= Dy(index, t) <= 1
    {
      KingTargets(index, t, Dx(index, t), Dy(index, t));
    }
    hide WellFormed, KingSteps, Dx, Dy;
    for x := -1 to 2
      invariant board.State() == b
      invariant forall t :: t in result <==> KingSteps(b, color, index, t) && Before(Dx(index, t), Dy(index, t), x, -1)
    {
      for y := -1 to 2
        invariant board.State() == b
        invariant forall t :: t in result <==> KingSteps(b, color, index, t) && Before(Dx(index, t), Dy(index, t), x, y)
      {
        var ok := TryKingStep(board, color, index, x, y);
        if ok {
          result := result + [index + x + 8 * y];
        }
      }
    }
  }

  /** One of the three squares a castling king stands on, crosses and reaches is threatened; `None` when the
      test runs off the board. */
  method HasCheckOnPath(board: Board, color: Color, index: int, kingSide: bool) returns (found: Option<bool>)
    requires board.Valid() && OnBoard(index)
    modifies board.positions
    ensures board.positions[..] == old(board.positions[..])
    ensures found.None? ==> !PathFits(board.positions[..], color, index, kingSide)
    ensures found == Some(true) ==>
              && !SafePath(board.positions[..], color, index, kingSide)
              && PathFits(board.positions[..], color, index, kingSide)
    ensures found == Some(false) ==> SafePath(board.positions[..], color, index, kingSide)
    decreases 2, 2
  {
    var step := if kingSide then 1 else -1;
    ghost var ps := board.positions[..];
    hide Attacked, WellFormed, Vacant;
    for i := 0 to 3
      invariant board.positions[..] == ps
      invariant i > 0 ==> Safe(ps, color, index)
      invariant i > 1 ==> Safe(ps, color, index + step)
      invariant i > 2 ==> Safe(ps, color, index + 2 * step)
    {
      // a threat to a square off the board is a threat to nothing: the search reads a square that is not there
      if !(0 <= index + i * step < 64) {
        return None;
      }
      var threatened := HasThreat(board, color, index + i * step);
      if threatened {
        return Some(true);
      }
    }
    return Some(false);
  }

  /** A piece stands between the king and the corner; `None` when the test runs off the board. */
  method HasPieceOnPath(board: Board, color: Color, index: int, kingSide: bool) returns (found: Option<bool>)
    requires board.Valid() && OnBoard(index) && SafePath(board.positions[..], color, index, kingSide)
    ensures found.None? <==> !PathFits(board.positions[..], color, index, kingSide)
    ensures found.Some? ==> (!found.value <==> OpenPath(board.positions[..], index, kingSide))
  {
    var step := if kingSide then 1 else -1;
    var pathLen := if kingSide then 2 else 3;
    hide Attacked;
    for i := 1 to pathLen + 1
      invariant i > 1 ==> Vacant(board.positions[..], index + step)
      invariant i > 2 ==> Vacant(board.positions[..], index + 2 * step)
      invariant i > 3 ==> Vacant(board.positions[..], index + 3 * step)
    {
      if !(0 <= index + step * i < 64) {
        return None;
      }
      if board.positions[index + step * i].piece.Some? {
        return Some(true);
      }
    }
    return Some(false);
  }

  /** No check and no piece on the path to one side. */
  method CanCastle(board: Board, color: Color, index: int, kingSide: bool) returns (castles: Option<bool>)
    requires board.Valid() && OnBoard(index)
    modifies board.positions
    ensures board.positions[..] == old(board.positions[..])
    ensures castles.None? <==> !PathFits(board.positions[..], color, index, kingSide)
    ensures castles.Some? ==>
              (castles.value <==>
                 && SafePath(board.positions[..], color, index, kingSide)
                 && OpenPath(board.positions[..], index, kingSide))
    decreases 3, 0
  {
    hide WellFormed, SafePath, OpenPath, PathFits;
    var check := HasCheckOnPath(board, color, index, kingSide);
    if check.None? {
      return None;
    }
    if check.value {
      return Some(false);
    }
    var blocked := HasPieceOnPath(board, color, index, kingSide);
    if blocked.None? {
      return None;
    }
    return Some(!blocked.value);
  }

  method KingMoves(board: Board, index: int) returns (result: Option<seq<int>>)
    requires board.Valid() && OnBoard(index) && board.positions[..][index].piece.Some?
    requires board.positions[..][index].piece.value.kind.King?
    modifies board.positions
    ensures board.positions[..] == old(board.positions[..])
    ensures result.None? <==> Unlistable(board.State(), index)
    ensures result.Some? ==> ListsMoves(result.value, board.State(), index)
    decreases 3, 1
  {
    ghost var b := board.State();
    var color := board.positions[index].piece.value.color;
    var castling := board.castle.Of(color);
    assert forall t :: CanMove(b, index, t) <==> KingSteps(b, color, index, t) || Castles(b, color, index, t);
    assert Unlistable(b, index) <==> !CastleFits(b, color, index);
    hide WellFormed, KingSteps, SafePath, OpenPath, CanMove, PathFits, Unlistable;
    var steps := KingSingleSteps(board, color, index);
    if castling == KingSide || castling == BothSides {
      var castles := CanCastle(board, color, index, true);
      if castles.None? {
        return None;
      }
      if castles.value {
        steps := steps + [index + 2];
      }
    }
    if castling == QueenSide || castling == BothSides {
      var castles := CanCastle(board, color, index, false);
      if castles.None? {
        return None;
      }
      if castles.value {
        steps := steps + [index - 2];
      }
    }
    result := Some(steps);
  }

  predicate IsKing(piece: Option<Piece>) { piece.Some? && piece.value.kind.King? }

  /** All squares the piece on `index` can move to, the safety of its own king aside; it throws without a piece. */
  method Moves(board: Board, index: int) returns (result: Option<seq<int>>)
    requires board.Valid() && OnBoard(index)
    modifies board.positions
    ensures board.positions[..] == old(board.positions[..])
    ensures result.None? <==> board.positions[..][index].piece.None? || Unlistable(board.State(), index)
    ensures result.Some? ==> ListsMoves(result.value, board.State(), index)
    decreases if IsKing(board.positions[..][index].piece) then 4 else 0, 0
  {
    if board.positions[index].piece.None? {
      return None;
    }
    var piece := board.positions[index].piece.value;
    if piece.kind.King? {
      result := KingMoves(board, index);
      return;
    }
    var targets;
    match piece.kind {
      case Knight => targets := KnightMoves(board, index);
      case Pawn => targets := PawnMoves(board, index);
      case Rook => targets := RookMoves(board, index);
      case Bishop => targets := BishopMoves(board, index);
      case _ => targets := QueenMoves(board, index);
    }
    result := Some(targets);
  }

  /** Tries out `replace` on a square, and puts the square back, even if listing its moves throws. */
  method MovesWithReplacement(board: Board, index: int, replace: Piece) returns (available: Option<seq<int>>)
    requires board.Valid() && OnBoard(index)
    modifies board.positions
    ensures board.positions[..] == old(board.positions[..])
    ensures var b := board.State();
            var tried := b.(positions := Put(b.positions, index, Some(replace)));
            && (available.None? <==> Unlistable(tried, index))
            && (available.Some? ==> ListsMoves(available.value, tried, index))
    decreases if replace.kind.King? then 5 else 1, 0
  {
    var current := board.positions[index].piece;
    board.Set(index, Some(replace));
    available := Moves(board, index);
    board.Set(index, current);
  }

  /** A knight of the square's own colour, tried out on it, could take a knight of the enemy. */
  method HasKnightThreat(board: Board, color: Color, index: int) returns (threatened: bool)
    requires board.Valid() && OnBoard(index)
    modifies board.positions
    ensures board.positions[..] == old(board.positions[..])
    ensures threatened <==> ThreatByKnight(board.positions[..], color, index)
    decreases 2, 0
  {
    ghost var ps := board.positions[..];
    var horse := Piece(Knight, color);
    var available := MovesWithReplacement(board, index, horse);
    var knightThreats := available.value;
    assert forall t :: t in knightThreats <==>
                         OnBoard(t) && Leaps(index, t) && !Occupied(Put(ps, index, Some(horse)), t, color);
    hide CanMove, Leaps;
    for i := 0 to |knightThreats|
      invariant forall j | 0 <= j < i :: !Holds(ps, knightThreats[j], Piece(Knight, color.Enemy()))
    {
      var threat := knightThreats[i];
      assert threat in knightThreats;
      var piece := board.positions[threat].piece;
      assert piece == ps[threat].piece;
      if piece.Some? && piece.value.color != color && piece.value.kind.Knight? {
        return true;
      }
    }
    return false;
  }

  /** Scans outwards from a square for the pieces attacking it. */
  method HasThreat(board: Board, color: Color, index: int) returns (threatened: bool)
    requires board.Valid() && OnBoard(index)
    modifies board.positions
    ensures board.positions[..] == old(board.positions[..])
    ensures threatened <==> Attacked(board.positions[..], color, index)
    decreases 2, 1
  {
    AttackedIsThreat(board.positions[..], color, index);
    hide Attacked, ThreatAlong, ThreatByKnight;
    threatened := HasDiagonalThreat(board, color, index);
    if threatened {
      return true;
    }
    threatened := HasStraightThreat(board, color, index);
    if threatened {
      return true;
    }
    threatened := HasKnightThreat(board, color, index);
  }

  // ----- Valid moves and endings -------------------------------------------------------------------

  /** Plays the move on the live board, looks for a threat to the mover's king, and takes the move back. It
      throws, leaving the move on the board, when there is no king to look for. */
  method IsValidMove(board: Board, source: int, target: int) returns (isValid: Option<bool>)
    requires board.Valid() && OnBoard(source)
    modifies board.positions
    ensures board.Valid()
    ensures isValid.None? <==> Stumbles(old(board.State()), source, target)
    ensures isValid.Some? ==> board.positions[..] == old(board.positions[..])
    ensures isValid.Some? ==> (isValid.value <==> Legal(board.State(), source, target))
  {
    ghost var b := board.State();
    var piece := board.positions[source].piece;
    if piece.None? {
      return Some(false);
    }
    if piece.value.color != board.next {
      return Some(false);
    }
    hide Unlistable;
    var available := Moves(board, source);
    if available.None? {
      return None;
    }
    hide CanMove, Attacked, WellFormed;
    if target !in available.value {
      return Some(false);
    }
    var targetPiece := board.positions[target].piece;
    board.Set(source, None);
    board.Set(target, piece);
    assert board.positions[..] == Played(b.positions, source, target);
    var king := KingSquare(board.positions[..], board.next);
    if king == -1 {
      return None;
    }
    var threatened := HasThreat(board, board.next, king);
    board.Set(source, piece);
    board.Set(target, targetPiece);
    assert board.positions[..] == b.positions;
    return Some(!threatened);
  }

  /** The targets that make a valid move. */
  method Filter(board: Board, index: int, targets: seq<int>) returns (valid: Option<seq<int>>)
    requires board.Valid() && OnBoard(index)
    modifies board.positions
    ensures board.Valid()
    ensures valid.None? <==> exists t | t in targets :: Stumbles(old(board.State()), index, t)
    ensures valid.Some? ==> board.positions[..] == old(board.positions[..])
    ensures valid.Some? ==> forall t :: t in valid.value <==> t in targets && Legal(board.State(), index, t)
  {
    ghost var b := board.State();
    hide WellFormed, Legal, Stumbles;
    var kept: seq<int> := [];
    for i := 0 to |targets|
      invariant board.State() == b
      invariant forall t :: t in kept <==> t in targets[..i] && Legal(b, index, t)
      invariant forall t | t in targets[..i] :: !Stumbles(b, index, t)
    {
      var target := targets[i];
      assert target in targets && targets[..i + 1] == targets[..i] + [target];
      var ok := IsValidMove(board, index, target);
      if ok.None? {
        return None;
      }
      if ok.value {
        kept := kept + [target];
      }
    }
    assert targets[..|targets|] == targets;
    return Some(kept);
  }

  /** The piece's generated moves are the only ones that can be valid, or make validation throw. */
  lemma OnlyGenerated(b: BoardState, s: int)
    requires |b.positions| == 64 && Occupied(b.positions, s, b.next)
    ensures Unlistable(b, s) ==> StumblesAt(b, s)
    ensures forall t :: Legal(b, s, t) ==> CanMove(b, s, t)
    ensures forall t :: Stumbles(b, s, t) ==> Unlistable(b, s) || CanMove(b, s, t)
  {
    assert Unlistable(b, s) ==> Stumbles(b, s, 0);
  }

  /** Whether one piece has a valid move. */
  method HasValidMove(board: Board, index: int) returns (found: Option<bool>)
    requires board.Valid() && OnBoard(index) && Occupied(board.positions[..], index, board.next)
    modifies board.positions
    ensures board.Valid()
    ensures found.None? <==> StumblesAt(old(board.State()), index)
    ensures found.Some? ==> board.positions[..] == old(board.positions[..])
    ensures found.Some? ==> (found.value <==> exists t :: Legal(board.State(), index, t))
  {
    ghost var b := board.State();
    OnlyGenerated(b, index);
    hide WellFormed, CanMove, Legal, Stumbles, Unlistable;
    var available := Moves(board, index);
    if available.None? {
      return None;
    }
    var valid := Filter(board, index, available.value);
    if valid.None? {
      return None;
    }
    assert |valid.value| > 0 ==> valid.value[0] in valid.value && Legal(b, index, valid.value[0]);
    return Some(|valid.value| > 0);
  }

  /** Some piece of the side to move has a valid move; the search stops at the first that has one. */
  method HasMoves(board: Board) returns (found: Option<bool>)
    requires board.Valid()
    modifies board.positions
    ensures board.Valid()
    ensures found.None? <==> SearchStumbles(old(board.State()))
    ensures found.Some? ==> board.positions[..] == old(board.positions[..])
    ensures found.Some? ==> (found.value <==> HasLegalMove(board.State()))
  {
    ghost var b := board.State();
    assert forall s, t :: Legal(b, s, t) || Stumbles(b, s, t) ==> Occupied(b.positions, s, b.next);
    hide WellFormed, Legal, Stumbles;
    for index := 0 to 64
      invariant board.State() == b
      invariant forall s, t :: Legal(b, s, t) ==> index <= s
      invariant forall s :: StumblesAt(b, s) ==> index <= s
    {
      var piece := board.positions[index].piece;
      if piece.Some? && piece.value.color == board.next {
        var valid := HasValidMove(board, index);
        if valid.None? {
          return None;
        }
        if valid.value {
          return Some(true);
        }
      }
    }
    return Some(false);
  }

  method Material(board: Board) returns (white: seq<Kind>, black: seq<Kind>)
    requires board.Valid()
    ensures white == Kinds(board.positions[..], White) && black == Kinds(board.positions[..], Black)
  {
    white, black := [], [];
    ghost var ps := board.positions[..];
    for i := 0 to 64
      invariant white == Kinds(ps[..i], White) && black == Kinds(ps[..i], Black)
    {
      assert ps[..i + 1][..i] == ps[..i];
      var piece := board.positions[i].piece;
      if piece.Some? {
        if piece.value.color == White {
          white := white + [piece.value.kind];
        } else {
          black := black + [piece.value.kind];
        }
      }
    }
    assert ps[..64] == ps;
  }

  /** The program's test for one colour: some pair has every kind among the material, and nothing more. */
  predicate MatchesPair(material: seq<Kind>) {
    exists pair | pair in [[King], [King, Bishop], [King, Knight]] ::
      (forall kind | kind in pair :: kind in material) && |material| == |pair|
  }

  lemma PairIsMultiset(material: seq<Kind>, minor: Kind)
    requires minor == Bishop || minor == Knight
    requires King in material && minor in material && |material| == 2
    ensures multiset(material) == multiset{King, minor}
  {
    assert material == [material[0], material[1]];
  }

  lemma MultisetIsPair(material: seq<Kind>, kinds: multiset<Kind>)
    requires multiset(material) == kinds
    ensures |material| == |kinds| && forall kind :: kind in kinds <==> kind in material
  {
    assert |multiset(material)| == |material|;
  }

  lemma MatchesPairMeaning(material: seq<Kind>)
    ensures MatchesPair(material) <==>
              multiset(material) in {multiset{King}, multiset{King, Bishop}, multiset{King, Knight}}
  {
    var pairs := [[King], [King, Bishop], [King, Knight]];
    if MatchesPair(material) {
      if |material| == 1 {
        assert material == [material[0]];
        assert King in pairs[0];
      } else {
        assert King in pairs[1] && King in pairs[2] && Bishop in pairs[1] && Knight in pairs[2];
        if Bishop in material { PairIsMultiset(material, Bishop); } else { PairIsMultiset(material, Knight); }
      }
    }
    if multiset(material) in {multiset{King}, multiset{King, Bishop}, multiset{King, Knight}} {
      MultisetIsPair(material, multiset(material));
      if multiset(material) == multiset{King} {
        assert pairs[0] in pairs;
      } else if multiset(material) == multiset{King, Bishop} {
        assert pairs[1] in pairs;
      } else {
        assert pairs[2] in pairs;
      }
    }
  }

  method HasInsufficientMaterial(board: Board) returns (r: bool)
    requires board.Valid()
    ensures r <==> CannotMate(board.positions[..], White) && CannotMate(board.positions[..], Black)
  {
    var white, black := Material(board);
    MatchesPairMeaning(white);
    MatchesPairMeaning(black);
    r := MatchesPair(white) && MatchesPair(black);
  }

  /** The king of the side to move is attacked; without a king the search throws. */
  method IsChecked(board: Board) returns (checked: Option<bool>)
    requires board.Valid()
    modifies board.positions
    ensures board.positions[..] == old(board.positions[..])
    ensures checked.None? <==> !HasKing(board.positions[..], board.next)
    ensures checked.Some? ==> (checked.value <==> InCheck(board.positions[..], board.next))
  {
    var king := KingSquare(board.positions[..], board.next);
    if king == -1 {
      return None;
    }
    var threatened := HasThreat(board, board.next, king);
    return Some(threatened);
  }

  /** The ending of the board, if any; `None` when the search for moves or for the king throws. */
  method GameResult(board: Board) returns (result: Option<Option<Ending>>)
    requires board.Valid()
    modifies board.positions
    ensures board.Valid()
    ensures var b := old(board.State()); result.None? <==> SearchStumbles(b) || !HasKing(b.positions, b.next)
    ensures result.Some? ==> board.positions[..] == old(board.positions[..])
    ensures result.Some? ==> result.value == EndingOf(board.State())
  {
    hide WellFormed, SearchStumbles, HasLegalMove, InCheck, HasKing, CannotMate;
    var moves := HasMoves(board);
    if moves.None? {
      return None;
    }
    var check := IsChecked(board);
    if check.None? {
      return None;
    }
    if !moves.value && check.value {
      return Some(Some(Checkmate));
    }
    if !moves.value && !check.value {
      return Some(Some(Stalemate));
    }
    if board.halfMoves >= 100 {
      return Some(Some(FiftyMoves));
    }
    var insufficient := HasInsufficientMaterial(board);
    if insufficient {
      return Some(Some(InsufficientMaterial));
    }
    return Some(None);
  }
}
