/** Walking the board in one direction: `scan` and `next`. */
module Scanning {
  import opened Boards
  import opened Rules

  datatype Verify = AlongDiagonal | AlongRank | AlongFile

  datatype Result = Result(index: int, distance: int)

  /** The direction of an index step: how many ranks down and how many files right it goes. */
  function StepY(step: int): int { if step > 1 then 1 else if step < -1 then -1 else 0 }

  function StepX(step: int): int { step - 8 * StepY(step) }

  /** The step and verify pairs the program uses. */
  predicate IsStep(step: int, verify: Verify) {
    match verify
    case AlongDiagonal => step in {-9, -7, 7, 9}
    case AlongRank => step in {-1, 1}
    case AlongFile => step in {-8, 8}
  }

  /** `rs` lists the first squares from `index` in the direction of `step`, nearest first. */
  ghost predicate IsRayPrefix(rs: seq<Result>, index: int, step: int)
    requires OnBoard(index)
  {
    forall n | 1 <= n <= |rs| ::
      && Fits(index, StepX(step), StepY(step), n)
      && rs[n - 1] == Result(Along(index, StepX(step), StepY(step), n), n)
  }

  /** `rs` lists all squares from `index` in the direction of `step` up to the edge, nearest first. */
  ghost predicate IsRay(rs: seq<Result>, index: int, step: int)
    requires OnBoard(index)
  {
    IsRayPrefix(rs, index, step) && forall k | |rs| < k :: !Fits(index, StepX(step), StepY(step), k)
  }

  /** The test `scan` makes on the next square. */
  predicate Passes(ps: seq<Position>, current: int, to: int, verify: Verify)
    requires |ps| == 64 && OnBoard(current)
  {
    && OnBoard(to)
    && match verify
       case AlongFile => ps[to].column == ps[current].column
       case AlongRank => ps[to].row == ps[current].row
       case AlongDiagonal =>
         Abs(ps[current].column - ps[to].column) == 1 && Abs(ps[current].row - ps[to].row) == 1
  }

  lemma StartOfRay(index: int, step: int)
    requires OnBoard(index)
    ensures Fits(index, StepX(step), StepY(step), 0) && Along(index, StepX(step), StepY(step), 0) == index
    ensures IsRayPrefix([], index, step)
  {
  }

  lemma RayEnds(index: int, step: int, n: int)
    requires OnBoard(index) && 1 <= n && !Fits(index, StepX(step), StepY(step), n)
    ensures forall k | n <= k :: !Fits(index, StepX(step), StepY(step), k)
  {
  }

  lemma NoWrapStraight(i: int, step: int)
    requires OnBoard(i) && step in {-8, -1, 1, 8}
    ensures Fits(i, StepX(step), StepY(step), 1) <==>
              OnBoard(i + step) && (if Abs(step) == 1 then Row(i + step) == Row(i) else Column(i + step) == Column(i))
  {
  }

  lemma NoWrapDiagonal(i: int, step: int)
    requires OnBoard(i) && step in {-9, -7, 7, 9}
    ensures Fits(i, StepX(step), StepY(step), 1) <==>
              OnBoard(i + step) && Abs(Column(i) - Column(i + step)) == 1 && Abs(Row(i) - Row(i + step)) == 1
  {
  }

  lemma PassesIsFits(ps: seq<Position>, current: int, step: int, verify: Verify)
    requires WellFormed(ps) && OnBoard(current) && IsStep(step, verify)
    ensures Passes(ps, current, current + step, verify) <==> Fits(current, StepX(step), StepY(step), 1)
  {
    assert ps[current] == Square(current, ps[current].piece);
    assert OnBoard(current + step) ==> ps[current + step] == Square(current + step, ps[current + step].piece);
    hide WellFormed, Fits, StepX, StepY, Row, Column;
    if verify == AlongDiagonal {
      NoWrapDiagonal(current, step);
    } else {
      NoWrapStraight(current, step);
    }
  }

  /** Going one step further along a ray is one step from where the ray has got to. */
  lemma OneFurther(index: int, step: int, n: nat)
    requires OnBoard(index) && Fits(index, StepX(step), StepY(step), n) && step in {-9, -8, -7, -1, 1, 7, 8, 9}
    ensures n <= 7
    ensures var current := Along(index, StepX(step), StepY(step), n);
            && (Fits(index, StepX(step), StepY(step), n + 1) <==> Fits(current, StepX(step), StepY(step), 1))
            && (Fits(index, StepX(step), StepY(step), n + 1) ==>
                  Along(index, StepX(step), StepY(step), n + 1) == current + step)
  {
    AlongCoordinates(index, StepX(step), StepY(step), n);
  }

  /** With `rs` collected so far, the test on the next square holds exactly when the ray goes on. */
  lemma ScanStep(ps: seq<Position>, index: int, step: int, verify: Verify, rs: seq<Result>)
    requires WellFormed(ps) && OnBoard(index) && IsStep(step, verify)
    requires Fits(index, StepX(step), StepY(step), |rs|) && IsRayPrefix(rs, index, step)
    ensures |rs| <= 7
    ensures var current := Along(index, StepX(step), StepY(step), |rs|);
            if Passes(ps, current, current + step, verify) then
              && Fits(index, StepX(step), StepY(step), |rs| + 1)
              && Along(index, StepX(step), StepY(step), |rs| + 1) == current + step
            else
              IsRay(rs, index, step)
  {
    OneFurther(index, step, |rs|);
    PassesIsFits(ps, Along(index, StepX(step), StepY(step), |rs|), step, verify);
    hide Fits, Along, StepX, StepY, Passes, WellFormed;
    if !Fits(index, StepX(step), StepY(step), |rs| + 1) {
      RayEnds(index, step, |rs| + 1);
    }
  }

  lemma RayGrows(rs: seq<Result>, index: int, step: int)
    requires OnBoard(index) && IsRayPrefix(rs, index, step) && Fits(index, StepX(step), StepY(step), |rs| + 1)
    ensures IsRayPrefix(rs + [Result(Along(index, StepX(step), StepY(step), |rs| + 1), |rs| + 1)], index, step)
  {
    hide Fits, Along, StepX, StepY;
  }

  method Scan(board: Board, index: int, step: int, verify: Verify) returns (rs: seq<Result>)
    requires board.Valid() && OnBoard(index) && IsStep(step, verify)
    ensures IsRay(rs, index, step)
  {
    var current, distance := index, 0;
    var last := board.positions[index];
    rs := [];
    ghost var ps := board.positions[..];
    assert board.positions.Length == 64;
    hide Fits, Along, StepX, StepY, IsStep, WellFormed, IsRay, IsRayPrefix;
    StartOfRay(index, step);
    while true
      invariant distance == |rs| && Fits(index, StepX(step), StepY(step), distance)
      invariant current == Along(index, StepX(step), StepY(step), distance)
      invariant last == ps[current]
      invariant IsRayPrefix(rs, index, step)
      decreases 8 - distance
    {
      ScanStep(ps, index, step, verify, rs);
      current := current + step;
      distance := distance + 1;
      if current < 0 || current > 63 {
        return;
      }
      var here := board.positions[current];
      if verify == AlongFile && here.column != last.column {
        return;
      }
      if verify == AlongRank && here.row != last.row {
        return;
      }
      if verify == AlongDiagonal {
        var xDiff := Abs(last.column - here.column);
        var yDiff := Abs(last.row - here.row);
        if xDiff != 1 || yDiff != 1 {
          return;
        }
      }
      last := here;
      RayGrows(rs, index, step);
      rs := rs + [Result(current, distance)];
    }
  }

  /** The first occupied square of a ray, if it holds a piece not of `color`. */
  ghost predicate IsNext(ps: seq<Position>, r: Result, color: Color, index: int, step: int)
    requires |ps| == 64 && OnBoard(index)
  {
    var dx, dy := StepX(step), StepY(step);
    if r.index > -1 then
      && 1 <= r.distance && Fits(index, dx, dy, r.distance)
      && r.index == Along(index, dx, dy, r.distance)
      && Occupied(ps, r.index, color.Enemy())
      && forall k | 1 <= k < r.distance :: Fits(index, dx, dy, k) && ps[Along(index, dx, dy, k)].piece.None?
    else
      && r == Result(-1, -1)
      && forall n | 1 <= n && Fits(index, dx, dy, n) && Occupied(ps, Along(index, dx, dy, n), color.Enemy()) ::
           exists k | 1 <= k < n :: Fits(index, dx, dy, k) && ps[Along(index, dx, dy, k)].piece.Some?
  }

  method Next(board: Board, color: Color, index: int, step: int, verify: Verify) returns (r: Result)
    requires board.Valid() && OnBoard(index) && IsStep(step, verify)
    ensures IsNext(board.positions[..], r, color, index, step)
  {
    hide Fits, Along, StepX, StepY;
    var empty := Result(-1, -1);
    var rs := Scan(board, index, step, verify);
    ghost var dx, dy := StepX(step), StepY(step);
    ghost var ps := board.positions[..];
    for i := 0 to |rs|
      invariant forall k | 1 <= k <= i :: Fits(index, dx, dy, k) && ps[Along(index, dx, dy, k)].piece.None?
    {
      var res := rs[i];
      assert Fits(index, dx, dy, i + 1) && res == Result(Along(index, dx, dy, i + 1), i + 1);
      var piece := board.positions[res.index].piece;
      assert ps[Along(index, dx, dy, i + 1)].piece == piece;
      if piece.Some? && piece.value.color == color {
        return empty;
      }
      if piece.Some? && piece.value.color != color {
        return res;
      }
    }
    return empty;
  }
}
