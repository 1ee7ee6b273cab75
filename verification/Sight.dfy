/** How the rays of `Scanning` and the lines of `Rules` fit together. */
module Sight {
  import opened Sequences
  import opened Boards
  import opened Rules
  import opened Scanning

  const STEPS: set<int> := {-9, -8, -7, -1, 1, 7, 8, 9}

  /** The index step that leads from `s` towards `t`. */
  function StepTo(s: int, t: int): int { Sgn(Dx(s, t)) + 8 * Sgn(Dy(s, t)) }

  /** `t` lies in the direction of `step` from `s`, with nothing in between. */
  ghost predicate Sees(ps: seq<Position>, s: int, step: int, t: int)
    requires |ps| == 64 && OnBoard(s)
  {
    OnBoard(t) && Lined(s, t) && StepTo(s, t) == step && Clear(ps, s, t)
  }

  lemma StepOfLine(s: int, t: int)
    requires OnBoard(s) && OnBoard(t) && Lined(s, t)
    ensures StepTo(s, t) in STEPS
    ensures StepX(StepTo(s, t)) == Sgn(Dx(s, t)) && StepY(StepTo(s, t)) == Sgn(Dy(s, t))
    ensures Straight(s, t) <==> StepTo(s, t) in {-8, -1, 1, 8}
    ensures Diagonal(s, t) <==> StepTo(s, t) in {-9, -7, 7, 9}
    ensures StepTo(t, s) == -StepTo(s, t) && Dist(t, s) == Dist(s, t) && Lined(t, s)
  {
  }

  /** Every square of a ray is in line with its start, at the distance travelled. */
  lemma RayIsLine(s: int, step: int, n: int)
    requires OnBoard(s) && step in STEPS && 1 <= n && Fits(s, StepX(step), StepY(step), n)
    ensures var t := Along(s, StepX(step), StepY(step), n);
            Lined(s, t) && StepTo(s, t) == step && Dist(s, t) == n
  {
    AlongCoordinates(s, StepX(step), StepY(step), n);
  }

  /** A line is a ray: its end is met after as many steps as the squares are apart. */
  lemma LineIsRay(s: int, t: int)
    requires OnBoard(s) && OnBoard(t) && Lined(s, t)
    ensures var step := StepTo(s, t);
            && (forall n | 1 <= n <= Dist(s, t) :: Fits(s, StepX(step), StepY(step), n)
                 && Along(s, StepX(step), StepY(step), n) == Toward(s, t, n))
            && Toward(s, t, Dist(s, t)) == t
  {
    StepOfLine(s, t);
  }

  lemma TowardBothWays(s: int, t: int, n: int)
    requires OnBoard(s) && OnBoard(t) && Lined(s, t) && Lined(t, s) && Dist(s, t) == Dist(t, s)
    requires 0 <= n <= Dist(s, t)
    ensures Toward(t, s, n) == Toward(s, t, Dist(s, t) - n)
  {
  }

  lemma ClearFromOtherEnd(ps: seq<Position>, s: int, t: int)
    requires |ps| == 64 && OnBoard(s) && OnBoard(t) && Lined(s, t) && Clear(ps, s, t)
    ensures Lined(t, s) && Clear(ps, t, s)
  {
    StepOfLine(s, t);
    forall n | 1 <= n < Dist(t, s) ensures ps[Toward(t, s, n)].piece.None? {
      TowardBothWays(s, t, n);
    }
  }

  /** Looking along a line from either end, the squares in between are the same. */
  lemma ClearBothWays(ps: seq<Position>, s: int, t: int)
    requires |ps| == 64 && OnBoard(s) && OnBoard(t) && Lined(s, t)
    ensures Lined(t, s) && Dist(s, t) == Dist(t, s)
    ensures Clear(ps, s, t) <==> Clear(ps, t, s)
  {
    StepOfLine(s, t);
    if Clear(ps, s, t) { ClearFromOtherEnd(ps, s, t); }
    if Clear(ps, t, s) { ClearFromOtherEnd(ps, t, s); }
  }

  /** `r` lists, once each, the squares a rider of this colour reaches in one direction. */
  ghost predicate IsReach(r: seq<int>, ps: seq<Position>, color: Color, s: int, step: int)
    requires |ps| == 64 && OnBoard(s)
  {
    NoDuplicates(r) && forall t :: t in r <==> Sees(ps, s, step, t) && !Occupied(ps, t, color)
  }

  /** `r` lists the nearest squares of the ray, all of them empty except possibly the last. */
  ghost predicate IsPath(r: seq<int>, ps: seq<Position>, s: int, step: int)
    requires |ps| == 64 && OnBoard(s)
  {
    && (forall n | 1 <= n <= |r| ::
          Fits(s, StepX(step), StepY(step), n) && r[n - 1] == Along(s, StepX(step), StepY(step), n))
    && (forall n | 1 <= n < |r| ::
          Fits(s, StepX(step), StepY(step), n) && ps[Along(s, StepX(step), StepY(step), n)].piece.None?)
  }

  /** Why a path ends: the edge, a piece of its own colour ahead, or a piece taken. */
  ghost predicate Ends(r: seq<int>, ps: seq<Position>, color: Color, s: int, step: int)
    requires |ps| == 64 && OnBoard(s)
  {
    || !Fits(s, StepX(step), StepY(step), |r| + 1)
    || Occupied(ps, Along(s, StepX(step), StepY(step), |r| + 1), color)
    || (r != [] && OnBoard(r[|r| - 1]) && ps[r[|r| - 1]].piece.Some?)
  }

  lemma EmptyPath(ps: seq<Position>, s: int, step: int)
    requires |ps| == 64 && OnBoard(s)
    ensures IsPath([], ps, s, step)
  {
  }

  lemma PathGrows(r: seq<int>, ps: seq<Position>, s: int, step: int)
    requires |ps| == 64 && OnBoard(s) && IsPath(r, ps, s, step)
    requires Fits(s, StepX(step), StepY(step), |r| + 1)
    requires r != [] ==>
               Fits(s, StepX(step), StepY(step), |r|) && ps[Along(s, StepX(step), StepY(step), |r|)].piece.None?
    ensures IsPath(r + [Along(s, StepX(step), StepY(step), |r| + 1)], ps, s, step)
    ensures r != [] ==> r[|r| - 1] == Along(s, StepX(step), StepY(step), |r|)
  {
    hide Fits, Along, StepX, StepY;
  }

  lemma PathIsSeen(r: seq<int>, ps: seq<Position>, s: int, step: int, n: int)
    requires |ps| == 64 && OnBoard(s) && step in STEPS && IsPath(r, ps, s, step) && 1 <= n <= |r|
    ensures Sees(ps, s, step, r[n - 1]) && Dist(s, r[n - 1]) == n
  {
    RayIsLine(s, step, n);
    LineIsRay(s, r[n - 1]);
    hide Fits, Along, StepX, StepY, Lined, Toward, StepTo, Dist;
  }

  lemma SeenIsOnPath(r: seq<int>, ps: seq<Position>, color: Color, s: int, step: int, t: int)
    requires |ps| == 64 && OnBoard(s) && step in STEPS && IsPath(r, ps, s, step) && Ends(r, ps, color, s, step)
    requires Sees(ps, s, step, t) && !Occupied(ps, t, color)
    ensures t in r
  {
    LineIsRay(s, t);
    var n := Dist(s, t);
    assert 1 <= n;
    hide Fits, Along, StepX, StepY, Lined, Toward, StepTo, Dist;
    assert |r| < n ==> Fits(s, StepX(step), StepY(step), |r| + 1);
    assert 0 < |r| < n ==> Fits(s, StepX(step), StepY(step), |r|);
    assert n <= |r|;
    assert Fits(s, StepX(step), StepY(step), n);
    assert r[n - 1] == t;
  }

  lemma PathIsReach(r: seq<int>, ps: seq<Position>, color: Color, s: int, step: int)
    requires |ps| == 64 && OnBoard(s) && step in STEPS && IsPath(r, ps, s, step) && Ends(r, ps, color, s, step)
    requires forall t | t in r :: !Occupied(ps, t, color)
    ensures IsReach(r, ps, color, s, step)
  {
    forall i | 0 <= i < |r| ensures Sees(ps, s, step, r[i]) && Dist(s, r[i]) == i + 1 {
      PathIsSeen(r, ps, s, step, i + 1);
    }
    hide Fits, Along, StepX, StepY, Sees, Dist, IsPath, Ends;
    forall t ensures t in r <==> Sees(ps, s, step, t) && !Occupied(ps, t, color) {
      if Sees(ps, s, step, t) && !Occupied(ps, t, color) {
        SeenIsOnPath(r, ps, color, s, step, t);
      }
    }
  }
}
