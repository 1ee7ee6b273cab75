/** What a scan outwards from a square says about the pieces attacking it. */
module Threats {
  import opened Boards
  import opened Rules
  import opened Scanning
  import opened Sight

  /** Some piece not of the given colour attacks `t` along the ray that leaves `t` by `step`. */
  ghost predicate ThreatAlong(ps: seq<Position>, color: Color, t: int, step: int)
    requires |ps| == 64 && OnBoard(t)
  {
    exists s :: Attacker(ps, color, s, t) && Sees(ps, t, step, s)
  }

  ghost predicate ThreatByKnight(ps: seq<Position>, color: Color, t: int) {
    exists s :: Holds(ps, s, Piece(Knight, color.Enemy())) && Leaps(t, s)
  }

  /** Whether a piece met at the end of a clear line attacks back along it: what `hasThreat` asks of the
      first piece it meets. */
  predicate Strikes(p: Piece, step: int, distance: int) {
    if step in {-9, -7, 7, 9} then
      match p.kind
      case Pawn => distance == 1 && (step < 0 <==> p.color == Black)
      case King => distance == 1
      case Bishop => true
      case Queen => true
      case _ => false
    else
      match p.kind
      case King => distance == 1
      case Rook => true
      case Queen => true
      case _ => false
  }

  lemma OnlyOneInSight(ps: seq<Position>, color: Color, t: int, step: int, r: Result, s: int)
    requires |ps| == 64 && OnBoard(t) && step in STEPS && IsNext(ps, r, color, t, step)
    requires Sees(ps, t, step, s) && Occupied(ps, s, color.Enemy())
    ensures s == r.index
  {
    LineIsRay(t, s);
    var n := Dist(t, s);
    assert 1 <= n;
    hide Fits, Along, StepX, StepY, Lined, Toward, StepTo, Dist;
    assert Fits(t, StepX(step), StepY(step), n);
    assert 1 <= r.distance < n ==> Fits(t, StepX(step), StepY(step), r.distance);
  }

  /** The first piece of a ray is the only one not of `color` that is in sight there. */
  lemma NextIsInSight(ps: seq<Position>, color: Color, t: int, step: int, r: Result)
    requires |ps| == 64 && OnBoard(t) && step in STEPS && IsNext(ps, r, color, t, step)
    ensures r.index > -1 ==>
              OnBoard(r.index) && Sees(ps, t, step, r.index) && Dist(t, r.index) == r.distance
              && Occupied(ps, r.index, color.Enemy())
    ensures forall s :: Sees(ps, t, step, s) && Occupied(ps, s, color.Enemy()) ==> s == r.index
  {
    if r.index > -1 {
      RayIsLine(t, step, r.distance);
      LineIsRay(t, r.index);
    }
    forall s | Sees(ps, t, step, s) && Occupied(ps, s, color.Enemy()) ensures s == r.index {
      OnlyOneInSight(ps, color, t, step, r, s);
    }
  }

  lemma StrikesIsAttack(ps: seq<Position>, color: Color, t: int, s: int)
    requires |ps| == 64 && OnBoard(t) && Occupied(ps, s, color.Enemy()) && Sees(ps, t, StepTo(t, s), s)
    ensures Attacker(ps, color, s, t) <==> Strikes(ps[s].piece.value, StepTo(t, s), Dist(t, s))
  {
    StepOfLine(t, s);
    ClearBothWays(ps, t, s);
    hide Clear;
  }

  lemma NextDecides(ps: seq<Position>, color: Color, t: int, step: int, r: Result)
    requires |ps| == 64 && OnBoard(t) && step in STEPS && IsNext(ps, r, color, t, step)
    ensures r.index > -1 ==> OnBoard(r.index) && ps[r.index].piece.Some?
    ensures ThreatAlong(ps, color, t, step) <==>
              r.index > -1 && Strikes(ps[r.index].piece.value, step, r.distance)
  {
    NextIsInSight(ps, color, t, step, r);
    if r.index > -1 {
      StrikesIsAttack(ps, color, t, r.index);
    }
    hide Strikes, PieceAttacks, Fits, Along, Lined, StepTo, Dist, Clear, IsNext;
  }

  /** An attacker stands a knight's leap away, or is seen along one of the eight rays. */
  lemma AttackerIsInSight(ps: seq<Position>, color: Color, s: int, t: int)
    requires |ps| == 64 && OnBoard(t) && Attacker(ps, color, s, t)
    ensures (Holds(ps, s, Piece(Knight, color.Enemy())) && Leaps(t, s))
         || (Sees(ps, t, StepTo(t, s), s) && StepTo(t, s) in STEPS)
  {
    if !ps[s].piece.value.kind.Knight? {
      assert Lined(s, t);
      StepOfLine(s, t);
      StepOfLine(t, s);
      ClearBothWays(ps, s, t);
    }
  }

  /** A square is attacked exactly when one of the eight rays, or a knight's leap, finds an attacker. */
  lemma AttackedIsThreat(ps: seq<Position>, color: Color, t: int)
    requires |ps| == 64 && OnBoard(t)
    ensures Attacked(ps, color, t) <==>
              || ThreatByKnight(ps, color, t)
              || (exists step :: step in STEPS && ThreatAlong(ps, color, t, step))
  {
    if Attacked(ps, color, t) {
      var s :| Attacker(ps, color, s, t);
      AttackerIsInSight(ps, color, s, t);
    }
    if ThreatByKnight(ps, color, t) {
      var s :| Holds(ps, s, Piece(Knight, color.Enemy())) && Leaps(t, s);
      assert Attacker(ps, color, s, t);
    }
  }
}
