/** What a run depends on: the codes and the board, and not the clock of an untimed game. */
module SameGames {
  import opened Fen
  import opened Games
  import opened Runs

  /** Requests are not timed, and both sides have time left. */
  predicate Untimed(g: GameState) {
    && g.lastRequest <= 0 && g.time.white > 0 && g.time.black > 0 && g.timeback.white >= 0 && g.timeback.black >= 0
  }

  /** The games go on alike. */
  ghost predicate Alike(g: GameState, h: GameState) {
    g.board == h.board && g.positionHistory == h.positionHistory && (g.status == Active <==> h.status == Active)
  }

  /** A move accepted in one of two alike games is accepted at any time in the other if that is untimed. */
  lemma AlikeAfter(g: GameState, h: GameState, code: string, now: int, when: int)
    requires Ordered(g.board) && Alike(g, h) && Untimed(g) && Accepts(h, code, when)
    ensures Accepts(g, code, now)
    ensures Untimed(AfterMove(g, code, now)) && Alike(AfterMove(g, code, now), AfterMove(h, code, when))
  {
    hide Ordered, Takes, ParseMove, BoardAfter, Hash, Verdict;
  }

  lemma {:induction false} AlikeRuns(g: GameState, turns: seq<Turn>, h: GameState, others: seq<Turn>)
    requires Ordered(g.board) && Alike(g, h) && Untimed(g) && IsRun(g, turns) && IsRun(h, others)
    requires |turns| == |others| && forall i | 0 <= i < |turns| :: turns[i].code == others[i].code
    ensures Untimed(After(g, turns)) && Alike(After(g, turns), After(h, others))
    decreases |turns|
  {
    if turns != [] {
      AlikeAfter(g, h, turns[0].code, turns[0].now, others[0].now);
      hide Ordered, Accepts, Untimed, Alike, AfterMove;
      AlikeRuns(AfterMove(g, turns[0].code, turns[0].now), turns[1..],
                AfterMove(h, others[0].code, others[0].now), others[1..]);
    }
  }

  lemma OnlyActiveAccepts(g: GameState, turn: Turn)
    requires Ordered(g.board)
    ensures Accepts(g, turn.code, turn.now) ==> g.status == Active
  {
  }

  /** A run that stands where no turn of the other can be played, while the other has ended, is as long as it. */
  lemma EndedTogether(g: GameState, turns: seq<Turn>, h: GameState, others: seq<Turn>)
    requires Ordered(g.board) && Alike(g, h) && Untimed(g) && IsRun(g, turns) && IsRun(h, others)
    requires forall i | 0 <= i < |turns| && i < |others| :: turns[i].code == others[i].code
    requires After(h, others).status != Active
    ensures |turns| <= |others|
    ensures After(g, turns).status != Active ==> |turns| == |others|
    ensures |turns| < |others| ==> forall now :: Accepts(After(g, turns), others[|turns|].code, now)
    ensures |turns| == |others| ==> After(g, turns).status != Active
  {
    hide Ordered, Untimed, Accepts, AfterMove;
    var (m, n) := (|turns|, |others|);
    if n < m {
      RunPrefix(g, turns, n);
      AlikeRuns(g, turns[..n], h, others);
      OnlyActiveAccepts(After(g, turns[..n]), turns[n]);
    } else if m < n {
      RunPrefix(h, others, m);
      AlikeRuns(g, turns, h, others[..m]);
      OnlyActiveAccepts(After(h, others[..m]), others[m]);
      forall now ensures Accepts(After(g, turns), others[m].code, now) {
        AlikeAfter(After(g, turns), After(h, others[..m]), others[m].code, now, others[m].now);
      }
    } else {
      AlikeRuns(g, turns, h, others);
    }
  }
}
