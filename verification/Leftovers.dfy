/** The boards that calls without a replay leave noted, and what becomes of the notations of a later replay. */
module Leftovers {
  import opened Boards
  import opened Rules
  import opened Moving
  import opened Castling
  import opened Fen
  import opened Games
  import opened Start
  import opened Runs
  import opened SameGames
  import opened Reports

  // ----- What failed calls leave --------------------------------------------------------------------------

  /** No next code of the lists is accepted where the run has got to. */
  ghost predicate IsMaximal(g: GameState, turns: seq<Turn>, white: seq<string>, black: seq<string>)
    requires Ordered(g.board) && IsRun(g, turns)
  {
    forall code :: IsInterleaved(code, white, black, |turns|) ==> !Accepts(After(g, turns), code, 0)
  }

  /** The notations of the boards of a run that goes as far as the lists do. */
  ghost predicate IsNoted(fens: seq<string>, g: GameState, turns: seq<Turn>, white: seq<string>, black: seq<string>) {
    && PlaysLists(g, turns, white, black) && Untimed(g)
    && IsMaximal(g, turns, white, black) && fens == BoardTexts(g, turns)
  }

  ghost predicate IsAttempt(fens: seq<string>, white: seq<string>, black: seq<string>) {
    exists g, turns :: IsNoted(fens, g, turns, white, black)
  }

  lemma Attempted(fens: seq<string>, g: GameState, turns: seq<Turn>, white: seq<string>, black: seq<string>)
    requires IsNoted(fens, g, turns, white, black)
    ensures IsAttempt(fens, white, black)
  {
    hide IsNoted;
  }

  /** The game is over after the run, and no null move is in it. */
  ghost predicate IsWhole(g: GameState, turns: seq<Turn>)
    requires Ordered(g.board) && IsRun(g, turns)
  {
    After(g, turns).status == Expired && forall i | 0 <= i < |turns| :: !IsNull(MoveOf(turns[i]))
  }

  ghost predicate IsOpeningBoard(text: string, b: BoardState) {
    Encodable(b) && text == Encode(b) && HalfTurns(b) == HalfTurns(StartBoard()) + 1
  }

  /** A board that the first move of a game leads to. */
  ghost predicate IsOpeningText(text: string) {
    exists b :: IsOpeningBoard(text, b)
  }

  /** The notes begin with the boards of a run that is no whole game, and go on with those of a new one. */
  ghost predicate IsLeftBy(notes: seq<string>, g: GameState, turns: seq<Turn>) {
    && IsFresh(g) && Ordered(g.board) && IsRun(g, turns) && turns != [] && !IsWhole(g, turns)
    && BoardTexts(g, turns) <= notes
    && (|turns| < |notes| ==> IsOpeningText(notes[|turns|]))
  }

  /** What calls that gave no replay have left. */
  ghost predicate AreLeftovers(notes: seq<string>) {
    notes == [] || exists g, turns :: IsLeftBy(notes, g, turns)
  }

  /** The notation after turn i tells how many turns were played. */
  lemma TextCounts(g: GameState, turns: seq<Turn>, i: nat) returns (b: BoardState)
    requires Ordered(g.board) && IsRun(g, turns) && i < |turns|
    ensures Encodable(b) && BoardTexts(g, turns)[i] == Encode(b) && HalfTurns(b) == HalfTurns(g.board) + i + 1
  {
    hide *;
    BoardTextAt(g, turns, i);
    b := After(g, turns[..i + 1]).board;
    TurnsAreCounted(g, turns[..i + 1]);
  }

  lemma EncodedHalfTurns(b: BoardState, c: BoardState)
    requires Encodable(b) && Encodable(c) && Encode(b) == Encode(c)
    ensures HalfTurns(b) == HalfTurns(c)
  {
    EncodeIsInjective(b, c);
  }

  /** No two boards of one run have the same notation. */
  lemma TextsDiffer(g: GameState, turns: seq<Turn>, i: nat, j: nat)
    requires Ordered(g.board) && IsRun(g, turns) && i < j < |turns|
    ensures BoardTexts(g, turns)[i] != BoardTexts(g, turns)[j]
  {
    hide *;
    var b := TextCounts(g, turns, i);
    var c := TextCounts(g, turns, j);
    if Encode(b) == Encode(c) {
      EncodedHalfTurns(b, c);
    }
  }

  lemma FirstTextOpens(g: GameState, turns: seq<Turn>)
    requires IsFresh(g) && Ordered(g.board) && IsRun(g, turns) && turns != []
    ensures BoardTexts(g, turns) != [] && IsOpeningText(BoardTexts(g, turns)[0])
  {
    var b := TextCounts(g, turns, 0);
    hide Ordered, IsRun, BoardTexts, Encode, Encodable, HalfTurns;
    assert IsOpeningBoard(BoardTexts(g, turns)[0], b);
  }

  /** A board with a different number of turns behind it than the opening has another notation. */
  lemma LaterIsNoOpening(g: GameState, turns: seq<Turn>, i: nat)
    requires IsFresh(g) && Ordered(g.board) && IsRun(g, turns) && 0 < i < |turns|
    ensures !IsOpeningText(BoardTexts(g, turns)[i])
  {
    var b := TextCounts(g, turns, i);
    hide Ordered, IsRun, BoardTexts, Encode, Encodable, HalfTurns;
    if IsOpeningText(BoardTexts(g, turns)[i]) {
      var c :| IsOpeningBoard(BoardTexts(g, turns)[i], c);
      EncodedHalfTurns(b, c);
    }
  }

  // ----- Runs over the same boards ------------------------------------------------------------------------

  /** A move that is not null empties the square it starts from. */
  lemma RealMoveMoves(b: BoardState, m: Move)
    requires Ordered(b) && Takes(b, m)
    ensures IsNull(m) <==> BoardAfter(b, m).positions == b.positions
  {
    if !IsNull(m) {
      AcceptedIsPerformable(b, m);
      if IsCastling(b, m) {
        CastlingMovesCorner(b, m);
      }
      assert m.source != m.target by {
        hide Attacked, Clear;
      }
      assert SquaresAfter(b, m)[m.source].piece.None?;
    }
  }

  /** Two turns that lead from the same board to the same board leave alike games alike. */
  lemma SameBoardAlike(g: GameState, turn: Turn, h: GameState, other: Turn)
    requires Ordered(g.board) && Alike(g, h) && Accepts(g, turn.code, turn.now) && Accepts(h, other.code, other.now)
    requires AfterMove(g, turn.code, turn.now).board == AfterMove(h, other.code, other.now).board
    ensures Alike(AfterMove(g, turn.code, turn.now), AfterMove(h, other.code, other.now))
    ensures IsNull(MoveOf(turn)) <==> IsNull(MoveOf(other))
  {
    TurnMovesBoard(g, turn);
    TurnMovesBoard(h, other);
    RealMoveMoves(g.board, MoveOf(turn));
    RealMoveMoves(h.board, MoveOf(other));
    hide Ordered, Takes, BoardAfter, Accepts, AfterMove, MoveOf, Hash, Verdict;
  }

  lemma TextsLength(g: GameState, turns: seq<Turn>)
    requires Ordered(g.board) && IsRun(g, turns)
    ensures |BoardTexts(g, turns)| == |turns|
  {
  }

  lemma FirstOfTexts(a: string, s: seq<string>, b: string, t: seq<string>)
    requires [a] + s == [b] + t
    ensures a == b && s == t
  {
    assert ([a] + s)[0] == a && ([b] + t)[0] == b;
    assert ([a] + s)[1..] == s && ([b] + t)[1..] == t;
  }

  /** Two runs over the same boards end alike, with null moves at the same turns. */
  lemma {:induction false} SameTextsAlike(g: GameState, turns: seq<Turn>, h: GameState, others: seq<Turn>)
    requires Ordered(g.board) && Alike(g, h) && IsRun(g, turns) && Ordered(h.board) && IsRun(h, others)
    requires BoardTexts(g, turns) == BoardTexts(h, others)
    ensures |turns| == |others| && Alike(After(g, turns), After(h, others))
    ensures forall i | 0 <= i < |turns| :: IsNull(MoveOf(turns[i])) <==> IsNull(MoveOf(others[i]))
    decreases |turns|
  {
    hide *;
    TextsLength(g, turns);
    TextsLength(h, others);
    if turns == [] {
      NoTexts(g, turns);
      NoTexts(h, others);
    } else {
      FirstText(g, turns);
      FirstText(h, others);
      var (r, q) := (AfterMove(g, turns[0].code, turns[0].now), AfterMove(h, others[0].code, others[0].now));
      FirstOfTexts(Encode(r.board), BoardTexts(r, turns[1..]), Encode(q.board), BoardTexts(q, others[1..]));
      EncodeIsInjective(r.board, q.board);
      SameBoardAlike(g, turns[0], h, others[0]);
      SameTextsAlike(r, turns[1..], q, others[1..]);
      forall i | 0 <= i < |turns| ensures IsNull(MoveOf(turns[i])) <==> IsNull(MoveOf(others[i])) {
        if i > 0 {
          assert turns[i] == turns[1..][i - 1] && others[i] == others[1..][i - 1];
        }
      }
    }
  }

  // ----- Leftovers grow, and spoil ------------------------------------------------------------------------

  lemma LeftByAll(notes: seq<string>, g: GameState, turns: seq<Turn>)
    requires IsLeftBy(notes, g, turns)
    ensures IsFresh(g) && Ordered(g.board) && IsRun(g, turns) && turns != [] && !IsWhole(g, turns)
    ensures BoardTexts(g, turns) <= notes && |BoardTexts(g, turns)| == |turns|
    ensures |turns| < |notes| ==> IsOpeningText(notes[|turns|])
  {
  }

  lemma LeftByFirst(notes: seq<string>, g: GameState, turns: seq<Turn>)
    requires IsFresh(g) && Ordered(g.board) && IsRun(g, turns) && turns != [] && !IsWhole(g, turns)
    requires notes == BoardTexts(g, turns)
    ensures AreLeftovers(notes)
  {
    hide Ordered, IsRun, IsWhole, BoardTexts;
    TextsLength(g, turns);
    assert IsLeftBy(notes, g, turns);
  }

  lemma LeftByMore(notes: seq<string>, h: GameState, others: seq<Turn>, fens: seq<string>)
    requires IsLeftBy(notes, h, others) && (fens != [] ==> IsOpeningText(fens[0]))
    ensures AreLeftovers(notes + fens)
  {
    hide Ordered, IsRun, IsWhole, BoardTexts, IsOpeningText;
    LeftByAll(notes, h, others);
    if |others| < |notes + fens| {
      assert (notes + fens)[|others|] == if |others| < |notes| then notes[|others|] else fens[0];
    }
    assert IsLeftBy(notes + fens, h, others);
  }

  lemma NotedAll(fens: seq<string>, g: GameState, turns: seq<Turn>, white: seq<string>, black: seq<string>)
    requires IsNoted(fens, g, turns, white, black)
    ensures PlaysLists(g, turns, white, black) && IsFresh(g) && Ordered(g.board) && IsRun(g, turns) && Untimed(g)
    ensures fens == BoardTexts(g, turns) && |fens| == |turns|
    ensures IsWhole(g, turns) ==> IsTold(white, black)
  {
    hide Ordered, IsMaximal, Untimed, IsFresh;
    TextsLength(g, turns);
    assert IsWhole(g, turns) ==> Tells(g, turns, white, black);
  }

  lemma LeftoverRun(notes: seq<string>) returns (h: GameState, others: seq<Turn>)
    requires AreLeftovers(notes) && notes != []
    ensures IsLeftBy(notes, h, others)
  {
    hide IsLeftBy;
    h, others :| IsLeftBy(notes, h, others);
  }

  lemma LeftByRun(notes: seq<string>, fens: seq<string>, g: GameState, turns: seq<Turn>)
    requires IsFresh(g) && Ordered(g.board) && IsRun(g, turns) && !IsWhole(g, turns)
    requires AreLeftovers(notes) && fens == BoardTexts(g, turns) && |fens| == |turns|
    ensures AreLeftovers(notes + fens)
  {
    hide *;
    if turns == [] {
      assert notes + fens == notes;
    } else {
      FirstTextOpens(g, turns);
      if notes == [] {
        assert notes + fens == fens;
        LeftByFirst(fens, g, turns);
      } else {
        var h, others := LeftoverRun(notes);
        LeftByMore(notes, h, others, fens);
      }
    }
  }

  /** A call that notes boards and gives no replay leaves leftovers. */
  lemma LeftoversGrow(notes: seq<string>, fens: seq<string>, white: seq<string>, black: seq<string>)
    requires AreLeftovers(notes) && IsAttempt(fens, white, black) && !IsTold(white, black)
    ensures AreLeftovers(notes + fens)
  {
    var g: GameState, turns: seq<Turn> :| IsNoted(fens, g, turns, white, black);
    hide *;
    NotedAll(fens, g, turns, white, black);
    LeftByRun(notes, fens, g, turns);
  }

  lemma FreshAlike(g: GameState, h: GameState)
    requires IsFresh(g) && IsFresh(h)
    ensures Alike(g, h)
  {
  }

  lemma FreshHasNoResult(g: GameState)
    requires IsFresh(g)
    ensures HasFittingResult(g)
  {
  }

  lemma {:induction false} TextsOfPrefix(h: GameState, others: seq<Turn>, n: nat)
    requires Ordered(h.board) && IsRun(h, others) && n <= |others| == |BoardTexts(h, others)|
    ensures IsRun(h, others[..n]) && BoardTexts(h, others[..n]) == BoardTexts(h, others)[..n]
    decreases n
  {
    hide *;
    if n == 0 {
      NoTexts(h, others[..0]);
    } else {
      FirstText(h, others);
      var r := AfterMove(h, others[0].code, others[0].now);
      assert others[..n][1..] == others[1..][..n - 1];
      TextsLength(r, others[1..]);
      TextsOfPrefix(r, others[1..], n - 1);
      RunPrefix(h, others, n - 1);
      FirstText(h, others[..n]);
    }
  }

  lemma PrefixOfTexts(h: GameState, others: seq<Turn>, n: nat, fens: seq<string>)
    requires Ordered(h.board) && IsRun(h, others) && |fens| == n && fens <= BoardTexts(h, others)
    ensures n <= |others| && IsRun(h, others[..n]) && BoardTexts(h, others[..n]) == fens
  {
    hide *;
    TextsLength(h, others);
    TextsOfPrefix(h, others, n);
  }

  /** A run that has ended goes no further. */
  lemma EndedRunIsAll(h: GameState, others: seq<Turn>, n: nat)
    requires Ordered(h.board) && IsRun(h, others) && n <= |others| && IsRun(h, others[..n])
    requires After(h, others[..n]).status != Active
    ensures others[..n] == others
  {
    hide Ordered, IsRun, After, Accepts, AfterMove;
    if n < |others| {
      RunPrefix(h, others, n);
      OnlyActiveAccepts(After(h, others[..n]), others[n]);
    }
  }

  lemma WholeParts(g: GameState, turns: seq<Turn>)
    requires Ordered(g.board) && IsRun(g, turns) && IsWhole(g, turns)
    ensures After(g, turns).status == Expired && forall i | 0 <= i < |turns| :: !IsNull(MoveOf(turns[i]))
  {
  }

  lemma WholeIfParts(g: GameState, turns: seq<Turn>)
    requires IsFresh(g) && Ordered(g.board) && IsRun(g, turns) && After(g, turns).status != Active
    requires forall i | 0 <= i < |turns| :: !IsNull(MoveOf(turns[i]))
    ensures IsWhole(g, turns)
  {
    hide Ordered, IsRun, After, MoveOf;
    FreshHasNoResult(g);
    ResultOfRun(g, turns);
  }

  lemma AlikeStatus(g: GameState, h: GameState)
    requires Alike(g, h) && g.status == Expired
    ensures h.status != Active
  {
  }

  /** A whole run goes over boards that no other run goes over and beyond. */
  lemma WholeIsEnd(g: GameState, turns: seq<Turn>, h: GameState, others: seq<Turn>)
    requires IsFresh(g) && IsFresh(h) && Ordered(g.board) && Ordered(h.board) && IsRun(g, turns) && IsRun(h, others)
    requires IsWhole(g, turns) && BoardTexts(g, turns) <= BoardTexts(h, others)
    ensures IsWhole(h, others)
  {
    hide *;
    var n := |turns|;
    TextsLength(g, turns);
    FreshAlike(g, h);
    WholeParts(g, turns);
    PrefixOfTexts(h, others, n, BoardTexts(g, turns));
    SameTextsAlike(g, turns, h, others[..n]);
    AlikeStatus(After(g, turns), After(h, others[..n]));
    EndedRunIsAll(h, others, n);
    WholeIfParts(h, others);
  }

  lemma ShorterThanLeft(all: seq<string>, notes: seq<string>, left: seq<string>, fens: seq<string>)
    requires left <= notes <= all && |fens| <= |left| && all[..|fens|] == fens
    ensures fens <= left
  {
    assert all[..|fens|] == notes[..|fens|] == left[..|fens|];
  }

  lemma LongerThanLeft(all: seq<string>, notes: seq<string>, n: nat, fens: seq<string>)
    requires notes + fens <= all && n <= |notes| && n < |fens| && all[..|fens|] == fens
    ensures fens[n] == if n < |notes| then notes[n] else fens[0]
  {
    assert fens[n] == all[n] == (notes + fens)[n];
  }

  lemma NotEmptyTexts(others: seq<Turn>)
    ensures others != [] <==> |others| > 0
  {
  }

  /** Leftovers, were there any, make the first notations differ from those of a game played whole. */
  lemma LeftoversSpoil(notes: seq<string>, all: seq<string>, fens: seq<string>, g: GameState, turns: seq<Turn>,
                       h: GameState, others: seq<Turn>)
    requires IsLeftBy(notes, h, others) && notes + fens <= all
    requires IsFresh(g) && Ordered(g.board) && IsRun(g, turns) && IsWhole(g, turns) && fens == BoardTexts(g, turns)
    requires |fens| == |turns|
    ensures all[..|fens|] != fens
  {
    hide *;
    LeftByAll(notes, h, others);
    if all[..|fens|] != fens {
    } else if |fens| <= |others| {
      assert notes <= all by { assert (notes + fens)[..|notes|] == notes; }
      ShorterThanLeft(all, notes, BoardTexts(h, others), fens);
      WholeIsEnd(g, turns, h, others);
    } else {
      NotEmptyTexts(others);
      LaterIsNoOpening(g, turns, |others|);
      FirstTextOpens(g, turns);
      LongerThanLeft(all, notes, |others|, fens);
    }
  }

  /** Whether the first notations are those of the game depends on whether failed calls have left any. */
  lemma NotesDecide(notes: seq<string>, all: seq<string>, fens: seq<string>, g: GameState, turns: seq<Turn>)
    requires AreLeftovers(notes) && notes + fens <= all
    requires IsFresh(g) && Ordered(g.board) && IsRun(g, turns) && IsWhole(g, turns) && fens == BoardTexts(g, turns)
    ensures all[..|fens|] == fens <==> notes == []
  {
    hide *;
    TextsLength(g, turns);
    if notes == [] {
      assert notes + fens == fens;
    } else {
      var h, others := LeftoverRun(notes);
      LeftoversSpoil(notes, all, fens, g, turns, h, others);
    }
  }
}
