/** What holds over every run of accepted moves: kings, castling rights, pieces, repetition and length. A run
    is any sequence of calls of `move` none of which throws; every state a game reaches ends some run. */
module Runs {
  import opened Boards
  import opened Rules
  import opened Moving
  import opened Castling
  import opened Accounting
  import opened KingSafety
  import opened Fen
  import opened Games
  import opened Start

  /** One call of `move`: the notation of the move and the clock at its arrival. */
  datatype Turn = Turn(code: string, now: int)

  ghost predicate IsRun(g: GameState, turns: seq<Turn>)
    requires Ordered(g.board)
    decreases |turns|
  {
    turns == [] ||
    (Accepts(g, turns[0].code, turns[0].now) && IsRun(AfterMove(g, turns[0].code, turns[0].now), turns[1..]))
  }

  /** The game at the end of a run. */
  ghost function After(g: GameState, turns: seq<Turn>): (r: GameState)
    requires Ordered(g.board) && IsRun(g, turns)
    ensures Ordered(r.board)
    decreases |turns|
  {
    if turns == [] then g else After(AfterMove(g, turns[0].code, turns[0].now), turns[1..])
  }

  function MoveOf(turn: Turn): Move {
    match ParseMove(turn.code) case Ok(m) => m case Fail => NULL_MOVE
  }

  /** A standard game with both players seated and no move played. */
  ghost predicate IsFresh(g: GameState) {
    && g.board == StartBoard() && g.status == Active && g.history == []
    && g.positionHistory == [Hash(g.board.positions)]
    && g.winner == None && g.reason == None
  }

  lemma FreshIsSane(g: GameState)
    requires IsFresh(g)
    ensures Sane(g.board) && Ordered(g.board)
  {
    StartIsSane();
    hide KingsSafe, WellFormed, RightsAtHome, EnPassantBehind;
  }

  // ----- One turn -----------------------------------------------------------------------------------------

  lemma TurnMovesBoard(g: GameState, turn: Turn)
    requires Ordered(g.board) && Accepts(g, turn.code, turn.now)
    ensures var (r, m) := (AfterMove(g, turn.code, turn.now), MoveOf(turn));
            && Takes(g.board, m) && r.board == BoardAfter(g.board, m)
            && r.history == g.history + [m]
            && (IsNull(m) ==> m == NULL_MOVE && r.status == Active && r.positionHistory == g.positionHistory)
            && (!IsNull(m) ==> r.positionHistory == g.positionHistory + [Hash(r.board.positions)])
            && (!IsNull(m) ==> (r.status == Active <==> Verdict(r.board, r.positionHistory).None?))
  {
    ParsedMoves(turn.code);
    hide Ordered, Takes, Verdict, Hash, BoardAfter, ParseMove;
  }

  lemma NoTurns(g: GameState, turns: seq<Turn>)
    requires Ordered(g.board) && turns == []
    ensures IsRun(g, turns) && After(g, turns) == g
  {
  }

  lemma FirstTurn(g: GameState, turns: seq<Turn>)
    requires Ordered(g.board) && turns != []
    requires Accepts(g, turns[0].code, turns[0].now)
    ensures var r := AfterMove(g, turns[0].code, turns[0].now);
            && (IsRun(g, turns) <==> IsRun(r, turns[1..]))
            && (IsRun(g, turns) ==> After(g, turns) == After(r, turns[1..]))
  {
    hide Ordered, Accepts, AfterMove;
  }

  lemma RunStarts(g: GameState, turns: seq<Turn>)
    requires Ordered(g.board) && turns != [] && IsRun(g, turns)
    ensures Accepts(g, turns[0].code, turns[0].now)
  {
    hide Ordered, Accepts, AfterMove;
  }

  /** A run can be cut anywhere, and goes on from there by one accepted turn at a time. */
  lemma {:induction false} RunPrefix(g: GameState, turns: seq<Turn>, k: nat)
    requires Ordered(g.board) && IsRun(g, turns) && k < |turns|
    ensures IsRun(g, turns[..k]) && IsRun(g, turns[..k + 1])
    ensures var h := After(g, turns[..k]);
            && Accepts(h, turns[k].code, turns[k].now)
            && After(g, turns[..k + 1]) == AfterMove(h, turns[k].code, turns[k].now)
    decreases k
  {
    hide *;
    RunStarts(g, turns);
    FirstTurn(g, turns);
    FirstTurn(g, turns[..k + 1]);
    var r := AfterMove(g, turns[0].code, turns[0].now);
    if k == 0 {
      NoTurns(g, turns[..0]);
      NoTurns(r, turns[..1][1..]);
    } else {
      RunPrefix(r, turns[1..], k - 1);
      FirstTurn(g, turns[..k]);
      assert turns[..k][1..] == turns[1..][..k - 1];
      assert turns[..k + 1][1..] == turns[1..][..k];
    }
  }

  lemma {:induction false} RunExtends(g: GameState, turns: seq<Turn>, turn: Turn)
    requires Ordered(g.board) && IsRun(g, turns) && Accepts(After(g, turns), turn.code, turn.now)
    ensures IsRun(g, turns + [turn])
    ensures After(g, turns + [turn]) == AfterMove(After(g, turns), turn.code, turn.now)
    decreases |turns|
  {
    hide *;
    var more := turns + [turn];
    if turns == [] {
      NoTurns(g, turns);
      FirstTurn(g, more);
      NoTurns(AfterMove(g, turn.code, turn.now), more[1..]);
    } else {
      RunStarts(g, turns);
      FirstTurn(g, turns);
      FirstTurn(g, more);
      RunExtends(AfterMove(g, turns[0].code, turns[0].now), turns[1..], turn);
      assert more[1..] == turns[1..] + [turn];
    }
  }

  /** A game that is still on has no result; one that a run has ended has one decided on the board. */
  ghost predicate HasFittingResult(g: GameState) {
    || (g.status == Active && g.winner == None && g.reason == None)
    || (g.status == Expired && g.winner.Some? && g.reason.Some? && g.reason.value.Decided?)
  }

  lemma {:induction false} ResultOfRun(g: GameState, turns: seq<Turn>)
    requires Ordered(g.board) && IsRun(g, turns) && HasFittingResult(g)
    ensures HasFittingResult(After(g, turns))
    decreases |turns|
  {
    if turns != [] {
      assert g.status == Active;
      ResultOfRun(AfterMove(g, turns[0].code, turns[0].now), turns[1..]);
    }
  }

  /** The half turns played, as the board tells them. */
  function HalfTurns(b: BoardState): int { 2 * b.fullMoves + if b.next.Black? then 1 else 0 }

  lemma MoveIsCounted(b: BoardState, m: Move)
    requires Ordered(b) && Takes(b, m)
    ensures HalfTurns(BoardAfter(b, m)) == HalfTurns(b) + 1
  {
    hide Ordered, Accepted, InCheck;
  }

  lemma TurnIsCounted(g: GameState, turn: Turn)
    requires Ordered(g.board) && Accepts(g, turn.code, turn.now)
    ensures var r := AfterMove(g, turn.code, turn.now);
            HalfTurns(r.board) == HalfTurns(g.board) + 1 && r.history == g.history + [MoveOf(turn)]
  {
    TurnMovesBoard(g, turn);
    MoveIsCounted(g.board, MoveOf(turn));
    hide Ordered, Takes, BoardAfter, AfterMove, Accepts, MoveOf, HalfTurns;
  }

  /** The moves of a run, null moves included. */
  function Moves(turns: seq<Turn>): seq<Move> {
    if turns == [] then [] else [MoveOf(turns[0])] + Moves(turns[1..])
  }

  lemma FirstOfMoves(history: seq<Move>, turns: seq<Turn>)
    ensures turns == [] ==> history + Moves(turns) == history
    ensures turns != [] ==> history + Moves(turns) == (history + [MoveOf(turns[0])]) + Moves(turns[1..])
  {
    hide MoveOf;
  }

  /** Every turn of a run, null moves included, is counted once: the move number and the side to move tell
      together how many turns have been played; and every move is kept, in order. */
  lemma {:induction false} TurnsAreCounted(g: GameState, turns: seq<Turn>)
    requires Ordered(g.board) && IsRun(g, turns)
    ensures HalfTurns(After(g, turns).board) == HalfTurns(g.board) + |turns|
    ensures After(g, turns).history == g.history + Moves(turns)
    decreases |turns|
  {
    hide *;
    FirstOfMoves(g.history, turns);
    if turns == [] {
      NoTurns(g, turns);
    } else {
      RunStarts(g, turns);
      FirstTurn(g, turns);
      TurnIsCounted(g, turns[0]);
      TurnsAreCounted(AfterMove(g, turns[0].code, turns[0].now), turns[1..]);
    }
  }

  /** A move that ends the game either mates, and its mover wins, or is a draw. */
  lemma WinnerIsMover(g: GameState, turn: Turn)
    requires Ordered(g.board) && Accepts(g, turn.code, turn.now) && AfterMove(g, turn.code, turn.now).status == Expired
    ensures var r := AfterMove(g, turn.code, turn.now);
            && r.reason.Some? && r.reason.value.Decided?
            && r.winner == Some(if r.reason.value.ending.Checkmate? then Won(g.board.next) else Drawn)
            && (r.reason.value.ending.Checkmate? ==> !HasLegalMove(r.board) && InCheck(r.board.positions, r.board.next))
            && (r.reason.value.ending.Stalemate? ==>
                  !HasLegalMove(r.board) && !InCheck(r.board.positions, r.board.next))
  {
    TurnMovesBoard(g, turn);
    hide Ordered, Accepted, Legal, InCheck, CannotMate, HasLegalMove, Hash, HasKing, ParseMove, Performable;
  }

  // ----- Kings --------------------------------------------------------------------------------------------

  /** No move of the run promotes a king, uncovers its own king by taking en passant, or takes the enemy's
      king along when castling. */
  ghost predicate IsCareful(g: GameState, turns: seq<Turn>)
    requires Ordered(g.board) && IsRun(g, turns)
    decreases |turns|
  {
    turns == [] ||
    (&& (!IsNull(MoveOf(turns[0])) ==>
           (TurnMovesBoard(g, turns[0]); KeepsKingsSafe(g.board, MoveOf(turns[0]))))
     && IsCareful(AfterMove(g, turns[0].code, turns[0].now), turns[1..]))
  }

  lemma NullKeepsSane(b: BoardState)
    requires Sane(b) && Takes(b, NULL_MOVE)
    ensures Sane(NullBoard(b))
  {
  }

  lemma {:induction false} CarefulRunStaysSane(g: GameState, turns: seq<Turn>)
    requires Sane(g.board) && IsRun(g, turns) && IsCareful(g, turns)
    ensures Sane(After(g, turns).board)
    decreases |turns|
  {
    if turns != [] {
      var m := MoveOf(turns[0]);
      TurnMovesBoard(g, turns[0]);
      if IsNull(m) {
        NullKeepsSane(g.board);
      } else {
        SaneAfter(g.board, m);
      }
      hide Sane, Ordered, Takes;
      CarefulRunStaysSane(AfterMove(g, turns[0].code, turns[0].now), turns[1..]);
    }
  }

  /** King safety: over every careful run from the standard start each colour has exactly one king, and the
      side that just moved is not in check. */
  lemma KingSafetyOfRuns(g: GameState, turns: seq<Turn>)
    requires IsFresh(g) && (FreshIsSane(g); IsRun(g, turns) && IsCareful(g, turns))
    ensures var b := After(g, turns).board;
            OneKing(b.positions, White) && OneKing(b.positions, Black) && !InCheck(b.positions, b.next.Enemy())
  {
    FreshIsSane(g);
    CarefulRunStaysSane(g, turns);
  }

  // ----- Castling rights ------------------------------------------------------------------------------------

  /** Over every run, careful or not, rights only shrink. That a colour with a right left has its king, if it
      has one, on its home square is part of `Ordered`, which `After` promises. */
  lemma {:induction false} RightsShrinkOverRuns(g: GameState, turns: seq<Turn>, color: Color)
    requires Ordered(g.board) && IsRun(g, turns)
    ensures SubRights(After(g, turns).board.castle.Of(color), g.board.castle.Of(color))
    decreases |turns|
  {
    if turns != [] {
      var m := MoveOf(turns[0]);
      TurnMovesBoard(g, turns[0]);
      if !IsNull(m) {
        AcceptedIsPerformable(g.board, m);
        RightsShrink(g.board, m, color);
      }
      hide Ordered, Takes;
      RightsShrinkOverRuns(AfterMove(g, turns[0].code, turns[0].now), turns[1..], color);
    }
  }

  // ----- Pieces ---------------------------------------------------------------------------------------------

  /** How many moves of the run made by `color` captured something. */
  ghost function CapturesBy(g: GameState, turns: seq<Turn>, color: Color): nat
    requires Ordered(g.board) && IsRun(g, turns)
    decreases |turns|
  {
    if turns == [] then 0
    else
      var m := MoveOf(turns[0]);
      TurnMovesBoard(g, turns[0]);
      (if g.board.next == color && !IsNull(m) && Captures(g.board, m) then 1 else 0)
      + CapturesBy(AfterMove(g, turns[0].code, turns[0].now), turns[1..], color)
  }

  /** Every piece a colour has lost was captured by one move of the other colour, one piece a move. */
  lemma {:induction false} PiecesOverRuns(g: GameState, turns: seq<Turn>, color: Color)
    requires Ordered(g.board) && IsRun(g, turns)
    ensures PieceCount(After(g, turns).board.positions, color)
              == PieceCount(g.board.positions, color) - CapturesBy(g, turns, color.Enemy())
    decreases |turns|
  {
    if turns != [] {
      var m := MoveOf(turns[0]);
      TurnMovesBoard(g, turns[0]);
      if !IsNull(m) {
        PieceAccounting(g.board, m);
      }
      hide Ordered, Takes, PieceCount, Captures, Perform;
      PiecesOverRuns(AfterMove(g, turns[0].code, turns[0].now), turns[1..], color);
    }
  }

  // ----- Length ---------------------------------------------------------------------------------------------

  /** The moves of a run that are not null moves. */
  function RealMoves(turns: seq<Turn>): nat {
    if turns == [] then 0 else RealMoves(turns[1..]) + if IsNull(MoveOf(turns[0])) then 0 else 1
  }

  /** A game that goes on after a move has not reached the fifty move rule. */
  lemma ActiveHasPatience(g: GameState, turn: Turn)
    requires Ordered(g.board) && Accepts(g, turn.code, turn.now)
    ensures var r := AfterMove(g, turn.code, turn.now);
            && (r.status == Active && !IsNull(MoveOf(turn)) ==>
                  r.board.halfMoves < 100 && Patience(r.board) < Patience(g.board))
            && (IsNull(MoveOf(turn)) ==> Patience(r.board) <= Patience(g.board))
            && 0 <= Patience(r.board) && 0 <= Patience(g.board)
            && (!IsNull(MoveOf(turn)) && g.board.halfMoves < 100 ==> Potential(r.board) < Potential(g.board))
  {
    var m := MoveOf(turn);
    TurnMovesBoard(g, turn);
    PhiIsNatural(g.board.positions);
    PhiIsNatural(BoardAfter(g.board, m).positions);
    if !IsNull(m) {
      PatienceFalls(g.board, m);
      if g.board.halfMoves < 100 {
        PotentialFalls(g.board, m);
      }
    }
    hide Ordered, Takes, Phi, Perform, HasLegalMove, InCheck, CannotMate, AfterMove, Accepts;
  }

  /** Null moves or not, only so many real moves can be played: one unit of patience each, and the last. */
  lemma {:induction false} RunsAreShort(g: GameState, turns: seq<Turn>)
    requires Ordered(g.board) && IsRun(g, turns)
    ensures RealMoves(turns) <= Patience(g.board) + 1
    decreases |turns|
  {
    if turns == [] {
      PhiIsNatural(g.board.positions);
    } else {
      ActiveHasPatience(g, turns[0]);
      var r := AfterMove(g, turns[0].code, turns[0].now);
      RunsAreShort(r, turns[1..]);
      hide Ordered, Patience, AfterMove, MoveOf;
    }
  }

  lemma {:induction false} RealMovesBound(turns: seq<Turn>)
    ensures RealMoves(turns) <= |turns|
  {
    if turns != [] {
      RealMovesBound(turns[1..]);
    }
  }

  lemma {:induction false} RunsWithoutNullsAreShorter(g: GameState, turns: seq<Turn>)
    requires Ordered(g.board) && IsRun(g, turns) && g.board.halfMoves < 100 && RealMoves(turns) == |turns|
    ensures |turns| <= Potential(g.board)
    decreases |turns|
  {
    if turns == [] {
      PhiIsNatural(g.board.positions);
    } else {
      RealMovesBound(turns[1..]);
      ActiveHasPatience(g, turns[0]);
      var r := AfterMove(g, turns[0].code, turns[0].now);
      if turns[1..] == [] {
        PhiIsNatural(g.board.positions);
      } else {
        RunsWithoutNullsAreShorter(r, turns[1..]);
      }
    }
  }

  /** Every game ends: 12,900 moves from the standard start without null moves, and 13,029 real moves
      whatever null moves are played between them. */
  lemma EveryGameEnds(g: GameState, turns: seq<Turn>)
    requires IsFresh(g) && (FreshIsSane(g); IsRun(g, turns))
    ensures RealMoves(turns) <= 13029
    ensures RealMoves(turns) == |turns| ==> |turns| <= 12900
  {
    FreshIsSane(g);
    StartPotential();
    RunsAreShort(g, turns);
    if RealMoves(turns) == |turns| {
      RunsWithoutNullsAreShorter(g, turns);
    }
  }

  /** No move is accepted once the game has ended. */
  lemma EndedIsFinal(g: GameState, turns: seq<Turn>)
    requires Ordered(g.board) && IsRun(g, turns) && g.status != Active
    ensures turns == []
  {
  }

  // ----- Repetition -----------------------------------------------------------------------------------------

  /** One placement is noted per real move and one for the start; while the game is active, none three times. */
  ghost predicate Unrepeated(g: GameState) {
    g.status == Active ==> forall h :: Occurrences(g.positionHistory, h) <= 2
  }

  lemma OneMoreOccurrence(history: seq<string>, h: string, k: string)
    ensures Occurrences(history + [h], k) == Occurrences(history, k) + if h == k then 1 else 0
  {
  }

  /** The third occurrence of a placement is what ends a game as a draw by repetition, at that very move. */
  lemma ThirdOccurrenceEnds(g: GameState, turn: Turn)
    requires Ordered(g.board) && Accepts(g, turn.code, turn.now) && Unrepeated(g) && !IsNull(MoveOf(turn))
    ensures var r := AfterMove(g, turn.code, turn.now);
            && Unrepeated(r)
            && (Occurrences(r.positionHistory, Hash(r.board.positions)) == 3
                <==> r.status == Expired && r.reason == Some(Decided(ThreefoldRepetition)))
            && (r.reason == Some(Decided(ThreefoldRepetition)) && r.status == Expired ==> r.winner == Some(Drawn))
  {
    var r := AfterMove(g, turn.code, turn.now);
    TurnMovesBoard(g, turn);
    forall k ensures Occurrences(r.positionHistory, k)
                       == Occurrences(g.positionHistory, k) + if Hash(r.board.positions) == k then 1 else 0 {
      OneMoreOccurrence(g.positionHistory, Hash(r.board.positions), k);
    }
    ParsedMoves(turn.code);
    hide Ordered, Takes, Hash, HasLegalMove, InCheck, CannotMate, Occurrences, ParseMove, BoardAfter;
  }

  lemma {:induction false} RepetitionOverRuns(g: GameState, turns: seq<Turn>)
    requires Ordered(g.board) && IsRun(g, turns) && Unrepeated(g)
    ensures var r := After(g, turns);
            Unrepeated(r) && |r.positionHistory| == |g.positionHistory| + RealMoves(turns)
    decreases |turns|
  {
    if turns != [] {
      TurnMovesBoard(g, turns[0]);
      if !IsNull(MoveOf(turns[0])) {
        ThirdOccurrenceEnds(g, turns[0]);
      }
      hide Ordered, Takes, BoardAfter, Hash, MoveOf;
      RepetitionOverRuns(AfterMove(g, turns[0].code, turns[0].now), turns[1..]);
    }
  }

  /** From a new game on: one placement noted more than real moves played, and no placement three times while
      the game is active. Equal hashes are equal placements (`HashIsPlacement`). */
  lemma RepetitionOfRuns(g: GameState, turns: seq<Turn>)
    requires IsFresh(g) && (FreshIsSane(g); IsRun(g, turns))
    ensures Unrepeated(After(g, turns)) && |After(g, turns).positionHistory| == 1 + RealMoves(turns)
  {
    FreshIsSane(g);
    forall h ensures Occurrences(g.positionHistory, h) <= 2 {
      OneMoreOccurrence([], Hash(g.board.positions), h);
      assert [] + [Hash(g.board.positions)] == g.positionHistory;
    }
    RepetitionOverRuns(g, turns);
  }

  /** The squares after every real move of a run. */
  ghost function BoardsOf(g: GameState, turns: seq<Turn>): (boards: seq<seq<Position>>)
    requires Ordered(g.board) && IsRun(g, turns)
    ensures forall ps | ps in boards :: WellFormed(ps)
    decreases |turns|
  {
    if turns == [] then []
    else
      var r := AfterMove(g, turns[0].code, turns[0].now);
      (if IsNull(MoveOf(turns[0])) then [] else [r.board.positions]) + BoardsOf(r, turns[1..])
  }

  function Hashes(boards: seq<seq<Position>>): (hashes: seq<string>)
    ensures |hashes| == |boards|
  {
    if boards == [] then [] else [Hash(boards[0])] + Hashes(boards[1..])
  }

  lemma NoBoards(g: GameState, turns: seq<Turn>)
    requires Ordered(g.board) && turns == []
    ensures IsRun(g, turns) && BoardsOf(g, turns) == [] && Hashes([]) == []
  {
  }

  lemma FirstBoard(g: GameState, turns: seq<Turn>)
    requires Ordered(g.board) && turns != [] && IsRun(g, turns) && Accepts(g, turns[0].code, turns[0].now)
    ensures var r := AfterMove(g, turns[0].code, turns[0].now);
            && IsRun(r, turns[1..])
            && Hashes(BoardsOf(g, turns)) ==
               (if IsNull(MoveOf(turns[0])) then [] else [Hash(r.board.positions)]) + Hashes(BoardsOf(r, turns[1..]))
  {
    var r := AfterMove(g, turns[0].code, turns[0].now);
    hide Ordered, Accepts, AfterMove, MoveOf, Hash;
    var rest := BoardsOf(r, turns[1..]);
    assert ([r.board.positions] + rest)[1..] == rest;
    assert [] + rest == rest;
  }

  lemma HashNoted(g: GameState, turn: Turn)
    requires Ordered(g.board) && Accepts(g, turn.code, turn.now)
    ensures var r := AfterMove(g, turn.code, turn.now);
            r.positionHistory == g.positionHistory + if IsNull(MoveOf(turn)) then [] else [Hash(r.board.positions)]
  {
    TurnMovesBoard(g, turn);
    hide Ordered, Accepts, AfterMove, MoveOf, Hash;
  }

  lemma {:induction false} HashesNoted(g: GameState, turns: seq<Turn>)
    requires Ordered(g.board) && IsRun(g, turns)
    ensures After(g, turns).positionHistory == g.positionHistory + Hashes(BoardsOf(g, turns))
    decreases |turns|
  {
    hide *;
    if turns == [] {
      NoTurns(g, turns);
      NoBoards(g, turns);
    } else {
      RunStarts(g, turns);
      FirstTurn(g, turns);
      FirstBoard(g, turns);
      HashNoted(g, turns[0]);
      HashesNoted(AfterMove(g, turns[0].code, turns[0].now), turns[1..]);
    }
  }

  /** A placement is among the boards as often as its hash is among their hashes. */
  lemma {:induction false} CountByHash(boards: seq<seq<Position>>, ps: seq<Position>)
    requires WellFormed(ps) && forall qs | qs in boards :: WellFormed(qs)
    ensures Occurrences(Hashes(boards), Hash(ps)) == multiset(boards)[ps]
  {
    if boards != [] {
      var rest := boards[1..];
      assert boards == [boards[0]] + rest;
      forall qs | qs in rest ensures WellFormed(qs) {
        assert qs in boards;
      }
      CountByHash(rest, ps);
      HashIsPlacement(boards[0], ps);
      hide Hash, WellFormed;
      assert Hashes(boards) == [Hash(boards[0])] + Hashes(rest);
    }
  }

  /** From a new game on, while the game is active, no placement stands three times on the board: counting the start and
      the board after every real move. */
  lemma NoBoardThrice(g: GameState, turns: seq<Turn>, ps: seq<Position>)
    requires IsFresh(g) && (FreshIsSane(g); IsRun(g, turns)) && WellFormed(ps) && After(g, turns).status == Active
    ensures multiset([g.board.positions] + BoardsOf(g, turns))[ps] <= 2
  {
    FreshIsSane(g);
    RepetitionOfRuns(g, turns);
    HashesNoted(g, turns);
    var boards := [g.board.positions] + BoardsOf(g, turns);
    assert boards[1..] == BoardsOf(g, turns) && boards[0] == g.board.positions;
    assert WellFormed(g.board.positions);
    hide Ordered, Sane, Hash, WellFormed, IsRun, After, BoardsOf, StartBoard;
    assert Hashes(boards) == After(g, turns).positionHistory;
    CountByHash(boards, ps);
  }

  // ----- Progress -------------------------------------------------------------------------------------------

  ghost predicate LeavesKing(b: BoardState, s: int, t: int, k: int)
    requires |b.positions| == 64
  {
    Legal(b, s, t) && Holds(b.positions, k, Piece(King, b.next.Enemy())) && k != t
  }

  /** Some valid move leaves a king of the enemy on the board. */
  ghost predicate CanGoOn(b: BoardState)
    requires |b.positions| == 64
  {
    exists s, t, k :: LeavesKing(b, s, t, k)
  }

  /** A king of the enemy that is not on the target square survives the move, if only in another place. */
  lemma KingSurvives(b: BoardState, m: Move, k: int)
    requires Ordered(b) && Accepted(b, m) && LeavesKing(b, m.source, m.target, k)
    ensures Performable(b, m) && HasKing(Perform(b, m).positions, b.next.Enemy())
  {
    var king := Piece(King, b.next.Enemy());
    AcceptedIsPerformable(b, m);
    assert k != m.source;
    if IsCastling(b, m) {
      CastlingMovesCorner(b, m);
    } else if IsEnPassant(b, m) {
      EnPassantTakesPawn(b, m);
    }
    hide Legal, RightsAtHome, EnPassantBehind, WellFormed;
    if DragsKing(b, m) && k == CornerFrom(m.target) {
      DraggedKing(b, m);
    } else {
      Untouched(b, m, k, king);
    }
  }

  /** A king of the enemy that is there after the move was there before it, and not on the target square. */
  lemma KingWasThere(b: BoardState, m: Move)
    requires Ordered(b) && Takes(b, m) && !IsNull(m)
    ensures CanGoOn(b)
  {
    AcceptedIsPerformable(b, m);
    var king := Piece(King, b.next.Enemy());
    var j :| Holds(Perform(b, m).positions, j, king);
    KingAfter(b, m, b.next.Enemy(), j);
    if IsCastling(b, m) {
      CastlingMovesCorner(b, m);
    }
    var k := if Holds(b.positions, j, king) && j != m.source && j != m.target then j else CornerFrom(m.target);
    assert LeavesKing(b, m.source, m.target, k);
  }

  lemma GoesOn(b: BoardState) returns (m: Move)
    requires Ordered(b) && CanGoOn(b)
    ensures OnBoard(m.source) && OnBoard(m.target) && m.promotion.None? && Takes(b, m)
  {
    var s, t, k :| LeavesKing(b, s, t, k);
    m := Move(s, t, None);
    KingSurvives(b, m, k);
    hide Ordered, Perform;
  }

  /** A game goes on with a real move exactly when it is on, the clock allows it, and some valid move leaves the
      enemy a king. On boards where the enemy has its king, that is some valid move other than to take it. */
  lemma ProgressIsExact(g: GameState, now: int)
    requires Ordered(g.board)
    ensures (exists code :: Accepts(g, code, now) && !IsNull(MoveOf(Turn(code, now))))
            <==> g.status == Active && HasTime(g, now) && CanGoOn(g.board)
  {
    assert |g.board.positions| == 64;
    hide Ordered, Takes, CanGoOn, ParseMove;
    if code :| Accepts(g, code, now) && !IsNull(MoveOf(Turn(code, now))) {
      KingWasThere(g.board, MoveOf(Turn(code, now)));
    }
    if g.status == Active && HasTime(g, now) && CanGoOn(g.board) {
      var m := GoesOn(g.board);
      MoveRoundTrip(m);
      assert Accepts(g, EncodeMove(m), now);
    }
  }

  /** With one king of the enemy on `k`, what is needed is a valid move that does not take it. */
  lemma OneKingGoesOn(b: BoardState, k: int)
    requires |b.positions| == 64 && IsTheKing(b.positions, b.next.Enemy(), k)
    ensures CanGoOn(b) <==> exists s, t :: Legal(b, s, t) && t != k
  {
    if s, t :| Legal(b, s, t) && t != k {
      assert LeavesKing(b, s, t, k);
    }
    hide Legal;
  }

  lemma SaneGoesOn(b: BoardState)
    requires Sane(b) && HasLegalMove(b)
    ensures CanGoOn(b)
  {
    var s, t :| Legal(b, s, t);
    var k :| IsTheKing(b.positions, b.next.Enemy(), k);
    KingIsNotTaken(b, Move(s, t, None));
    assert LeavesKing(b, s, t, k);
  }

  /** As long as the game is active after a real move that leaves a sound board, the next player has a move whose
      notation is accepted, provided it still has time. */
  lemma SomeMoveIsAccepted(g: GameState, turn: Turn, now: int)
    requires Ordered(g.board) && Accepts(g, turn.code, turn.now) && !IsNull(MoveOf(turn))
    requires var r := AfterMove(g, turn.code, turn.now); r.status == Active && Sane(r.board) && HasTime(r, now)
    ensures exists code :: Accepts(AfterMove(g, turn.code, turn.now), code, now) && !IsNull(MoveOf(Turn(code, now)))
  {
    var r := AfterMove(g, turn.code, turn.now);
    TurnMovesBoard(g, turn);
    SaneGoesOn(r.board);
    ProgressIsExact(r, now);
    hide Sane, Takes, AfterMove, CanGoOn, Legal;
  }

  lemma LegalIsTaken(b: BoardState, m: Move)
    requires Sane(b) && Accepted(b, m)
    ensures Takes(b, m)
  {
    AcceptedIsPerformable(b, m);
    var k :| IsTheKing(b.positions, b.next.Enemy(), k);
    EnemyKeepsKing(b, m, k);
    hide SquaresAfter, RightsAtHome, EnPassantBehind, DragsKing;
  }

  // ----- Without a king -------------------------------------------------------------------------------------

  /** Where a colour has no king only null moves are taken. */
  lemma KinglessTakesNulls(b: BoardState, m: Move, color: Color)
    requires Ordered(b) && Takes(b, m) && !HasKing(b.positions, color)
    ensures IsNull(m)
  {
    if !IsNull(m) {
      if color == b.next {
        PlayedHadKing(b.positions, m.source, m.target, color);
      } else {
        KingWasThere(b, m);
      }
    }
    hide Ordered, Played, CanMove, Attacked;
  }

  /** Once a colour has lost its king no piece ever moves again, whichever colour that is. */
  lemma {:induction false} KinglessStandsStill(g: GameState, turns: seq<Turn>, color: Color)
    requires Ordered(g.board) && IsRun(g, turns) && !HasKing(g.board.positions, color)
    ensures RealMoves(turns) == 0 && After(g, turns).board.positions == g.board.positions
    decreases |turns|
  {
    if turns != [] {
      TurnMovesBoard(g, turns[0]);
      KinglessTakesNulls(g.board, MoveOf(turns[0]), color);
      hide Ordered, Takes, HasKing, AfterMove, MoveOf;
      KinglessStandsStill(AfterMove(g, turns[0].code, turns[0].now), turns[1..], color);
    }
  }

  /** In particular after a king has been promoted. */
  lemma PromotedKingStandsStill(g: GameState, turn: Turn, turns: seq<Turn>)
    requires Sane(g.board) && Accepts(g, turn.code, turn.now) && !IsNull(MoveOf(turn))
    requires PromotesKing(g.board, MoveOf(turn))
    requires IsRun(AfterMove(g, turn.code, turn.now), turns)
    ensures RealMoves(turns) == 0
  {
    TurnMovesBoard(g, turn);
    PromotedKingIsGone(g.board, MoveOf(turn));
    hide Sane, Takes, HasKing, Perform, AfterMove, MoveOf, PromotesKing;
    KinglessStandsStill(AfterMove(g, turn.code, turn.now), turns, g.board.next);
  }
}
