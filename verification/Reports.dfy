/** Reported games: what two move lists tell, and what makes a replay of them sound. */
module Reports {
  import opened Boards
  import opened Text
  import opened Moving
  import opened Castling
  import opened Fen
  import opened Games
  import opened Start
  import opened Runs
  import opened SameGames
  import opened Openings

  /** What a client reports of one move; only the move itself is looked at. */
  datatype MoveDetails = MoveDetails(move: string)

  /** One move of a replay. The details that are kept beside it do not include the text it was sent as. */
  datatype MoveInfo = MoveInfo(move: Move, fen: string)

  datatype Pair<T> = Pair(first: T, second: T) {
    function At(index: int): T { if index == 0 then first else second }
  }

  datatype Replay = Replay(
    driver: string,
    engines: ColorMap<string>,
    winner: Winner,
    reason: Reason,
    history: seq<MoveInfo>)

  // ----- The two lists in turn ---------------------------------------------------------------------------

  function Codes(moves: seq<MoveDetails>): (codes: seq<string>)
    ensures |codes| == |moves| && forall i | 0 <= i < |moves| :: codes[i] == moves[i].move
  {
    seq(|moves|, i requires 0 <= i < |moves| => moves[i].move)
  }

  /** The i-th move when white and black take turns. */
  predicate IsInterleaved(code: string, white: seq<string>, black: seq<string>, i: nat) {
    var side := if i % 2 == 0 then white else black;
    i / 2 < |side| && code == side[i / 2]
  }

  /** The run of a standard game that plays the two lists strictly in turn. */
  ghost predicate PlaysLists(g: GameState, turns: seq<Turn>, white: seq<string>, black: seq<string>) {
    && IsFresh(g) && Ordered(g.board) && IsRun(g, turns)
    && forall i | 0 <= i < |turns| :: IsInterleaved(turns[i].code, white, black, i)
  }

  /** A run that has used as many codes as both lists hold has none left. */
  lemma UsedUp(turns: seq<Turn>, white: seq<string>, black: seq<string>, code: string)
    requires forall i | 0 <= i < |turns| :: IsInterleaved(turns[i].code, white, black, i)
    requires |turns| == |white| + |black|
    ensures !IsInterleaved(code, white, black, |turns|)
  {
    var n := |turns|;
    if n >= 2 {
      assert IsInterleaved(turns[n - 1].code, white, black, n - 1);
      assert IsInterleaved(turns[n - 2].code, white, black, n - 2);
    } else if n == 1 {
      assert IsInterleaved(turns[0].code, white, black, 0);
    }
  }

  // ----- The boards of a run -----------------------------------------------------------------------------

  lemma EncodableOrdered(b: BoardState)
    requires Ordered(b)
    ensures Encodable(b)
  {
  }

  /** The notation of the board after each turn of a run. */
  ghost function BoardTexts(g: GameState, turns: seq<Turn>): (fens: seq<string>)
    requires Ordered(g.board) && IsRun(g, turns)
    ensures |fens| == |turns|
    decreases |turns|
  {
    if turns == [] then []
    else
      var r := AfterMove(g, turns[0].code, turns[0].now);
      EncodableOrdered(r.board);
      [Encode(r.board)] + BoardTexts(r, turns[1..])
  }

  lemma NoTexts(g: GameState, turns: seq<Turn>)
    requires Ordered(g.board) && turns == []
    ensures IsRun(g, turns) && After(g, turns) == g && BoardTexts(g, turns) == []
  {
  }

  lemma FirstText(g: GameState, turns: seq<Turn>)
    requires Ordered(g.board) && IsRun(g, turns) && turns != []
    ensures Accepts(g, turns[0].code, turns[0].now)
    ensures var r := AfterMove(g, turns[0].code, turns[0].now);
            && Encodable(r.board) && IsRun(r, turns[1..]) && After(g, turns) == After(r, turns[1..])
            && BoardTexts(g, turns) == [Encode(r.board)] + BoardTexts(r, turns[1..])
  {
    EncodableOrdered(AfterMove(g, turns[0].code, turns[0].now).board);
    hide Ordered, Accepts, AfterMove, Encode, Encodable;
  }

  lemma {:induction false} BoardTextAt(g: GameState, turns: seq<Turn>, i: nat)
    requires Ordered(g.board) && IsRun(g, turns) && i < |turns|
    ensures IsRun(g, turns[..i + 1]) && Encodable(After(g, turns[..i + 1]).board)
    ensures BoardTexts(g, turns)[i] == Encode(After(g, turns[..i + 1]).board)
    decreases i
  {
    hide *;
    RunPrefix(g, turns, i);
    FirstText(g, turns);
    var r := AfterMove(g, turns[0].code, turns[0].now);
    FirstText(g, turns[..i + 1]);
    assert turns[..i + 1][1..] == turns[1..][..i];
    if i == 0 {
      NoTexts(r, turns[1..][..0]);
    } else {
      BoardTextAt(r, turns[1..], i - 1);
    }
  }

  lemma {:induction false} BoardTextsExtend(g: GameState, turns: seq<Turn>, turn: Turn)
    requires Ordered(g.board) && IsRun(g, turns) && Accepts(After(g, turns), turn.code, turn.now)
    ensures IsRun(g, turns + [turn]) && Encodable(After(g, turns + [turn]).board)
    ensures BoardTexts(g, turns + [turn]) == BoardTexts(g, turns) + [Encode(After(g, turns + [turn]).board)]
    decreases |turns|
  {
    hide *;
    RunExtends(g, turns, turn);
    var more := turns + [turn];
    FirstText(g, more);
    var r := AfterMove(g, more[0].code, more[0].now);
    if turns == [] {
      assert more[1..] == [];
      NoTexts(r, more[1..]);
      NoTexts(g, turns);
    } else {
      assert more[1..] == turns[1..] + [turn];
      FirstText(g, turns);
      BoardTextsExtend(r, turns[1..], turn);
    }
  }

  lemma SameBoardAfter(g: GameState, turn: Turn, h: GameState, other: Turn)
    requires Ordered(g.board) && g.board == h.board && turn.code == other.code
    requires Accepts(g, turn.code, turn.now) && Accepts(h, other.code, other.now)
    ensures AfterMove(g, turn.code, turn.now).board == AfterMove(h, other.code, other.now).board
  {
    TurnMovesBoard(g, turn);
    TurnMovesBoard(h, other);
    hide Ordered, Accepts, AfterMove, BoardAfter;
  }

  /** Two runs of the same codes from the same board go over the same boards. */
  lemma {:induction false} SameCodesSameBoards(g: GameState, turns: seq<Turn>, h: GameState, others: seq<Turn>)
    requires Ordered(g.board) && g.board == h.board && IsRun(g, turns) && IsRun(h, others)
    requires |turns| == |others| && forall i | 0 <= i < |turns| :: turns[i].code == others[i].code
    ensures BoardTexts(g, turns) == BoardTexts(h, others)
    decreases |turns|
  {
    hide *;
    if turns == [] {
      NoTexts(g, turns);
      NoTexts(h, others);
    } else {
      FirstText(g, turns);
      FirstText(h, others);
      SameBoardAfter(g, turns[0], h, others[0]);
      SameCodesSameBoards(AfterMove(g, turns[0].code, turns[0].now), turns[1..],
                          AfterMove(h, others[0].code, others[0].now), others[1..]);
    }
  }

  // ----- What makes a replay sound -----------------------------------------------------------------------

  /** The text of a move that reads as one on the board is what that move prints as. */
  lemma CodeReadsBack(code: string)
    requires ParseMove(code).Ok? && !IsNull(ParseMove(code).value)
    ensures var m := ParseMove(code).value; OnBoard(m.source) && OnBoard(m.target) && EncodeMove(m) == code
  {
    ParsedMoves(code);
    TargetIsSquareText(code[..2]);
    TargetIsSquareText(code[2..4]);
    assert code[..4][..2] == code[..2] && code[..4][2..] == code[2..4];
    assert |code| == 4 ==> code[2..] == code[2..4] && code[..2] + code[2..4] == code;
    assert |code| == 5 ==> code[..2] + code[2..4] + [code[4]] == code;
  }

  /** The entry for one turn: a move on the board that prints as exactly the text it was sent as. */
  ghost predicate IsEntry(info: MoveInfo, turn: Turn) {
    && ParseMove(turn.code) == Ok(info.move)
    && OnBoard(info.move.source) && OnBoard(info.move.target)
    && EncodeMove(info.move) == turn.code
  }

  function Fens(history: seq<MoveInfo>): (fens: seq<string>)
    ensures |fens| == |history| && forall i | 0 <= i < |history| :: fens[i] == history[i].fen
  {
    seq(|history|, i requires 0 <= i < |history| => history[i].fen)
  }

  /** A replay that tells a real game: the two lists in turn, accepted move by move from the standard start,
      each board as it was after the move, and a result decided on the board. */
  ghost predicate TellsGame(r: Replay, g: GameState, turns: seq<Turn>, white: seq<string>, black: seq<string>) {
    && PlaysLists(g, turns, white, black)
    && |r.history| == |turns|
    && (forall i | 0 <= i < |turns| :: IsEntry(r.history[i], turns[i]))
    && Fens(r.history) == BoardTexts(g, turns)
    && var end := After(g, turns);
       && end.status == Expired && end.winner == Some(r.winner) && end.reason == Some(r.reason) && r.reason.Decided?
  }

  ghost predicate IsSound(r: Replay, white: seq<string>, black: seq<string>) {
    exists g, turns :: TellsGame(r, g, turns, white, black)
  }

  lemma FensAre(history: seq<MoveInfo>, fens: seq<string>)
    requires |fens| == |history| && forall i | 0 <= i < |fens| :: history[i].fen == fens[i]
    ensures Fens(history) == fens
  {
  }

  lemma FenAt(history: seq<MoveInfo>, i: nat)
    requires i < |history|
    ensures Fens(history)[i] == history[i].fen
  {
  }

  /** The notation before turn `i` reads back as the board the turn meets. */
  lemma BoardBefore(r: Replay, g: GameState, turns: seq<Turn>, i: nat)
    requires Ordered(g.board) && g.board == StartBoard() && IsRun(g, turns) && i < |turns| == |r.history|
    requires Fens(r.history) == BoardTexts(g, turns)
    ensures IsRun(g, turns[..i])
    ensures Decode(if i == 0 then STANDARD_FEN else r.history[i - 1].fen) == Ok(After(g, turns[..i]).board)
  {
    hide *;
    RunPrefix(g, turns, i);
    if i == 0 {
      StandardFen();
      NoTexts(g, turns[..0]);
    } else {
      BoardTextAt(g, turns, i - 1);
      FenAt(r.history, i - 1);
      FenRoundTrip(After(g, turns[..i]).board);
    }
  }

  /** The notation after turn `i` is that of the board the turn leads to. */
  lemma BoardAfterwards(r: Replay, g: GameState, turns: seq<Turn>, i: nat)
    requires Ordered(g.board) && IsRun(g, turns) && i < |turns| == |r.history|
    requires Fens(r.history) == BoardTexts(g, turns) && IsEntry(r.history[i], turns[i])
    ensures IsRun(g, turns[..i])
    ensures var b := After(g, turns[..i]).board;
            && Accepted(b, r.history[i].move) && Performable(b, r.history[i].move)
            && Encodable(Perform(b, r.history[i].move))
            && r.history[i].fen == Encode(Perform(b, r.history[i].move))
  {
    RunPrefix(g, turns, i);
    var h := After(g, turns[..i]);
    TurnMovesBoard(h, turns[i]);
    BoardTextAt(g, turns, i);
    assert r.history[i].fen == BoardTexts(g, turns)[i];
    AcceptedIsPerformable(h.board, r.history[i].move);
    hide WellFormed, RightsAtHome, Encode, Accepts, AfterMove, Perform, ParseMove, Accepted;
  }

  /** Each notation in a sound replay is the board the next move is accepted on, and leads to the next notation. */
  lemma ReplaySteps(r: Replay, white: seq<string>, black: seq<string>, i: nat)
    requires IsSound(r, white, black) && i < |r.history|
    ensures var m := r.history[i].move;
            OnBoard(m.source) && OnBoard(m.target) && IsInterleaved(EncodeMove(m), white, black, i)
    ensures var before := Decode(if i == 0 then STANDARD_FEN else r.history[i - 1].fen);
            && before.Ok? && Ordered(before.value)
            && Accepted(before.value, r.history[i].move)
            && Performable(before.value, r.history[i].move)
            && Encodable(Perform(before.value, r.history[i].move))
            && r.history[i].fen == Encode(Perform(before.value, r.history[i].move))
  {
    hide Ordered, Encode, Decode, Accepted, Perform, Performable, BoardTexts, StartBoard;
    var g, turns :| TellsGame(r, g, turns, white, black);
    assert IsEntry(r.history[i], turns[i]);
    BoardBefore(r, g, turns, i);
    BoardAfterwards(r, g, turns, i);
  }

  /** The replay with these notations in place of its own. */
  function Corrected(r: Replay, fens: seq<string>): Replay
    requires |fens| == |r.history|
  {
    r.(history := seq(|fens|, i requires 0 <= i < |fens| => r.history[i].(fen := fens[i])))
  }

  lemma FreshBoards(g: GameState, h: GameState)
    requires IsFresh(g) && IsFresh(h)
    ensures g.board == h.board
  {
  }

  /** Only one list of notations makes a replay of these moves sound. */
  lemma SoundnessIsExact(r: Replay, fens: seq<string>, white: seq<string>, black: seq<string>)
    requires |fens| == |r.history| && IsSound(Corrected(r, fens), white, black)
    ensures IsSound(r, white, black) <==> Fens(r.history) == fens
  {
    hide Ordered, IsRun, BoardTexts, After, IsFresh;
    var c := Corrected(r, fens);
    assert Fens(c.history) == fens;
    if Fens(r.history) == fens {
      assert forall i | 0 <= i < |fens| :: r.history[i].fen == Fens(r.history)[i];
      assert c.history == r.history;
    }
    if IsSound(r, white, black) {
      var g: GameState, turns: seq<Turn> :| TellsGame(c, g, turns, white, black);
      var h: GameState, others: seq<Turn> :| TellsGame(r, h, others, white, black);
      forall i | 0 <= i < |turns| ensures turns[i].code == others[i].code {
        assert IsEntry(c.history[i], turns[i]) && IsEntry(r.history[i], others[i]);
      }
      FreshBoards(g, h);
      SameCodesSameBoards(g, turns, h, others);
    }
  }

  // ----- Which lists tell a game -------------------------------------------------------------------------

  /** The two lists, in turn and without a null move, play a standard game to its end. */
  ghost predicate Tells(g: GameState, turns: seq<Turn>, white: seq<string>, black: seq<string>) {
    && PlaysLists(g, turns, white, black)
    && After(g, turns).status == Expired
    && forall i | 0 <= i < |turns| :: !IsNull(MoveOf(turns[i]))
  }

  ghost predicate IsTold(white: seq<string>, black: seq<string>) {
    exists g, turns :: Tells(g, turns, white, black)
  }

  lemma ToldByRun(g: GameState, turns: seq<Turn>, white: seq<string>, black: seq<string>)
    requires IsFresh(g) && Ordered(g.board) && IsRun(g, turns) && After(g, turns).status == Expired
    requires forall i | 0 <= i < |turns| ::
               IsInterleaved(turns[i].code, white, black, i) && !IsNull(MoveOf(turns[i]))
    ensures IsTold(white, black)
  {
    hide IsFresh, Ordered, IsRun, After, IsInterleaved, MoveOf;
    assert Tells(g, turns, white, black);
  }

  lemma SoundIsTold(r: Replay, white: seq<string>, black: seq<string>)
    requires IsSound(r, white, black)
    ensures IsTold(white, black)
  {
    hide Ordered, IsRun, BoardTexts, After, IsFresh, EncodeMove, ParseMove;
    var g: GameState, turns: seq<Turn> :| TellsGame(r, g, turns, white, black);
    forall i | 0 <= i < |turns| ensures !IsNull(MoveOf(turns[i])) {
      assert IsEntry(r.history[i], turns[i]);
    }
    assert Tells(g, turns, white, black);
  }

  /** Two runs of the same lists have the same codes as far as both go. */
  lemma SameLists(g: GameState, turns: seq<Turn>, h: GameState, others: seq<Turn>, white: seq<string>,
                  black: seq<string>)
    requires PlaysLists(g, turns, white, black) && PlaysLists(h, others, white, black)
    ensures Alike(g, h) && forall i | 0 <= i < |turns| && i < |others| :: turns[i].code == others[i].code
  {
    hide Ordered, IsRun;
    forall i | 0 <= i < |turns| && i < |others| ensures turns[i].code == others[i].code {
      assert IsInterleaved(turns[i].code, white, black, i) && IsInterleaved(others[i].code, white, black, i);
    }
  }

  /** Where the lists tell a game, any other run of them goes on as far as the game does. */
  lemma ToldGoesOn(g: GameState, turns: seq<Turn>, white: seq<string>, black: seq<string>)
    returns (h: GameState, others: seq<Turn>)
    requires PlaysLists(g, turns, white, black) && Untimed(g) && IsTold(white, black)
    ensures Tells(h, others, white, black) && |turns| <= |others|
    ensures forall i | 0 <= i < |turns| && i < |others| :: turns[i].code == others[i].code
    ensures After(g, turns).status == Active ==>
              && |turns| < |others| && IsInterleaved(others[|turns|].code, white, black, |turns|)
              && forall now :: Accepts(After(g, turns), others[|turns|].code, now)
    ensures After(g, turns).status != Active ==> |turns| == |others|
  {
    h, others :| Tells(h, others, white, black);
    SameLists(g, turns, h, others, white, black);
    hide Ordered, IsFresh, Untimed, Alike, Accepts, IsInterleaved, IsRun, After;
    EndedTogether(g, turns, h, others);
  }

  /** A run that refuses its next code, or has none, shows that the lists tell no game. */
  lemma NotTold(g: GameState, turns: seq<Turn>, white: seq<string>, black: seq<string>)
    requires PlaysLists(g, turns, white, black) && Untimed(g) && After(g, turns).status == Active
    requires forall code :: IsInterleaved(code, white, black, |turns|) ==> !Accepts(After(g, turns), code, 0)
    ensures !IsTold(white, black)
  {
    hide Ordered, Untimed, Accepts, IsInterleaved, IsRun, After, PlaysLists, Tells;
    if IsTold(white, black) {
      var h, others := ToldGoesOn(g, turns, white, black);
    }
  }

  lemma EndedIsWhole(g: GameState, turns: seq<Turn>, white: seq<string>, black: seq<string>)
    requires PlaysLists(g, turns, white, black) && Untimed(g)
    requires After(g, turns).status != Active && IsTold(white, black)
    ensures forall i | 0 <= i < |turns| :: !IsNull(MoveOf(turns[i]))
  {
    hide Ordered, Untimed, Accepts, IsInterleaved, IsRun, After, PlaysLists, ParseMove;
    var h, others := ToldGoesOn(g, turns, white, black);
    forall i | 0 <= i < |turns| ensures !IsNull(MoveOf(turns[i])) {
      assert turns[i].code == others[i].code;
    }
  }

  lemma FirstTurnOpens(g: GameState, turn: Turn)
    requires IsFresh(g) && Ordered(g.board) && Accepts(g, turn.code, turn.now) && !IsNull(MoveOf(turn))
    ensures MoveOf(turn).target < MoveOf(turn).source
    ensures var r := AfterMove(g, turn.code, turn.now); IsOpened(r.board) && r.status == Active
  {
    TurnMovesBoard(g, turn);
    var r := AfterMove(g, turn.code, turn.now);
    hide Accepted, AfterMove, MoveOf, Verdict, Ordered, StartBoard, Hash, IsOpened, Perform, Performable;
    FirstMove(MoveOf(turn));
    OpeningGoesOn(r.board, r.positionHistory);
  }

  lemma TellsAll(g: GameState, turns: seq<Turn>, white: seq<string>, black: seq<string>)
    requires Tells(g, turns, white, black)
    ensures IsFresh(g) && Ordered(g.board) && IsRun(g, turns) && After(g, turns).status == Expired
    ensures turns != [] && !IsNull(MoveOf(turns[0]))
  {
    hide Ordered, MoveOf;
  }

  lemma WholeTurn(turns: seq<Turn>)
    ensures |turns| == 1 ==> turns[..1] == turns
  {
  }

  lemma OneTurnIsNotAll(g: GameState, turns: seq<Turn>, white: seq<string>, black: seq<string>)
    requires Tells(g, turns, white, black)
    ensures |turns| >= 2 && IsFresh(g) && Ordered(g.board) && Accepts(g, turns[0].code, turns[0].now)
    ensures Accepts(AfterMove(g, turns[0].code, turns[0].now), turns[1].code, turns[1].now)
  {
    hide *;
    TellsAll(g, turns, white, black);
    RunPrefix(g, turns, 0);
    NoTurns(g, turns[..0]);
    FirstTurnOpens(g, turns[0]);
    WholeTurn(turns);
    RunPrefix(g, turns, 1);
  }

  /** The first two turns of a told game: white's goes up the board, and black's down. */
  lemma FirstTurns(g: GameState, turns: seq<Turn>, white: seq<string>, black: seq<string>)
    requires Tells(g, turns, white, black)
    ensures |turns| >= 2 && white != [] && black != [] && turns[0].code == white[0] && turns[1].code == black[0]
    ensures MoveOf(turns[0]).target < MoveOf(turns[0]).source && MoveOf(turns[1]).source < MoveOf(turns[1]).target
  {
    OneTurnIsNotAll(g, turns, white, black);
    assert IsInterleaved(turns[0].code, white, black, 0) && IsInterleaved(turns[1].code, white, black, 1);
    assert !IsNull(MoveOf(turns[0])) && !IsNull(MoveOf(turns[1]));
    var r := AfterMove(g, turns[0].code, turns[0].now);
    hide Accepted, BoardAfter, AfterMove, MoveOf, Verdict, Ordered, StartBoard, Hash, IsOpened, Tells;
    FirstTurnOpens(g, turns[0]);
    TurnMovesBoard(r, turns[1]);
    BlackGoesDown(r.board, MoveOf(turns[1]));
  }

  /** Which list is white's, going by the first move of the first list that has one: up the board is white. */
  function WhiteListOf(moves: Pair<seq<MoveDetails>>): Result<int> {
    if |moves.first| == 0 && |moves.second| == 0 then Fail
    else
      var engine := if |moves.first| > 0 then 0 else 1;
      var move :- ParseMove(moves.At(engine)[0].move);
      if IsNull(move) then Fail
      else Ok(if move.target - move.source < 0 then engine else 1 - engine)
  }

  lemma WhiteListInRange(moves: Pair<seq<MoveDetails>>)
    ensures WhiteListOf(moves).Ok? ==> WhiteListOf(moves).value == 0 || WhiteListOf(moves).value == 1
  {
  }

  /** If the lists tell a game with the list of this number as white's, then that number is what is found. */
  lemma WhiteListIsFound(moves: Pair<seq<MoveDetails>>, white: int)
    requires white == 0 || white == 1
    requires IsTold(Codes(moves.At(white)), Codes(moves.At(1 - white)))
    ensures WhiteListOf(moves) == Ok(white)
  {
    var (w, b) := (Codes(moves.At(white)), Codes(moves.At(1 - white)));
    var g: GameState, turns: seq<Turn> :| Tells(g, turns, w, b);
    FirstTurns(g, turns, w, b);
    assert !IsNull(MoveOf(turns[0])) && !IsNull(MoveOf(turns[1]));
    assert w[0] == moves.At(white)[0].move && b[0] == moves.At(1 - white)[0].move;
    assert ParseMove(w[0]).Ok? && ParseMove(b[0]).Ok?;
    hide ParseMove, Tells, Codes;
  }

  /** The lists tell a game in which the list of this number is white's. */
  ghost predicate IsReport(moves: Pair<seq<MoveDetails>>, white: int) {
    (white == 0 || white == 1) && IsTold(Codes(moves.At(white)), Codes(moves.At(1 - white)))
  }

  lemma ReportIsTold(moves: Pair<seq<MoveDetails>>, white: int)
    requires white == 0 || white == 1
    ensures IsReport(moves, white) <==> IsTold(Codes(moves.At(white)), Codes(moves.At(1 - white)))
  {
  }

  lemma ReportIsFound(moves: Pair<seq<MoveDetails>>)
    ensures forall white :: IsReport(moves, white) ==> WhiteListOf(moves) == Ok(white)
  {
    forall white | IsReport(moves, white) ensures WhiteListOf(moves) == Ok(white) {
      WhiteListIsFound(moves, white);
    }
  }
}
