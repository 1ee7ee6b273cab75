/** Rebuilding a game from the move lists an external client reports, and the replay made of it. */
module Validation {
  import opened Boards
  import opened Text
  import opened Moving
  import opened Fen
  import opened Games
  import opened Start
  import opened Runs
  import opened SameGames
  import opened Reports
  import opened Leftovers

  // ----- A game being played -----------------------------------------------------------------------------

  /** The moves kept in a game's history are those read from the codes it was sent. */
  ghost predicate AreParsed(turns: seq<Turn>, history: seq<Move>) {
    |history| == |turns| && forall i | 0 <= i < |turns| :: ParseMove(turns[i].code) == Ok(history[i])
  }

  /** The game stands as after playing the turns, and the boards it went through have been noted. */
  ghost predicate IsPlaying(h: GameState, fens: seq<string>, g: GameState, turns: seq<Turn>,
                            white: seq<string>, black: seq<string>) {
    && PlaysLists(g, turns, white, black)
    && h == After(g, turns) && fens == BoardTexts(g, turns) && AreParsed(turns, h.history)
    && (h.board.next == White <==> |turns| % 2 == 0)
  }

  lemma StartsPlaying(g: GameState, white: seq<string>, black: seq<string>)
    requires IsFresh(g)
    ensures IsPlaying(g, [], g, [], white, black)
  {
    FreshIsSane(g);
  }

  lemma WhilePlaying(h: GameState, fens: seq<string>, g: GameState, turns: seq<Turn>, white: seq<string>,
                     black: seq<string>)
    requires IsPlaying(h, fens, g, turns, white, black)
    ensures PlaysLists(g, turns, white, black) && Ordered(g.board) && IsRun(g, turns)
    ensures h == After(g, turns) && fens == BoardTexts(g, turns) && AreParsed(turns, h.history)
    ensures (h.board.next == White <==> |turns| % 2 == 0) && Ordered(h.board)
  {
  }

  lemma WhoseTurn(game: Game, fens: seq<string>, g: GameState, turns: seq<Turn>, white: seq<string>, black: seq<string>)
    requires IsPlaying(game.State(), fens, g, turns, white, black)
    ensures game.board.next == White <==> |turns| % 2 == 0
    ensures game.State().status == game.status && Ordered(game.State().board)
  {
  }

  lemma NoneLeft(moves: seq<string>, white: seq<string>, black: seq<string>, i: nat, next: Color)
    requires moves == (if next == White then white else black) && (next == White <==> i % 2 == 0) && i / 2 >= |moves|
    ensures forall code :: !IsInterleaved(code, white, black, i)
  {
  }

  lemma NextOfList(moves: seq<string>, white: seq<string>, black: seq<string>, i: nat, idx: nat, next: Color)
    requires moves == (if next == White then white else black) && (next == White <==> i % 2 == 0)
    requires idx == i / 2 && idx < |moves|
    ensures IsInterleaved(moves[idx], white, black, i)
  {
  }

  lemma StillPlaying(h: GameState, fens: seq<string>, g: GameState, turns: seq<Turn>, white: seq<string>,
                     black: seq<string>)
    requires PlaysLists(g, turns, white, black) && Ordered(g.board) && IsRun(g, turns)
    requires h == After(g, turns) && fens == BoardTexts(g, turns) && AreParsed(turns, h.history)
    requires h.board.next == White <==> |turns| % 2 == 0
    ensures IsPlaying(h, fens, g, turns, white, black)
  {
  }

  lemma ListsExtend(g: GameState, turns: seq<Turn>, turn: Turn, white: seq<string>, black: seq<string>)
    requires PlaysLists(g, turns, white, black) && IsInterleaved(turn.code, white, black, |turns|)
    requires Ordered(g.board) && IsRun(g, turns + [turn])
    ensures PlaysLists(g, turns + [turn], white, black)
  {
    hide IsFresh, Ordered, IsRun, IsInterleaved;
  }

  lemma ParsedExtends(turns: seq<Turn>, turn: Turn, history: seq<Move>, m: Move)
    requires AreParsed(turns, history) && ParseMove(turn.code) == Ok(m)
    ensures AreParsed(turns + [turn], history + [m])
  {
    hide ParseMove;
  }

  lemma TurnPasses(g: GameState, turn: Turn)
    requires Ordered(g.board) && Accepts(g, turn.code, turn.now)
    ensures var r := AfterMove(g, turn.code, turn.now);
            && r.board.next == g.board.next.Enemy() && (r.status == Active || r.status == Expired)
            && ParseMove(turn.code) == Ok(MoveOf(turn)) && r.history == g.history + [MoveOf(turn)]
  {
    TurnMovesBoard(g, turn);
    hide Ordered, Takes, ParseMove, AfterMove;
  }

  lemma PassesOver(before: Color, after: Color, n: nat)
    requires (before == White <==> n % 2 == 0) && after == before.Enemy()
    ensures after == White <==> (n + 1) % 2 == 0
  {
  }

  /** One more accepted turn of the right list keeps the game being played. */
  lemma KeepsPlaying(h: GameState, fens: seq<string>, g: GameState, turns: seq<Turn>, turn: Turn,
                     white: seq<string>, black: seq<string>)
    requires IsPlaying(h, fens, g, turns, white, black) && Ordered(h.board) && Accepts(h, turn.code, turn.now)
    requires IsInterleaved(turn.code, white, black, |turns|)
    ensures var r := AfterMove(h, turn.code, turn.now);
            Encodable(r.board) && IsPlaying(r, fens + [Encode(r.board)], g, turns + [turn], white, black)
  {
    hide *;
    WhilePlaying(h, fens, g, turns, white, black);
    RunExtends(g, turns, turn);
    BoardTextsExtend(g, turns, turn);
    TurnPasses(h, turn);
    ListsExtend(g, turns, turn, white, black);
    ParsedExtends(turns, turn, h.history, MoveOf(turn));
    var r := AfterMove(h, turn.code, turn.now);
    PassesOver(h.board.next, r.board.next, |turns|);
    StillPlaying(r, fens + [Encode(r.board)], g, turns + [turn], white, black);
  }

  lemma AllUsedUp(h: GameState, fens: seq<string>, g: GameState, turns: seq<Turn>, white: seq<string>,
                  black: seq<string>)
    requires IsPlaying(h, fens, g, turns, white, black) && |turns| == |white| + |black|
    ensures forall code :: !IsInterleaved(code, white, black, |turns|)
  {
    forall code ensures !IsInterleaved(code, white, black, |turns|) {
      UsedUp(turns, white, black, code);
    }
  }

  lemma ExhaustedIsNotTold(h: GameState, fens: seq<string>, g: GameState, turns: seq<Turn>, white: seq<string>,
                           black: seq<string>)
    requires IsPlaying(h, fens, g, turns, white, black) && Untimed(g) && h.status == Active
    requires forall code :: !IsInterleaved(code, white, black, |turns|)
    ensures !IsTold(white, black)
  {
    hide PlaysLists, Ordered, IsRun, After, BoardTexts, AreParsed, IsTold;
    WhilePlaying(h, fens, g, turns, white, black);
    NotTold(g, turns, white, black);
  }

  lemma RefusedIsNotTold(h: GameState, fens: seq<string>, g: GameState, turns: seq<Turn>, code: string,
                         white: seq<string>, black: seq<string>)
    requires IsPlaying(h, fens, g, turns, white, black) && Untimed(g) && h.status == Active && Ordered(h.board)
    requires IsInterleaved(code, white, black, |turns|) && !Accepts(h, code, 0)
    ensures !IsTold(white, black)
  {
    hide PlaysLists, Ordered, IsRun, After, BoardTexts, AreParsed, IsTold, Accepts;
    WhilePlaying(h, fens, g, turns, white, black);
    NotTold(g, turns, white, black);
  }

  /** On a board in order the standard engine does what the runs are made of. */
  lemma StandardMove(h: GameState, code: string, now: int)
    requires Ordered(h.board)
    ensures MoveBy(StandardEngine(), h, code, now)
              == if Accepts(h, code, now) then Some(AfterMove(h, code, now)) else None
  {
    var e := StandardEngine();
    hide StandardEngine;
    MoveByIsMove(e, h, code, now);
  }

  /** Where the next code is refused, or there is none, or the game is over, the run is as long as it gets. */
  lemma RefusedIsNoted(h: GameState, fens: seq<string>, g: GameState, turns: seq<Turn>, code: string,
                       white: seq<string>, black: seq<string>)
    requires IsPlaying(h, fens, g, turns, white, black) && Untimed(g) && Ordered(h.board)
    requires IsInterleaved(code, white, black, |turns|) && !Accepts(h, code, 0)
    ensures IsNoted(fens, g, turns, white, black)
  {
    hide Ordered, IsRun, After, BoardTexts, AreParsed, Accepts, Untimed;
  }

  lemma ExhaustedIsNoted(h: GameState, fens: seq<string>, g: GameState, turns: seq<Turn>, white: seq<string>,
                         black: seq<string>)
    requires IsPlaying(h, fens, g, turns, white, black) && Untimed(g)
    requires forall code :: !IsInterleaved(code, white, black, |turns|)
    ensures IsNoted(fens, g, turns, white, black)
  {
    hide Ordered, IsRun, After, BoardTexts, AreParsed, Accepts, Untimed, IsInterleaved;
  }

  lemma EndedIsNoted(h: GameState, fens: seq<string>, g: GameState, turns: seq<Turn>, white: seq<string>,
                     black: seq<string>)
    requires IsPlaying(h, fens, g, turns, white, black) && Untimed(g) && h.status == Expired
    ensures IsNoted(fens, g, turns, white, black)
  {
    hide Ordered, IsRun, After, BoardTexts, AreParsed, Untimed, IsInterleaved;
    forall code ensures !Accepts(After(g, turns), code, 0) {
      OnlyActiveAccepts(After(g, turns), Turn(code, 0));
    }
  }

  /** A game that was told and played to its end is whole. */
  lemma PlayedIsWhole(h: GameState, fens: seq<string>, g: GameState, turns: seq<Turn>, white: seq<string>,
                      black: seq<string>)
    requires IsPlaying(h, fens, g, turns, white, black) && Untimed(g) && h.status == Expired && IsTold(white, black)
    ensures PlaysLists(g, turns, white, black) && IsFresh(g) && Ordered(g.board) && IsRun(g, turns) && IsWhole(g, turns)
    ensures fens == BoardTexts(g, turns)
  {
    hide Ordered, IsRun, After, BoardTexts, AreParsed, Untimed, IsInterleaved, IsTold, IsFresh, MoveOf;
    EndedIsWhole(g, turns, white, black);
  }

  // ----- What a final validation remembers --------------------------------------------------------------------

  /** After the leftovers, the boards of the game that the lists tell are noted. */
  ghost predicate IsKeptBy(moves: Pair<seq<MoveDetails>>, leftover: seq<string>, noted: seq<string>, white: int,
                           fens: seq<string>, g: GameState, turns: seq<Turn>)
  {
    && IsReport(moves, white) && leftover + fens <= noted
    && PlaysLists(g, turns, Codes(moves.At(white)), Codes(moves.At(1 - white)))
    && Ordered(g.board) && IsRun(g, turns) && IsWhole(g, turns) && fens == BoardTexts(g, turns)
  }

  ghost predicate IsKept(moves: Pair<seq<MoveDetails>>, leftover: seq<string>, noted: seq<string>) {
    exists white, fens, g, turns :: IsKeptBy(moves, leftover, noted, white, fens, g, turns)
  }

  lemma Keeps(moves: Pair<seq<MoveDetails>>, leftover: seq<string>, noted: seq<string>, white: int,
              fens: seq<string>, g: GameState, turns: seq<Turn>)
    requires IsReport(moves, white) && leftover + fens <= noted
    requires PlaysLists(g, turns, Codes(moves.At(white)), Codes(moves.At(1 - white)))
    requires Ordered(g.board) && IsRun(g, turns) && IsWhole(g, turns) && fens == BoardTexts(g, turns)
    ensures IsKept(moves, leftover, noted)
  {
    hide PlaysLists, Ordered, IsRun, IsWhole, BoardTexts, IsReport;
    assert IsKeptBy(moves, leftover, noted, white, fens, g, turns);
  }

  lemma KeptIsReport(moves: Pair<seq<MoveDetails>>, leftover: seq<string>, noted: seq<string>)
    requires IsKept(moves, leftover, noted)
    ensures exists white :: IsReport(moves, white)
  {
    hide PlaysLists, Ordered, IsRun, IsWhole, BoardTexts, IsReport;
  }

  lemma KeptGame(moves: Pair<seq<MoveDetails>>, leftover: seq<string>, noted: seq<string>)
    returns (white: int, fens: seq<string>, g: GameState, turns: seq<Turn>)
    requires IsKept(moves, leftover, noted)
    ensures IsReport(moves, white) && leftover + fens <= noted
    ensures PlaysLists(g, turns, Codes(moves.At(white)), Codes(moves.At(1 - white)))
    ensures Ordered(g.board) && IsRun(g, turns) && IsWhole(g, turns) && fens == BoardTexts(g, turns)
  {
    hide PlaysLists, Ordered, IsRun, IsWhole, BoardTexts;
    white, fens, g, turns :| IsKeptBy(moves, leftover, noted, white, fens, g, turns);
  }

  lemma AlikeBoards(h: GameState, g: GameState)
    requires Alike(h, g)
    ensures h.board == g.board
  {
  }

  /** The lists tell one game: two runs that play them to its end go over the same boards. */
  lemma WholeTwice(h: GameState, others: seq<Turn>, g: GameState, turns: seq<Turn>, white: seq<string>,
                   black: seq<string>)
    requires PlaysLists(h, others, white, black) && PlaysLists(g, turns, white, black) && Untimed(h)
    requires Ordered(h.board) && IsRun(h, others) && IsWhole(h, others)
    requires Ordered(g.board) && IsRun(g, turns) && IsWhole(g, turns)
    ensures BoardTexts(h, others) == BoardTexts(g, turns)
  {
    SameLists(h, others, g, turns, white, black);
    WholeParts(h, others);
    WholeParts(g, turns);
    AlikeBoards(h, g);
    hide *;
    EndedTogether(h, others, g, turns);
    SameCodesSameBoards(g, turns, h, others);
  }

  /** Playing the same lists again goes over the same boards. */
  lemma SameGameAgain(moves: Pair<seq<MoveDetails>>, leftover: seq<string>, noted: seq<string>, white: int,
                      fens: seq<string>, h: GameState, others: seq<Turn>)
    requires IsKept(moves, leftover, noted) && WhiteListOf(moves) == Ok(white)
    requires PlaysLists(h, others, Codes(moves.At(white)), Codes(moves.At(1 - white)))
    requires Ordered(h.board) && IsRun(h, others) && IsWhole(h, others) && Untimed(h) && fens == BoardTexts(h, others)
    ensures leftover + fens <= noted
  {
    hide IsKept, WhiteListOf, Codes, Ordered, IsRun, BoardTexts, IsReport, IsFresh, IsInterleaved, IsWhole, Untimed;
    var w, kept, g, turns := KeptGame(moves, leftover, noted);
    ReportIsFound(moves);
    WholeTwice(h, others, g, turns, Codes(moves.At(white)), Codes(moves.At(1 - white)));
  }

  // ----- From the game to the replay ---------------------------------------------------------------------

  /** The list the i-th move comes from. */
  function Side(moves: Pair<seq<MoveDetails>>, white: int, i: nat): seq<MoveDetails> {
    moves.At(if i % 2 == 0 then white else 1 - white)
  }

  /** An entry of the replay: the move as played, which prints as it was sent, and the board noted after it. */
  predicate IsPaired(info: MoveInfo, sent: seq<MoveDetails>, i: nat, m: Move, fen: string) {
    && -1 <= m.source < 64 && -1 <= m.target < 64
    && i / 2 < |sent| && sent[i / 2].move == EncodeMove(m)
    && info.move == m && info.fen == fen
  }

  /** The text the client sent for a move is what the move prints as. */
  predicate PrintsAs(sent: seq<MoveDetails>, i: nat, m: Move) {
    -1 <= m.source < 64 && -1 <= m.target < 64 && i / 2 < |sent| && sent[i / 2].move == EncodeMove(m)
  }

  /** In a told game every move prints as it was sent. */
  lemma AllPrint(h: GameState, fens: seq<string>, g: GameState, turns: seq<Turn>, moves: Pair<seq<MoveDetails>>,
                 white: int, i: nat)
    requires white == 0 || white == 1
    requires IsPlaying(h, fens, g, turns, Codes(moves.At(white)), Codes(moves.At(1 - white)))
    requires Untimed(g) && h.status == Expired && IsTold(Codes(moves.At(white)), Codes(moves.At(1 - white)))
    requires i < |h.history|
    ensures PrintsAs(Side(moves, white, i), i, h.history[i])
  {
    hide Ordered, IsRun, After, BoardTexts, IsFresh, IsTold, ParseMove, EncodeMove, Untimed;
    var (w, b) := (Codes(moves.At(white)), Codes(moves.At(1 - white)));
    EndedIsWhole(g, turns, w, b);
    assert ParseMove(turns[i].code) == Ok(h.history[i]) && !IsNull(MoveOf(turns[i]));
    CodeReadsBack(turns[i].code);
    assert IsInterleaved(turns[i].code, w, b, i);
  }

  lemma PairedFens(history: seq<MoveInfo>, moves: Pair<seq<MoveDetails>>, white: int, played: seq<Move>,
                   fens: seq<string>)
    requires (white == 0 || white == 1) && |history| == |played| <= |fens|
    requires forall i | 0 <= i < |played| ::
               IsPaired(history[i], Side(moves, white, i), i, played[i], fens[i])
    ensures forall i | 0 <= i < |history| :: history[i].fen == fens[i]
  {
  }

  lemma PairedCorrected(r: Replay, moves: Pair<seq<MoveDetails>>, white: int, played: seq<Move>, noted: seq<string>,
                        fens: seq<string>)
    requires (white == 0 || white == 1) && |r.history| == |played| == |fens| <= |noted|
    requires forall i | 0 <= i < |played| ::
               IsPaired(r.history[i], Side(moves, white, i), i, played[i], noted[i])
    ensures var c := Corrected(r, fens);
            |c.history| == |played| && forall i | 0 <= i < |played| ::
              IsPaired(c.history[i], Side(moves, white, i), i, played[i], fens[i])
  {
    hide EncodeMove;
  }

  lemma PlayedMovesInRange(h: GameState, fens: seq<string>, g: GameState, turns: seq<Turn>, white: seq<string>,
                           black: seq<string>)
    requires IsPlaying(h, fens, g, turns, white, black)
    ensures |h.history| == |fens| && forall m | m in h.history :: -1 <= m.source < 64 && -1 <= m.target < 64
  {
    forall i | 0 <= i < |h.history| ensures -1 <= h.history[i].source < 64 && -1 <= h.history[i].target < 64 {
      ParsedMoves(turns[i].code);
    }
  }

  /** A move that reads back as the text it was read from is no null move, and stands for that text. */
  lemma PairedIsEntry(info: MoveInfo, sent: seq<MoveDetails>, i: nat, m: Move, fen: string, turn: Turn,
                      white: seq<string>, black: seq<string>)
    requires IsPaired(info, sent, i, m, fen) && ParseMove(turn.code) == Ok(m)
    requires IsInterleaved(turn.code, white, black, i) && Codes(sent) == (if i % 2 == 0 then white else black)
    ensures IsEntry(info, turn)
  {
    ParsedMoves(turn.code);
    NullMoveIsUnreadable();
    hide ParseMove, EncodeMove;
  }

  lemma PlayedHasResult(h: GameState, fens: seq<string>, g: GameState, turns: seq<Turn>, white: seq<string>,
                        black: seq<string>)
    requires IsPlaying(h, fens, g, turns, white, black)
    ensures HasFittingResult(h)
  {
    hide Ordered, IsRun, After, BoardTexts;
    FreshHasNoResult(g);
    ResultOfRun(g, turns);
  }

  lemma PlayedIsSound(r: Replay, h: GameState, fens: seq<string>, g: GameState, turns: seq<Turn>,
                      moves: Pair<seq<MoveDetails>>, white: int)
    requires white == 0 || white == 1
    requires IsPlaying(h, fens, g, turns, Codes(moves.At(white)), Codes(moves.At(1 - white)))
    requires h.winner == Some(r.winner) && h.reason == Some(r.reason)
    requires |r.history| == |h.history| == |fens|
    requires forall i | 0 <= i < |h.history| ::
               IsPaired(r.history[i], Side(moves, white, i), i, h.history[i], fens[i])
    ensures IsSound(r, Codes(moves.At(white)), Codes(moves.At(1 - white)))
  {
    hide Ordered, IsRun, After, BoardTexts, IsEntry, IsPaired, Codes, IsFresh;
    var (w, b) := (Codes(moves.At(white)), Codes(moves.At(1 - white)));
    WhilePlaying(h, fens, g, turns, w, b);
    FreshHasNoResult(g);
    ResultOfRun(g, turns);
    forall i | 0 <= i < |turns| ensures IsEntry(r.history[i], turns[i]) {
      PairedIsEntry(r.history[i], Side(moves, white, i), i, h.history[i], fens[i], turns[i], w, b);
    }
    PairedFens(r.history, moves, white, h.history, fens);
    assert Fens(r.history) == fens;
    assert TellsGame(r, g, turns, w, b);
  }

  // ----- The validation ----------------------------------------------------------------------------------

  /** The program's infinite timeout: what is left of it is never used up, for no request is ever timed. */
  const TIMEOUT := 1

  class GameValidation {
    var moves: Option<Pair<seq<MoveDetails>>>
    var driver: Option<string>
    var engines: Option<Pair<string>>
    var final: bool
    var fenHistory: seq<string>
    /** The boards noted by calls of `Finalize` that gave no replay. */
    ghost var leftover: seq<string>

    ghost predicate Valid()
      reads this
    {
      && AreLeftovers(leftover)
      && (!final ==> fenHistory == leftover)
      && (final ==> moves.Some? && driver.Some? && engines.Some? && IsKept(moves.value, leftover, fenHistory))
    }

    constructor ()
      ensures Valid()
      ensures moves == None && driver == None && engines == None && !final && fenHistory == []
    {
      moves, driver, engines, final, fenHistory, leftover := None, None, None, false, [], [];
    }

    method AddMoves(moves: Pair<seq<MoveDetails>>) returns (ok: bool)
      requires Valid()
      modifies this`moves
      ensures Valid() && ok == !final && this.moves == if ok then Some(moves) else old(this.moves)
    {
      if final {
        return false;
      }
      this.moves := Some(moves);
      return true;
    }

    method AddDriver(driver: string) returns (ok: bool)
      requires Valid()
      modifies this`driver
      ensures Valid() && ok == !final && this.driver == if ok then Some(driver) else old(this.driver)
    {
      if final {
        return false;
      }
      this.driver := Some(driver);
      return true;
    }

    method AddEngines(engines: Pair<string>) returns (ok: bool)
      requires Valid()
      modifies this`engines
      ensures Valid() && ok == !final && this.engines == if ok then Some(engines) else old(this.engines)
    {
      if final {
        return false;
      }
      this.engines := Some(engines);
      return true;
    }

    method WhiteIndex(moves: Pair<seq<MoveDetails>>) returns (result: Result<int>)
      ensures result == WhiteListOf(moves)
    {
      if |moves.first| == 0 && |moves.second| == 0 {
        return Fail;
      }
      var engine := if |moves.first| > 0 then 0 else 1;
      var parsed := ParseMove(moves.At(engine)[0].move);
      if parsed.Fail? || parsed.value.source == -1 || parsed.value.target == -1 {
        return Fail;
      }
      var diff := parsed.value.target - parsed.value.source;
      if diff < 0 {
        return Ok(engine);
      }
      return Ok(if engine == 0 then 1 else 0);
    }

    /** A standard game with both players registered. */
    method NewGame() returns (game: Game)
      ensures fresh(game) && fresh(game.board) && fresh(game.board.positions)
      ensures game.Valid() && IsFresh(game.State()) && Untimed(game.State()) && game.status == Active
    {
      CreateStandard("id", TIMEOUT, 0);
      hide StartBoard, Create, WellFormed, Hash;
      var created := Create("id", TIMEOUT, 0, None);
      game := new Game(created.value);
      var white := Register(game, "white", Some(White), White);
      assert game.players == ColorMap(Some("white"), None);
      var black := Register(game, "black", Some(Black), White);
    }

    /** Makes one move of the lists and notes the board it leads to. */
    method PlayTurn(game: Game, code: string, ghost fens: seq<string>, ghost g: GameState, ghost turns: seq<Turn>,
                    ghost white: seq<string>, ghost black: seq<string>) returns (ok: bool)
      requires game.Valid() && IsPlaying(game.State(), fens, g, turns, white, black)
      requires IsInterleaved(code, white, black, |turns|)
      modifies this`fenHistory, game, game.board, game.board.positions
      ensures game.Valid()
      ensures !ok ==> fenHistory == old(fenHistory) && !Accepts(old(game.State()), code, 0)
      ensures ok ==> game.status == Active || game.status == Expired
      ensures ok ==> Encodable(game.board.State())
      ensures ok ==> fenHistory == old(fenHistory) + [Encode(game.board.State())]
      ensures ok ==>
                var text := Encode(game.board.State());
                IsPlaying(game.State(), fens + [text], g, turns + [Turn(code, 0)], white, black)
    {
      ghost var h := game.State();
      hide *;
      WhilePlaying(h, fens, g, turns, white, black);
      StandardMove(h, code, 0);
      ok := game.Move(code, 0);
      if ok {
        KeepsPlaying(h, fens, g, turns, Turn(code, 0), white, black);
        TurnPasses(h, Turn(code, 0));
        fenHistory := fenHistory + [Encode(game.board.State())];
      }
    }

    /** Plays the two lists on a new game as far as they go, noting every board. A move that throws ends it without
        a game; a game that is not over then is none that the lists tell. */
    method Play(white: seq<string>, black: seq<string>)
      returns (ok: bool, game: Game, ghost fens: seq<string>, ghost g: GameState, ghost turns: seq<Turn>)
      modifies this`fenHistory
      ensures fresh(game) && fresh(game.board) && fresh(game.board.positions) && game.Valid()
      ensures fenHistory == old(fenHistory) + fens
      ensures IsNoted(fens, g, turns, white, black)
      ensures !ok ==> !IsTold(white, black)
      ensures ok ==> IsPlaying(game.State(), fens, g, turns, white, black) && Untimed(g)
      ensures ok ==> game.status == Expired || !IsTold(white, black)
    {
      hide *;
      game := NewGame();
      g, turns, fens := game.State(), [], [];
      StartsPlaying(g, white, black);
      var max := |white| + |black|;
      var idx := 0;
      for i := 0 to max
        invariant game.Valid() && fresh(game) && fresh(game.board) && fresh(game.board.positions)
        invariant fenHistory == old(fenHistory) + fens
        invariant IsPlaying(game.State(), fens, g, turns, white, black) && game.status == Active
        invariant |turns| == i && idx == i / 2
      {
        WhoseTurn(game, fens, g, turns, white, black);
        var moves := if game.board.next == White then white else black;
        ghost var h := game.State();
        if idx >= |moves| {
          NoneLeft(moves, white, black, i, game.board.next);
          ExhaustedIsNotTold(h, fens, g, turns, white, black);
          ExhaustedIsNoted(h, fens, g, turns, white, black);
          break;
        }
        NextOfList(moves, white, black, i, idx, game.board.next);
        ok := PlayTurn(game, moves[idx], fens, g, turns, white, black);
        if !ok {
          RefusedIsNotTold(h, fens, g, turns, moves[idx], white, black);
          RefusedIsNoted(h, fens, g, turns, moves[idx], white, black);
          return false, game, fens, g, turns;
        }
        turns := turns + [Turn(moves[idx], 0)];
        fens := fens + [Encode(game.board.State())];
        if game.status == Expired {
          WhoseTurn(game, fens, g, turns, white, black);
          EndedIsNoted(game.State(), fens, g, turns, white, black);
          break;
        }
        WhoseTurn(game, fens, g, turns, white, black);
        if game.board.next == White {
          idx := idx + 1;
        }
      }
      if game.status == Active && |turns| == max {
        WhoseTurn(game, fens, g, turns, white, black);
        AllUsedUp(game.State(), fens, g, turns, white, black);
        ExhaustedIsNotTold(game.State(), fens, g, turns, white, black);
        ExhaustedIsNoted(game.State(), fens, g, turns, white, black);
      }
      ok := true;
    }

    /** Pairs the moves of the game with what the client sent, and refuses any that reads differently. */
    method History(moves: Pair<seq<MoveDetails>>, played: seq<Move>, white: int) returns (result: Result<seq<MoveInfo>>)
      requires (white == 0 || white == 1) && |played| <= |fenHistory|
      requires forall m | m in played :: -1 <= m.source < 64 && -1 <= m.target < 64
      ensures result.Ok? ==> |result.value| == |played|
      ensures result.Ok? ==> forall i | 0 <= i < |played| ::
                IsPaired(result.value[i], Side(moves, white, i), i, played[i], fenHistory[i])
      ensures result.Fail? ==> exists i | 0 <= i < |played| ::
                !PrintsAs(Side(moves, white, i), i, played[i])
    {
      var colorIdx := white;
      var history: seq<MoveInfo> := [];
      hide EncodeMove;
      for i := 0 to |played|
        invariant colorIdx == if i % 2 == 0 then white else 1 - white
        invariant |history| == i
        invariant forall j | 0 <= j < i ::
                    IsPaired(history[j], moves.At(if j % 2 == 0 then white else 1 - white), j, played[j], fenHistory[j])
      {
        var idx := i / 2;
        assert played[i] in played;
        if idx >= |moves.At(colorIdx)| {
          assert !PrintsAs(moves.At(colorIdx), i, played[i]);
          return Fail;
        }
        var details := moves.At(colorIdx)[idx];
        var historyMove := EncodeMove(played[i]);
        if details.move != historyMove {
          assert !PrintsAs(moves.At(colorIdx), i, played[i]);
          return Fail;
        }
        history := history + [MoveInfo(played[i], fenHistory[i])];
        colorIdx := 1 - colorIdx;
      }
      result := Ok(history);
    }

    /** The replay of a game that was played, if it was won or drawn on the board and reads as it was sent. */
    method Validate(game: Game, white: int, ghost fens: seq<string>, ghost g: GameState, ghost turns: seq<Turn>)
      returns (result: Result<Replay>)
      requires (white == 0 || white == 1) && moves.Some? && driver.Some? && engines.Some?
      requires IsPlaying(game.State(), fens, g, turns, Codes(moves.value.At(white)), Codes(moves.value.At(1 - white)))
      requires |fens| <= |fenHistory| && Untimed(g)
      requires game.status == Expired || !IsTold(Codes(moves.value.At(white)), Codes(moves.value.At(1 - white)))
      ensures result.Ok? <==> IsTold(Codes(moves.value.At(white)), Codes(moves.value.At(1 - white)))
      ensures result.Ok? ==>
                && result.value.driver == driver.value
                && result.value.engines == ColorMap(engines.value.At(white), engines.value.At(1 - white))
                && |result.value.history| <= |fenHistory|
                && (forall i | 0 <= i < |result.value.history| :: result.value.history[i].fen == fenHistory[i])
      ensures result.Ok? ==>
                && |result.value.history| == |fens|
                && var (w, b) := (Codes(moves.value.At(white)), Codes(moves.value.At(1 - white)));
                   IsSound(Corrected(result.value, fens), w, b)
    {
      hide IsSound, Codes, IsPaired, IsPlaying, IsTold, PrintsAs;
      ghost var w, b := Codes(moves.value.At(white)), Codes(moves.value.At(1 - white));
      PlayedHasResult(game.State(), fens, g, turns, w, b);
      if game.winner.None? || game.reason.None? {
        return Fail;
      }
      if game.reason == Some(OutOfTime) || game.reason == Some(Resignation) {
        return Fail;
      }
      hide HasFittingResult;
      PlayedMovesInRange(game.State(), fens, g, turns, w, b);
      var history := History(moves.value, game.history, white);
      if history.Fail? {
        if IsTold(w, b) {
          forall i | 0 <= i < |game.history|
            ensures PrintsAs(Side(moves.value, white, i), i, game.history[i])
          {
            AllPrint(game.State(), fens, g, turns, moves.value, white, i);
          }
        }
        return Fail;
      }
      var engines := ColorMap(this.engines.value.At(white), this.engines.value.At(1 - white));
      result := Ok(Replay(driver.value, engines, game.winner.value, game.reason.value, history.value));
      PairedFens(history.value, moves.value, white, game.history, fenHistory);
      PairedCorrected(result.value, moves.value, white, game.history, fenHistory, fens);
      PlayedIsSound(Corrected(result.value, fens), game.State(), fens, g, turns, moves.value, white);
      SoundIsTold(Corrected(result.value, fens), w, b);
    }

    /** Plays and validates the two lists, with the one of this number as white's. */
    method Rebuild(white: int) returns (result: Result<Replay>, ghost fens: seq<string>)
      requires Valid() && moves.Some? && driver.Some? && engines.Some? && WhiteListOf(moves.value) == Ok(white)
      modifies this`fenHistory, this`final, this`leftover
      ensures Valid() && final == (old(final) || result.Ok?)
      ensures fenHistory == old(fenHistory) + fens
      ensures white == 0 || white == 1
      ensures IsAttempt(fens, Codes(moves.value.At(white)), Codes(moves.value.At(1 - white)))
      ensures result.Ok? <==> IsReport(moves.value, white)
      ensures result.Ok? ==>
                && result.value.driver == driver.value
                && result.value.engines == ColorMap(engines.value.At(white), engines.value.At(1 - white))
                && |result.value.history| == |fens|
                && (forall i | 0 <= i < |fens| :: result.value.history[i].fen == fenHistory[i])
      ensures result.Ok? ==>
                var (w, b) := (Codes(moves.value.At(white)), Codes(moves.value.At(1 - white)));
                && IsSound(Corrected(result.value, fens), w, b)
                && (IsSound(result.value, w, b) <==> leftover == [])
      ensures leftover == if old(final) then old(leftover) else if result.Ok? then old(fenHistory) else fenHistory
    {
      hide IsSound, IsTold, Codes, IsPaired, IsPlaying, WhiteListOf, Fens, Corrected, Untimed, IsReport, IsKept;
      hide AreLeftovers, IsNoted, IsAttempt, IsWhole, BoardTexts, PlaysLists, IsRun, IsFresh, Ordered, WellFormed;
      WhiteListInRange(moves.value);
      ReportIsFound(moves.value);
      ReportIsTold(moves.value, white);
      if final {
        KeptIsReport(moves.value, leftover, fenHistory);
      }
      ghost var w, b := Codes(moves.value.At(white)), Codes(moves.value.At(1 - white));
      var ok, game;
      ghost var g, turns;
      ok, game, fens, g, turns := Play(Codes(moves.value.At(white)), Codes(moves.value.At(1 - white)));
      Attempted(fens, g, turns, w, b);
      if ok {
        result := Validate(game, white, fens, g, turns);
      } else {
        result := Fail;
      }
      if result.Fail? {
        LeftoversGrow(leftover, fens, w, b);
        leftover := fenHistory;
        return;
      }
      PlayedIsWhole(game.State(), fens, g, turns, w, b);
      if final {
        SameGameAgain(moves.value, leftover, old(fenHistory), white, fens, g, turns);
      }
      Keeps(moves.value, leftover, fenHistory, white, fens, g, turns);
      NotesDecide(leftover, fenHistory, fens, g, turns);
      SoundnessIsExact(result.value, fens, w, b);
      FensAre(result.value.history, fenHistory[..|fens|]);
      final := true;
    }

    /** The replay of the reported game. There is one exactly when the two lists, one way round, are a standard
        game played to its end on the board. Every call that gets that far notes the boards of the lists as far as
        they can be played. The replay is sound but for its notations, and those are right exactly when no earlier
        call has noted boards and given no replay: before the first replay, when nothing has been noted. */
    method Finalize() returns (result: Result<Replay>, ghost white: int, ghost fens: seq<string>)
      requires Valid()
      modifies this`fenHistory, this`final, this`leftover
      ensures Valid() && final == (old(final) || result.Ok?)
      ensures fenHistory == old(fenHistory) + fens
      ensures if moves.Some? && driver.Some? && engines.Some? && WhiteListOf(moves.value).Ok? then
                && WhiteListOf(moves.value) == Ok(white)
                && IsAttempt(fens, Codes(moves.value.At(white)), Codes(moves.value.At(1 - white)))
              else fens == []
      ensures result.Ok? <==> moves.Some? && driver.Some? && engines.Some? && exists i :: IsReport(moves.value, i)
      ensures result.Ok? ==> moves.Some? && driver.Some? && engines.Some? && (white == 0 || white == 1)
      ensures result.Ok? ==>
                && result.value.driver == driver.value
                && result.value.engines == ColorMap(engines.value.At(white), engines.value.At(1 - white))
                && |result.value.history| == |fens|
                && (forall i | 0 <= i < |fens| :: result.value.history[i].fen == fenHistory[i])
      ensures result.Ok? ==>
                var (w, b) := (Codes(moves.value.At(white)), Codes(moves.value.At(1 - white)));
                && IsSound(Corrected(result.value, fens), w, b)
                && (IsSound(result.value, w, b) <==> leftover == [])
      ensures leftover == if old(final) then old(leftover) else if result.Ok? then old(fenHistory) else fenHistory
    {
      hide IsSound, IsTold, Codes, Corrected, IsReport, IsKept, WhiteListOf, AreLeftovers, IsAttempt;
      white, fens := 0, [];
      if moves.None? || driver.None? || engines.None? {
        return Fail, white, fens;
      }
      if final {
        KeptIsReport(moves.value, leftover, fenHistory);
      }
      ReportIsFound(moves.value);
      var index := WhiteIndex(moves.value);
      if index.Fail? {
        return Fail, white, fens;
      }
      white := index.value;
      result, fens := Rebuild(index.value);
    }
  }
}
