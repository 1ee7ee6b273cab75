/** A chess game: players, clock, history, and the state machine that moves drive. */
module Games {
  import opened Boards
  import opened Rules
  import opened Text
  import opened Moving
  import opened Castling
  import opened Accounting
  import opened KingSafety
  import opened Fen
  import opened Analysis

  datatype Status = Waiting | Active | Expired

  datatype Reason = RuleViolation | OutOfTime | Resignation | Decided(ending: Ending)

  datatype Winner = Won(color: Color) | Drawn

  datatype ColorMap<T> = ColorMap(white: T, black: T) {
    function Of(color: Color): T { if color.White? then white else black }
    function With(color: Color, value: T): ColorMap<T> {
      if color.White? then ColorMap(value, black) else ColorMap(white, value)
    }
  }

  /** The value of a game at one moment. */
  datatype GameState = GameState(
    id: string,
    startFen: string,
    players: ColorMap<Option<string>>,
    time: ColorMap<int>,
    timeback: ColorMap<int>,
    lastRequest: int,
    history: seq<Move>,
    positionHistory: seq<string>,
    status: Status,
    board: BoardState,
    winner: Option<Winner>,
    reason: Option<Reason>)

  // ----- What a call of `move` does -----------------------------------------------------------------------

  /** What every board of a game has in order, whatever moves were accepted on the way. */
  ghost predicate Ordered(b: BoardState) {
    WellFormed(b.positions) && RightsAtHome(b) && EnPassantBehind(b)
  }

  function TimeLeft(g: GameState, now: int): int {
    g.time.Of(g.board.next) - if g.lastRequest > 0 then now - g.lastRequest else 0
  }

  predicate HasTime(g: GameState, now: int) { TimeLeft(g, now) > 0 }

  /** The clock of the side to move after a call at `now`. */
  function Clocked(g: GameState, now: int): GameState {
    if HasTime(g, now) then
      g.(time := g.time.With(g.board.next, TimeLeft(g, now) + g.timeback.Of(g.board.next)))
    else
      g.(time := g.time.With(g.board.next, TimeLeft(g, now)),
         status := Expired, reason := Some(OutOfTime), winner := Some(Won(g.board.next.Enemy())))
  }

  function Violated(g: GameState): GameState {
    g.(status := Expired, reason := Some(RuleViolation), winner := Some(Won(g.board.next.Enemy())))
  }

  predicate IsNull(m: Move) { m.source == -1 || m.target == -1 }

  /** The move is accepted on this board: the call that makes it does not throw. */
  ghost predicate Takes(b: BoardState, m: Move)
    requires Ordered(b)
  {
    if IsNull(m) then HasKing(b.positions, b.next) && !InCheck(b.positions, b.next)
    else
      && Accepted(b, m)
      && (AcceptedIsPerformable(b, m); HasKing(Perform(b, m).positions, b.next.Enemy()))
  }

  ghost predicate Accepts(g: GameState, code: string, now: int)
    requires Ordered(g.board)
  {
    g.status == Active && HasTime(g, now) && ParseMove(code).Ok? && Takes(g.board, ParseMove(code).value)
  }

  function NullBoard(b: BoardState): BoardState {
    b.(enPassant := None, halfMoves := b.halfMoves + 1,
       fullMoves := b.fullMoves + if b.next.Black? then 1 else 0, next := b.next.Enemy())
  }

  ghost function BoardAfter(b: BoardState, m: Move): (r: BoardState)
    requires Ordered(b) && Takes(b, m)
    ensures Ordered(r)
  {
    if IsNull(m) then NullBoard(b)
    else
      RightsStayHome(b, m);
      EnPassantStaysBehind(b, m);
      PerformIsWellFormed(b, m);
      Perform(b, m)
  }

  function Occurrences(history: seq<string>, h: string): nat { multiset(history)[h] }

  lemma FewOccurrences(history: seq<string>, h: string)
    ensures Occurrences(history, h) <= |history|
  {
    var all := multiset(history);
    assert |all| == |history|;
    assert multiset{}[h := all[h]] <= all;
  }

  /** How the game stands after a move led to this board: a third occurrence outweighs everything else. */
  ghost function Verdict(b: BoardState, positionHistory: seq<string>): Option<Ending>
    requires |b.positions| == 64
  {
    if Occurrences(positionHistory, Hash(b.positions)) >= 3 then Some(ThreefoldRepetition) else EndingOf(b)
  }

  function Ended(g: GameState, ending: Ending): GameState {
    g.(status := Expired, reason := Some(Decided(ending)),
       winner := Some(if ending.Checkmate? then Won(g.board.next.Enemy()) else Drawn))
  }

  /** The game after an accepted move. */
  ghost function Moved(g: GameState, m: Move): (r: GameState)
    requires Ordered(g.board) && Takes(g.board, m)
    ensures Ordered(r.board)
  {
    var b := BoardAfter(g.board, m);
    if IsNull(m) then g.(board := b, history := g.history + [m])
    else
      var played := g.(board := b, history := g.history + [m],
                       positionHistory := g.positionHistory + [Hash(b.positions)]);
      var ending := Verdict(b, played.positionHistory);
      if ending.Some? then Ended(played, ending.value) else played
  }

  ghost function AfterMove(g: GameState, code: string, now: int): (r: GameState)
    requires Ordered(g.board) && Accepts(g, code, now)
    ensures Ordered(r.board)
  {
    Moved(Clocked(g, now), ParseMove(code).value)
  }

  /** The game after a call that threw before it had touched the board. */
  ghost function AfterRefusal(g: GameState, code: string, now: int): GameState {
    if g.status != Active then g
    else if !HasTime(g, now) then Clocked(g, now)
    else if ParseMove(code).Fail? then Clocked(g, now)
    else Violated(Clocked(g, now))
  }

  // ----- What `move` does on any board ---------------------------------------------------------------------

  /** The rules a game is played by, as `move` calls them; `None` is a call that throws. */
  datatype Engine = Engine(
    checked: BoardState -> Option<bool>,
    valid: (BoardState, int, int) -> Option<bool>,
    perform: (BoardState, Move) -> Option<BoardState>,
    result: BoardState -> Option<Option<Ending>>)

  ghost predicate AgreesOn(e: Engine, b: BoardState)
    requires |b.positions| == 64
  {
    && e.checked(b) == (if HasKing(b.positions, b.next) then Some(InCheck(b.positions, b.next)) else None)
    && (forall s, t | OnBoard(s) && OnBoard(t) ::
          e.valid(b, s, t) == if Stumbles(b, s, t) then None else Some(Legal(b, s, t)))
    && (forall m: Move | Legal(b, m.source, m.target) ::
          e.perform(b, m) == if Performable(b, m) then Some(Perform(b, m)) else None)
    && e.result(b) ==
       (if SearchStumbles(b) || !HasKing(b.positions, b.next) then None else Some(EndingOf(b)))
  }

  /** The engine does what the analysis and `performMove` do on every board of 64 squares. On shorter boards, which
      a lax notation can give, it may do anything. */
  ghost predicate Agrees(e: Engine) {
    forall b: BoardState | WellFormed(b.positions) :: AgreesOn(e, b)
  }

  /** The rules of this repository, on boards of 64 squares. */
  ghost function StandardEngine(): (e: Engine)
    ensures Agrees(e)
  {
    Engine(
      (b: BoardState) =>
        if |b.positions| == 64 && HasKing(b.positions, b.next) then Some(InCheck(b.positions, b.next)) else None,
      (b: BoardState, s: int, t: int) =>
        if |b.positions| == 64 && !Stumbles(b, s, t) then Some(Legal(b, s, t)) else None,
      (b: BoardState, m: Move) =>
        if Performable(b, m) then Some(Perform(b, m)) else None,
      (b: BoardState) =>
        if |b.positions| == 64 && !SearchStumbles(b) && HasKing(b.positions, b.next) then Some(EndingOf(b)) else None)
  }

  /** A null move, by any engine's word whether the side to move is in check. */
  function NullBy(e: Engine, g: GameState): Option<GameState> {
    if e.checked(g.board) == Some(false) then Some(g.(board := NullBoard(g.board), history := g.history + [NULL_MOVE]))
    else None
  }

  function ConcludedBy(e: Engine, g: GameState): Option<GameState> {
    match e.result(g.board)
    case None => None
    case Some(ending) =>
      var repeated := Occurrences(g.positionHistory, Hash(g.board.positions)) >= 3;
      var verdict := if repeated then Some(ThreefoldRepetition) else ending;
      Some(if verdict.Some? then Ended(g, verdict.value) else g)
  }

  /** A move and its consequences, by any engine. */
  function PlayBy(e: Engine, g: GameState, m: Move): Option<GameState> {
    if e.valid(g.board, m.source, m.target) != Some(true) || !PromotionAllowed(m) then None
    else
      match e.perform(g.board, m)
      case None => None
      case Some(b) => ConcludedBy(e, g.(board := b, history := g.history + [m],
                                        positionHistory := g.positionHistory + [Hash(b.positions)]))
  }

  /** What a parsed move does to a game whose clock has been read. */
  function AnyBy(e: Engine, g: GameState, m: Move): Option<GameState> {
    if IsNull(m) then NullBy(e, g) else PlayBy(e, g, m)
  }

  /** The game after `move`, or `None` if the call throws: on any board and by any engine. */
  function MoveBy(e: Engine, g: GameState, code: string, now: int): Option<GameState> {
    if g.status != Active || !HasTime(g, now) || ParseMove(code).Fail? then None
    else AnyBy(e, Clocked(g, now), ParseMove(code).value)
  }

  /** The move cannot be played, or leaves a board on which the search for an ending throws. */
  ghost predicate BreaksAfter(b: BoardState, m: Move)
    requires |b.positions| == 64
  {
    !Performable(b, m) ||
    var r := Perform(b, m); SearchStumbles(r) || !HasKing(r.positions, r.next)
  }

  /** What the standard engine does with a move, step by step. */
  lemma PlayByParts(g: GameState, m: Move)
    requires WellFormed(g.board.positions) && OnBoard(m.source) && OnBoard(m.target)
    ensures var r := PlayBy(StandardEngine(), g, m);
            && (r.Some? <==> !Stumbles(g.board, m.source, m.target) && Accepted(g.board, m) && !BreaksAfter(g.board, m))
            && (r.Some? ==>
                  var b := Perform(g.board, m);
                  var played := g.(board := b, history := g.history + [m],
                                   positionHistory := g.positionHistory + [Hash(b.positions)]);
                  var verdict := Verdict(b, played.positionHistory);
                  r == Some(if verdict.Some? then Ended(played, verdict.value) else played))
  {
    var e := StandardEngine();
    assert AgreesOn(e, g.board);
    if Accepted(g.board, m) && Performable(g.board, m) {
      PerformIsWellFormed(g.board, m);
      assert AgreesOn(e, Perform(g.board, m));
    }
    hide StandardEngine, WellFormed, Stumbles, SearchStumbles, Legal, EndingOf, Perform, Performable, Hash, Occurrences;
  }

  lemma NullByParts(g: GameState)
    requires WellFormed(g.board.positions)
    ensures NullBy(StandardEngine(), g)
              == if HasKing(g.board.positions, g.board.next) && !InCheck(g.board.positions, g.board.next)
                 then Some(g.(board := NullBoard(g.board), history := g.history + [NULL_MOVE])) else None
  {
    assert AgreesOn(StandardEngine(), g.board);
    hide StandardEngine, InCheck, WellFormed;
  }

  /** The call throws inside the search for a threat or for a valid move, or writes off the board: for a null
      move, without a king; for another, when validating it throws, or when it is accepted and breaks after. */
  ghost predicate BreaksOn(b: BoardState, m: Move)
    requires |b.positions| == 64
  {
    if IsNull(m) then !HasKing(b.positions, b.next)
    else Stumbles(b, m.source, m.target) || (Accepted(b, m) && BreaksAfter(b, m))
  }

  ghost predicate Breaks(g: GameState, code: string, now: int)
    requires |g.board.positions| == 64
  {
    g.status == Active && HasTime(g, now) && ParseMove(code).Ok? && BreaksOn(g.board, ParseMove(code).value)
  }

  // ----- Boards in order ------------------------------------------------------------------------------------

  /** An accepted move leaves a board in order. */
  lemma AcceptedAfter(b: BoardState, m: Move)
    requires Ordered(b)
    ensures Accepted(b, m) ==> Performable(b, m) && Ordered(Perform(b, m)) && Perform(b, m).next == b.next.Enemy()
  {
    if Accepted(b, m) {
      RightsStayHome(b, m);
      EnPassantStaysBehind(b, m);
      PerformIsWellFormed(b, m);
    }
  }

  /** On a board in order with a king to look for, no search throws. */
  lemma KingKeepsFooting(b: BoardState)
    requires Ordered(b) && HasKing(b.positions, b.next)
    ensures !SearchStumbles(b) && forall s, t :: !Stumbles(b, s, t)
  {
    SaneIsPlayable(b);
    InPlayNeverStumbles(b);
  }

  /** On a board in order a move whose validation throws is none that is accepted. */
  lemma NoneIsAccepted(b: BoardState, m: Move)
    requires Ordered(b)
    ensures Stumbles(b, m.source, m.target) ==> !Accepted(b, m)
  {
    if Unlistable(b, m.source) && Occupied(b.positions, m.source, b.next) {
      RightsAtHomeFit(b);
      assert false;
    }
    hide CanMove, Played, InCheck;
  }

  lemma PlayByIsMoved(e: Engine, g: GameState, m: Move)
    requires Agrees(e) && Ordered(g.board) && Accepted(g.board, m)
    requires !IsNull(m) && OnBoard(m.source) && OnBoard(m.target)
    ensures PlayBy(e, g, m) == if Takes(g.board, m) then Some(Moved(g, m)) else None
  {
    NoneIsAccepted(g.board, m);
    AcceptedAfter(g.board, m);
    var r := Perform(g.board, m);
    assert AgreesOn(e, g.board) && AgreesOn(e, r);
    if HasKing(r.positions, r.next) {
      KingKeepsFooting(r);
    }
    hide WellFormed, RightsAtHome, EnPassantBehind, Hash, Occurrences, Stumbles, SearchStumbles, EndingOf,
      Perform, CanMove;
  }

  /** On a board in order, the call succeeds exactly for what is accepted, and gives the game after it. */
  lemma MoveByIsMove(e: Engine, g: GameState, code: string, now: int)
    requires Agrees(e) && Ordered(g.board)
    ensures MoveBy(e, g, code, now) == if Accepts(g, code, now) then Some(AfterMove(g, code, now)) else None
  {
    if ParseMove(code).Ok? {
      ParsedMoves(code);
      var m := ParseMove(code).value;
      assert AgreesOn(e, g.board);
      if !IsNull(m) {
        NoneIsAccepted(g.board, m);
        AcceptedAfter(g.board, m);
        hide Stumbles;
        if Accepted(g.board, m) {
          PlayByIsMoved(e, Clocked(g, now), m);
        }
      }
    }
    hide Ordered, ParseMove, Hash, Verdict, InCheck, Legal, ConcludedBy;
  }

  /** With one king each and the side to wait not in check, no call breaks. */
  lemma SaneNeverBreaks(g: GameState, code: string, now: int)
    requires Sane(g.board)
    ensures !Breaks(g, code, now)
  {
    var own :| IsTheKing(g.board.positions, g.board.next, own);
    KingKeepsFooting(g.board);
    if Breaks(g, code, now) {
      var m := ParseMove(code).value;
      var k :| IsTheKing(g.board.positions, g.board.next.Enemy(), k);
      AcceptedAfter(g.board, m);
      EnemyKeepsKing(g.board, m, k);
      KingKeepsFooting(Perform(g.board, m));
      assert false;
    }
  }

  /** Nothing but the board and the two histories differs. */
  predicate SameButBoard(g: GameState, h: GameState) {
    h == g.(board := h.board, history := h.history, positionHistory := h.positionHistory)
  }

  // ----- The game object ------------------------------------------------------------------------------------

  class Game {
    const id: string
    const startFen: string
    const board: Board
    var players: ColorMap<Option<string>>
    var time: ColorMap<int>
    var timeback: ColorMap<int>
    var lastRequest: int
    var history: seq<Move>
    var positionHistory: seq<string>
    var status: Status
    var winner: Option<Winner>
    var reason: Option<Reason>

    ghost predicate Valid()
      reads this, board, board.positions
    {
      board.Valid()
    }

    function State(): GameState
      reads this, board, board.positions
    {
      GameState(id, startFen, players, time, timeback, lastRequest, history, positionHistory, status, board.State(),
                winner, reason)
    }

    constructor (g: GameState)
      requires WellFormed(g.board.positions)
      ensures Valid() && State() == g && fresh(board) && fresh(board.positions)
    {
      id, startFen, players, time, timeback := g.id, g.startFen, g.players, g.time, g.timeback;
      lastRequest, history, positionHistory := g.lastRequest, g.history, g.positionHistory;
      status, winner, reason := g.status, g.winner, g.reason;
      board := new Board(g.board);
    }

    method ValidateTime(now: int) returns (ok: bool)
      requires Valid()
      modifies this
      ensures Valid() && ok == HasTime(old(State()), now) && State() == Clocked(old(State()), now)
    {
      var color := board.next;
      var delta := if lastRequest > 0 then now - lastRequest else 0;
      var enemy := color.Enemy();
      time := time.With(color, time.Of(color) - delta);
      if time.Of(color) <= 0 {
        status := Expired;
        reason := Some(OutOfTime);
        winner := Some(Won(enemy));
        return false;
      }
      time := time.With(color, time.Of(color) + timeback.Of(color));
      return true;
    }

    /** Checks a move, and plays it if it is accepted; `None` when checking or playing it throws. */
    method ValidateMove(move: Move) returns (ok: Option<bool>)
      requires Valid() && OnBoard(move.source) && OnBoard(move.target)
      modifies this, board, board.positions
      ensures Valid()
      ensures var b := old(board.State());
              && (ok.None? <==> Stumbles(b, move.source, move.target) || (Accepted(b, move) && !Performable(b, move)))
              && (ok.Some? ==> ok.value == Accepted(b, move))
              && (ok == Some(true) ==> Performable(b, move))
      ensures ok.None? ==> SameButBoard(old(State()), State())
      ensures ok == Some(false) ==> State() == Violated(old(State()))
      ensures ok == Some(true) ==>
                var b := Perform(old(board.State()), move);
                State() == old(State()).(board := b, history := old(history) + [move],
                                         positionHistory := old(positionHistory) + [Hash(b.positions)])
    {
      hide WellFormed, Legal, Hash, Stumbles, Perform, Performable;
      var enemy := board.next.Enemy();
      var valid := IsValidMove(board, move.source, move.target);
      if valid.None? {
        return None;
      }
      var isInvalidPromotionTarget := move.promotion.Some? && !(move.target >= 56 || move.target <= 7);
      var isInvalidPromotionPiece :=
        move.promotion.Some? && (move.promotion.value.kind.King? || move.promotion.value.kind.Pawn?);
      if !valid.value || isInvalidPromotionTarget || isInvalidPromotionPiece {
        status := Expired;
        reason := Some(RuleViolation);
        winner := Some(Won(enemy));
        return Some(false);
      }
      // a write off the board throws
      if !Performable(board.State(), move) {
        return None;
      }
      PerformMove(board, move);
      history := history + [move];
      positionHistory := positionHistory + [Hash(board.positions[..])];
      return Some(true);
    }

    method HasRepetition() returns (r: bool)
      requires Valid()
      ensures r <==> Occurrences(positionHistory, Hash(board.positions[..])) >= 3
    {
      var current := Hash(board.positions[..]);
      var count := 0;
      for i := 0 to |positionHistory|
        invariant count == Occurrences(positionHistory[..i], current)
      {
        assert positionHistory[..i + 1] == positionHistory[..i] + [positionHistory[i]];
        if positionHistory[i] == current {
          count := count + 1;
        }
      }
      assert positionHistory[..|positionHistory|] == positionHistory;
      return count >= 3;
    }

    /** The side to move passes, unless it is in check; `None` when it has no king and the test throws. */
    method PlayNull() returns (ok: Option<bool>)
      requires Valid()
      modifies this, board, board.positions
      ensures Valid() && (ok.None? <==> !HasKing(old(board.positions[..]), old(board.next)))
      ensures ok.Some? ==> (ok.value <==> !InCheck(old(board.positions[..]), old(board.next)))
      ensures ok.None? ==> State() == old(State())
      ensures ok == Some(true) ==>
                State() == old(State()).(board := NullBoard(old(board.State())), history := old(history) + [NULL_MOVE])
      ensures ok == Some(false) ==> State() == Violated(old(State()))
    {
      ghost var g := State();
      hide WellFormed, InCheck;
      var checked := IsChecked(board);
      if checked.None? {
        return None;
      }
      if checked.value {
        status := Expired;
        reason := Some(RuleViolation);
        winner := Some(Won(board.next.Enemy()));
        return Some(false);
      }
      history := history + [NULL_MOVE];
      board.enPassant := None;
      board.halfMoves := board.halfMoves + 1;
      board.fullMoves := board.fullMoves + if board.next.Black? then 1 else 0;
      board.next := board.next.Enemy();
      assert board.State() == NullBoard(g.board);
      return Some(true);
    }

    /** Looks whether the move just played ends the game, by the board or by a third repetition; the search for
        an ending can throw. */
    method Conclude() returns (ok: bool)
      requires Valid()
      modifies this, board.positions
      ensures Valid()
      ensures var b := old(board.State()); ok <==> !SearchStumbles(b) && HasKing(b.positions, b.next)
      ensures !ok ==> SameButBoard(old(State()), State())
      ensures ok ==>
                var g := old(State());
                State() == (match Verdict(g.board, g.positionHistory) case Some(e) => Ended(g, e) case None => g)
    {
      hide WellFormed, SearchStumbles, EndingOf, Hash, Occurrences;
      var ending := GameResult(board);
      if ending.None? {
        return false;
      }
      var result := ending.value;
      var repeated := HasRepetition();
      if repeated {
        result := Some(ThreefoldRepetition);
      }
      if result.Some? {
        status := Expired;
        reason := Some(Decided(result.value));
        if result.value in {Stalemate, ThreefoldRepetition, FiftyMoves, InsufficientMaterial} {
          winner := Some(Drawn);
        } else {
          winner := Some(Won(board.next.Enemy()));
        }
      }
      return true;
    }

    /** Applies a parsed move. When it throws inside a search or a write, nothing is decided, and the board and the
        histories are left as they then are. */
    method PlayParsed(move: Move) returns (ok: bool)
      requires Valid() && (move == NULL_MOVE || (OnBoard(move.source) && OnBoard(move.target)))
      modifies this, board, board.positions
      ensures Valid()
      ensures var r := AnyBy(StandardEngine(), old(State()), move); ok == r.Some? && (ok ==> State() == r.value)
      ensures !ok && !BreaksOn(old(board.State()), move) ==> State() == Violated(old(State()))
      ensures !ok && BreaksOn(old(board.State()), move) ==> SameButBoard(old(State()), State())
    {
      ghost var g := State();
      assert WellFormed(g.board.positions);
      hide WellFormed, InCheck, Hash, StandardEngine, NullBy, PlayBy, Stumbles, Accepted, BreaksAfter;
      if move.source == -1 || move.target == -1 {
        NullByParts(g);
        var passed := PlayNull();
        return passed == Some(true);
      }
      PlayByParts(g, move);
      var valid := ValidateMove(move);
      if valid != Some(true) {
        return false;
      }
      ok := Conclude();
    }

    /** Parses a move and applies it, on any board of 64 squares. A call that throws in the program returns false
        here. */
    method Move(code: string, now: int) returns (ok: bool)
      requires Valid()
      modifies this, board, board.positions
      ensures Valid()
      ensures var r := MoveBy(StandardEngine(), old(State()), code, now); ok == r.Some? && (ok ==> State() == r.value)
      ensures !ok && !Breaks(old(State()), code, now) ==> State() == AfterRefusal(old(State()), code, now)
      ensures !ok && Breaks(old(State()), code, now) ==> SameButBoard(Clocked(old(State()), now), State())
    {
      hide WellFormed, ParseMove, StandardEngine, AnyBy, BreaksOn;
      if status != Active {
        return false;
      }
      var timely := ValidateTime(now);
      if !timely {
        return false;
      }
      var parsed := ParseMove(code);
      if parsed.Fail? {
        return false;
      }
      ParsedMoves(code);
      ok := PlayParsed(parsed.value);
    }
  }

  // ----- Creating, joining and resigning ------------------------------------------------------------------

  const STANDARD_ROWS := ["rnbqkbnr", "pppppppp", "8", "8", "8", "8", "PPPPPPPP", "RNBQKBNR"]

  /** rnbqkbnr/pppppppp/8/8/8/8/PPPPPPPP/RNBQKBNR w KQkq - 0 1 */
  const STANDARD_FEN := Join([Join(STANDARD_ROWS, '/'), "w", "KQkq", "-", "0", "1"], ' ')

  function Create(id: string, timeout: int, timeback: int, startFen: Option<string>): Result<GameState> {
    var fen := if startFen.Some? then startFen.value else STANDARD_FEN;
    var board :- Decode(fen);
    Ok(GameState(id, fen, ColorMap(None, None), ColorMap(timeout, timeout), ColorMap(timeback, timeback), -1,
                 [], [Hash(board.positions)], Waiting, board, None, None))
  }

  /** Which colour a player gets, if any: the one asked for, or the free one nearest to the coin's. */
  function Seat(players: ColorMap<Option<string>>, color: Option<Color>, coin: Color): Option<Color> {
    if players.white.Some? && players.black.Some? then None
    else if color.None? then Some(if players.Of(coin).Some? then coin.Enemy() else coin)
    else if players.Of(color.value).None? then color
    else None
  }

  method Register(game: Game, id: string, color: Option<Color>, coin: Color) returns (ok: bool)
    requires game.Valid()
    modifies game
    ensures game.Valid()
    ensures var g := old(game.State());
            && ok == Seat(g.players, color, coin).Some?
            && (!ok ==> game.State() == g)
            && (ok ==>
                  && g.players.Of(Seat(g.players, color, coin).value).None?
                  && game.State() == g.(players := game.players,
                       status := if game.players.white.Some? && game.players.black.Some? then Active else g.status)
                  && game.players == g.players.With(Seat(g.players, color, coin).value, Some(id)))
  {
    if game.players.black.Some? && game.players.white.Some? {
      return false;
    }
    if color.None? {
      var pick := coin;
      if game.players.Of(pick).Some? {
        pick := pick.Enemy();
      }
      game.players := game.players.With(pick, Some(id));
    } else if game.players.Of(color.value).None? {
      game.players := game.players.With(color.value, Some(id));
    } else {
      return false;
    }
    if game.players.black.Some? && game.players.white.Some? {
      game.status := Active;
    }
    return true;
  }

  function Resigned(g: GameState, color: Color): GameState {
    g.(status := Expired, reason := Some(Resignation), winner := Some(Won(color.Enemy())))
  }

  method Resign(game: Game, color: Color) returns (ok: bool)
    requires game.Valid()
    modifies game
    ensures game.Valid() && ok == (old(game.status) == Active)
    ensures game.State() == if ok then Resigned(old(game.State()), color) else old(game.State())
  {
    if game.status != Active {
      return false;
    }
    game.status := Expired;
    game.reason := Some(Resignation);
    game.winner := Some(Won(if color.Black? then White else Black));
    return true;
  }
}
