/** Live games: a stored game, and the transactions that change it. */
module LiveGames {
  import opened Boards
  import opened Text
  import opened Fen
  import opened Games
  import opened Runs

  datatype Player = Player(id: string, connected: bool)

  datatype Event = GameCreated | PlayerConnected(player: string) | PlayerDisconnected(player: string)
                 | PlayerMoved(player: string, code: string) | PlayerResigned(player: string)

  datatype LiveGame = LiveGame(
    id: string,
    game: GameState,
    players: ColorMap<Player>,
    isActive: bool,
    events: seq<Event>)

  function ColorOf(l: LiveGame, player: string): Option<Color> {
    if l.players.white.id == player then Some(White)
    else if l.players.black.id == player then Some(Black)
    else None
  }

  predicate IsFinished(l: LiveGame) { l.game.winner.Some? }

  /** The id of the player to move. */
  function NextPlayer(l: LiveGame): string { l.players.Of(l.game.board.next).id }

  /** What a transaction can do to the game it holds. */
  datatype Operation =
    | Connect(player: string)
    | Disconnect(player: string)
    | PlayMove(player: string, code: string, now: int)
    | Resign(player: string)

  function SetConnected(l: LiveGame, player: string, connected: bool, event: Event): Option<LiveGame> {
    match ColorOf(l, player)
    case None => None
    case Some(color) =>
      Some(l.(events := l.events + [event],
              players := l.players.With(color, l.players.Of(color).(connected := connected))))
  }

  function Deactivated(l: LiveGame): LiveGame { if IsFinished(l) then l.(isActive := false) else l }

  /** The game after an operation, unless the operation throws: on any board, by any rules of chess. */
  function Apply(e: Engine, op: Operation, l: LiveGame): Option<LiveGame> {
    match op
    case Connect(player) => SetConnected(l, player, true, PlayerConnected(player))
    case Disconnect(player) => SetConnected(l, player, false, PlayerDisconnected(player))
    case PlayMove(_, code, now) =>
      if IsFinished(l) || ColorOf(l, NextPlayer(l)).None? then None
      else
        (match MoveBy(e, l.game, code, now)
         case None => None
         case Some(g) => Some(Deactivated(l.(events := l.events + [PlayerMoved(NextPlayer(l), code)], game := g))))
    case Resign(player) =>
      if ColorOf(l, player).None? || l.game.status != Active then None
      else
        Some(Deactivated(l.(events := l.events + [PlayerResigned(player)],
                            game := Resigned(l.game, ColorOf(l, player).value))))
  }

  /** The transaction object: it holds a copy of the stored game and changes that. A method that throws in the
      program returns false here, and its transaction is never committed. */
  class GameTransaction {
    var game: LiveGame

    constructor (game: LiveGame)
      ensures this.game == game
    {
      this.game := game;
    }

    method SetConnection(player: string, connected: bool, ghost e: Engine) returns (ok: bool)
      modifies this
      ensures var r := Apply(e, if connected then Connect(player) else Disconnect(player), old(game));
              ok == r.Some? && (ok ==> game == r.value)
    {
      var event := if connected then PlayerConnected(player) else PlayerDisconnected(player);
      game := game.(events := game.events + [event]);
      var color := ColorOf(game, player);
      if color.None? {
        return false;
      }
      var seat := game.players.Of(color.value).(connected := connected);
      game := game.(players := game.players.With(color.value, seat));
      return true;
    }

    /** On every board of 64 squares the move is that of the standard engine. */
    method Move(player: string, code: string, now: int) returns (ok: bool)
      requires WellFormed(game.game.board.positions)
      modifies this
      ensures var r := Apply(StandardEngine(), PlayMove(player, code, now), old(game));
              ok == r.Some? && (ok ==> game == r.value)
    {
      hide WellFormed, MoveBy, StandardEngine;
      if IsFinished(game) || ColorOf(game, NextPlayer(game)).None? {
        return false;
      }
      game := game.(events := game.events + [PlayerMoved(NextPlayer(game), code)]);
      var chess := new Game(game.game);
      ok := chess.Move(code, now);
      if !ok {
        return false;
      }
      game := game.(game := chess.State());
      if IsFinished(game) {
        game := game.(isActive := false);
      }
    }

    method Resign(player: string, ghost e: Engine) returns (ok: bool)
      modifies this
      ensures var r := Apply(e, Operation.Resign(player), old(game)); ok == r.Some? && (ok ==> game == r.value)
    {
      var color := ColorOf(game, player);
      if color.None? {
        return false;
      }
      game := game.(events := game.events + [PlayerResigned(player)]);
      if game.game.status != Active {
        return false;
      }
      game := game.(game := Resigned(game.game, color.value));
      if IsFinished(game) {
        game := game.(isActive := false);
      }
      return true;
    }
  }

  // ----- What every stored game keeps -----------------------------------------------------------------------

  /** Active, without winner and without reason are one and the same; no game was lost by a forfeit; no null
      move is in the history. */
  ghost predicate IsConsistent(l: LiveGame) {
    && (l.isActive <==> l.game.status == Active)
    && (l.isActive <==> l.game.winner.None?)
    && (l.isActive <==> l.game.reason.None?)
    && (l.game.status == Active || l.game.status == Expired)
    && l.game.reason != Some(RuleViolation) && l.game.reason != Some(OutOfTime)
    && (forall m | m in l.game.history :: !IsNull(m))
  }

  /** The handlers let an operation through to a game: a move comes from the player to move and is no null move. */
  predicate IsDue(op: Operation, l: LiveGame) {
    op.PlayMove? ==>
      op.player == NextPlayer(l) && ParseMove(op.code).Ok? && !IsNull(ParseMove(op.code).value)
  }

  /** The operation takes the stored game `l` to `r`. */
  predicate Applies(e: Engine, op: Operation, l: LiveGame, r: LiveGame) {
    IsDue(op, l) && Apply(e, op, l) == Some(r)
  }

  /** A move that goes through leaves the game on and without a result, or ended with one decided on the board. */
  lemma MoveByHasResult(e: Engine, g: GameState, code: string, now: int)
    requires MoveBy(e, g, code, now).Some? && HasFittingResult(g)
    ensures ParseMove(code).Ok?
    ensures var r := MoveBy(e, g, code, now).value;
            HasFittingResult(r) && r.history == g.history + [ParseMove(code).value]
  {
    ParsedMoves(code);
    hide Hash, ParseMove, NullBoard, Occurrences;
  }

  /** By whatever rules and on whatever board, an operation keeps a stored game consistent, whoever's it is, and
      adds at most its one move to the history. */
  lemma OperationKeepsConsistent(e: Engine, op: Operation, l: LiveGame, r: LiveGame)
    requires IsConsistent(l) && Applies(e, op, l, r)
    ensures IsConsistent(r) && r.id == l.id
    ensures r.players.white.id == l.players.white.id && r.players.black.id == l.players.black.id
    ensures r.game.history == l.game.history + if op.PlayMove? then [ParseMove(op.code).value] else []
  {
    if op.PlayMove? {
      MoveByHasResult(e, l.game, op.code, op.now);
    }
    hide MoveBy, ParseMove;
  }

  /** By the standard rules, an operation on a board in order leaves one in order, and a move that goes through
      was accepted there. */
  lemma OperationKeepsOrder(e: Engine, op: Operation, l: LiveGame, r: LiveGame)
    requires Agrees(e) && Ordered(l.game.board) && Applies(e, op, l, r)
    ensures Ordered(r.game.board)
    ensures op.PlayMove? ==>
              Accepts(l.game, op.code, op.now) && r.game.board == AfterMove(l.game, op.code, op.now).board
  {
    if op.PlayMove? {
      MoveByIsMove(e, l.game, op.code, op.now);
    }
    hide Ordered, MoveBy, Accepts, AfterMove, ParseMove, Agrees;
  }

  /** A stored game as created: registering both players has seated them and made it active. */
  function NewLive(id: string, startFen: Option<string>, timeout: int, white: string, black: string): Result<LiveGame> {
    var g :- Create(id, timeout, 0, startFen);
    Ok(LiveGame(id, g.(players := ColorMap(Some(white), Some(black)), status := Active),
                ColorMap(Player(white, false), Player(black, false)), true, [GameCreated]))
  }

  lemma NewLiveIsConsistent(id: string, startFen: Option<string>, timeout: int, white: string, black: string)
    requires NewLive(id, startFen, timeout, white, black).Ok?
    ensures var l := NewLive(id, startFen, timeout, white, black).value;
            IsConsistent(l) && l.id == id && l.game.history == []
  {
    hide Decode, Hash;
  }
}
