/** What the player handlers commit, message by message, and who gets a lock next. */
module Handlers {
  import opened Boards
  import opened Text
  import opened Fen
  import opened Games
  import opened LiveGames
  import opened Protocol

  // ----- Messages -----------------------------------------------------------------------------------------

  /** The players with one of them, known by id, connected or not. */
  function Marked(players: ColorMap<Player>, player: string, connected: bool): ColorMap<Player> {
    if players.white.id == player then ColorMap(Player(player, connected), players.black)
    else ColorMap(players.white, Player(player, connected))
  }

  predicate TakesPart(l: LiveGame, player: string) { l.players.white.id == player || l.players.black.id == player }

  /** Checking in to a game without winner connects the player, and changes nothing else; it throws for a finished
      game and for a stranger. */
  lemma CheckInConnects(e: Engine, player: string, seen: Option<LiveGame>, l: LiveGame)
    ensures Body(e, CheckIn(player), seen, l) ==
              if l.game.winner.Some? || !TakesPart(l, player) then Throws
              else Commits(Connect(player), l.(events := l.events + [PlayerConnected(player)],
                                               players := Marked(l.players, player, true)))
  {
  }

  /** Closing the connection disconnects the player, finished game or not. */
  lemma ClosingDisconnects(e: Engine, player: string, seen: Option<LiveGame>, l: LiveGame)
    ensures Body(e, Closed(player), seen, l) ==
              if !TakesPart(l, player) then Throws
              else Commits(Disconnect(player), l.(events := l.events + [PlayerDisconnected(player)],
                                                  players := Marked(l.players, player, false)))
  {
  }

  /** Resigning an active game has it won by the other player's colour, and deactivates it. */
  lemma ResigningLoses(e: Engine, player: string, seen: Option<LiveGame>, l: LiveGame)
    ensures Body(e, ResignSent(player), seen, l) ==
              if !TakesPart(l, player) || l.game.status != Active then Throws
              else
                var winner := if l.players.white.id == player then Black else White;
                Commits(Operation.Resign(player),
                        l.(events := l.events + [PlayerResigned(player)], isActive := false,
                           game := l.game.(status := Expired, reason := Some(Resignation),
                             winner := Some(Won(winner)))))
  {
  }

  lemma UpdateIsAnswered(e: Engine, player: string, seen: Option<LiveGame>, l: LiveGame)
    ensures Body(e, UpdateAsked(player), seen, l) == Answers
  {
  }

  /** A move is refused unless it comes from the player whose colour is to move, reads as a move that is not null, and
      is valid on the board seen before; it is committed if the game then takes it. */
  lemma MovingCommits(e: Engine, player: string, code: string, now: int, seen: LiveGame, l: LiveGame)
    ensures var mover := if l.game.board.next == White then l.players.white.id else l.players.black.id;
            var o := Body(e, MoveSent(player, code, now), Some(seen), l);
            if l.game.winner.Some? then o == Throws
            else if mover != player || ParseMove(code).Fail? || ParseMove(code).value.source == -1
                    || ParseMove(code).value.target == -1 then o == Refuses
            else
              var valid := e.valid(seen.game.board, ParseMove(code).value.source, ParseMove(code).value.target);
              if valid == Some(false) then o == Refuses
              else if valid == None || MoveBy(e, l.game, code, now).None? then o == Throws
              else
                var g := MoveBy(e, l.game, code, now).value;
                o == Commits(PlayMove(player, code, now),
                             l.(events := l.events + [PlayerMoved(player, code)], game := g,
                                isActive := l.isActive && g.winner.None?))
  {
    hide MoveBy, ParseMove;
  }

  /** A game as created: both players seated and not connected, no move played, on the board of its text. */
  lemma CreatedLive(id: string, startFen: Option<string>, timeout: int, white: string, black: string)
    ensures var fen := if startFen == None then STANDARD_FEN else startFen.value;
            var r := NewLive(id, startFen, timeout, white, black);
            && (r.Ok? <==> Decode(fen).Ok?)
            && (r.Ok? ==>
                  var l := r.value;
                  && l.id == id && l.isActive && l.events == [GameCreated]
                  && l.players == ColorMap(Player(white, false), Player(black, false))
                  && l.game.players == ColorMap(Some(white), Some(black)) && l.game.status == Active
                  && Ok(l.game.board) == Decode(fen) && l.game.history == [] && l.game.startFen == fen)
  {
    hide Decode, Hash;
  }

  // ----- From step to step --------------------------------------------------------------------------------

  /** The lock is taken at once if nobody has it, and waited for at the end of the queue otherwise. */
  ghost predicate AsksForLock(s: System, r: System, t: nat, gid: string, seen: Option<LiveGame>) {
    && t in r.tasks
    && if gid in s.locks && s.locks[gid].Held? then
         && r.tasks[t].phase == Queued(gid, seen)
         && r.locks == s.locks[gid := Held(s.locks[gid].holder, s.locks[gid].queue + [t])]
       else
         r.tasks[t].phase == Granted(gid, seen) && r.locks == s.locks[gid := Held(t, [])]
  }

  /** Once its game is found a handler fetches it, if it is for checking in, moving or an update, and asks for the lock
      straight away otherwise. */
  lemma AfterFinding(s: System, t: nat, gid: string)
    requires Enabled(Find(t, gid), s)
    ensures var (m, r) := (s.tasks[t].message, Do(Find(t, gid), s));
            if m.CheckIn? || m.MoveSent? || m.UpdateAsked? then
              t in r.tasks && r.tasks[t].phase == Fetching(gid) && r.locks == s.locks
            else AsksForLock(s, r, t, gid, None)
  {
  }

  /** A game that is not active lets nobody check in, and an unreadable move asks for no lock. */
  lemma AfterFetching(s: System, t: nat)
    requires Enabled(Fetch(t), s)
    ensures var (m, r, gid) := (s.tasks[t].message, Do(Fetch(t), s), s.tasks[t].phase.gid);
            if (m.CheckIn? && !s.store[gid].isActive) || (m.MoveSent? && ParseMove(m.code).Fail?) then
              t in r.tasks && r.tasks[t].phase == Finished && r.locks == s.locks
            else AsksForLock(s, r, t, gid, Some(s.store[gid]))
  {
    hide ParseMove;
  }

  /** The transaction works on what is stored when it has the lock; what it commits is stored as it is; and one that
      throws keeps the lock. */
  lemma AfterLoading(s: System, t: nat)
    requires t in s.tasks
    ensures Enabled(Load(t), s) ==>
              var r := Do(Load(t), s);
              && t in r.tasks && r.tasks[t].phase.Loaded? && r.locks == s.locks
              && r.tasks[t].phase.copy == s.store[s.tasks[t].phase.gid]
    ensures Enabled(Write(t), s) ==>
              var r := Do(Write(t), s);
              && t in r.tasks && r.tasks[t].phase.Written? && r.locks == s.locks
              && r.store == s.store[s.tasks[t].phase.gid := s.tasks[t].phase.changed]
    ensures Enabled(Throw(t), s) ==>
              var r := Do(Throw(t), s);
              && t in r.tasks && (r.tasks[t].phase.Stuck? || r.tasks[t].phase.Finished?) && r.locks == s.locks
              && (r.tasks[t].phase.Finished? <==> s.tasks[t].phase.Finding? || s.tasks[t].phase.Fetching?)
  {
  }

  /** A body that commits is written next, one that answers replies, one that throws is stuck with the lock, and one
      that refuses has finished. */
  lemma AfterRunning(s: System, t: nat)
    requires Inv(s) && Enabled(Run(t), s)
    ensures var outcome := Body(s.engine, s.tasks[t].message, s.tasks[t].phase.seen, s.tasks[t].phase.copy);
            var (r, gid) := (Do(Run(t), s), s.tasks[t].phase.gid);
            && t in r.tasks && r.store == s.store
            && match outcome
               case Commits(op, changed) => r.tasks[t].phase == Writing(gid, op, changed) && r.locks == s.locks
               case Answers => r.tasks[t].phase == Replying(gid) && r.locks == s.locks
               case Throws => r.tasks[t].phase == Stuck(gid) && r.locks == s.locks
               case Refuses => r.tasks[t].phase == Finished
  {
    assert TaskOk(s, t);
    hide Body, Inv;
  }

  // ----- The queue of a lock ------------------------------------------------------------------------------

  function Waiting(s: System, gid: string): seq<nat> {
    if gid in s.locks && s.locks[gid].Held? then s.locks[gid].queue else []
  }

  /** First come, first served: a step leaves a queue as it is, or appends one handler, or takes off the first, which
      then holds the lock. */
  ghost predicate IsServed(before: System, after: System, gid: string) {
    || Waiting(after, gid) == Waiting(before, gid)
    || (exists t :: Waiting(after, gid) == Waiting(before, gid) + [t] && IsQueued(after, t, gid))
    || (&& Waiting(before, gid) != []
        && Waiting(after, gid) == Waiting(before, gid)[1..]
        && gid in after.locks && after.locks[gid].Held? && after.locks[gid].holder == Waiting(before, gid)[0]
        && Waiting(before, gid)[0] in after.tasks && after.tasks[Waiting(before, gid)[0]].phase.Granted?)
  }

  lemma AcquireServes(s: System, t: nat, gid: string, seen: Option<LiveGame>, g: string)
    requires t in s.tasks
    ensures IsServed(s, Acquire(s, t, gid, seen), g)
  {
    var r := Acquire(s, t, gid, seen);
    if LockOf(s, gid).Held? && g == gid {
      assert Waiting(r, gid) == Waiting(s, gid) + [t] && IsQueued(r, t, gid);
    }
  }

  lemma PassOnServes(s: System, gid: string, g: string)
    requires LockOk(s, gid)
    ensures IsServed(s, PassOn(s, gid), g)
  {
    if LockOf(s, gid).Held? && LockOf(s, gid).queue != [] {
      assert IsQueued(s, LockOf(s, gid).queue[0], gid);
    }
  }

  lemma OthersWait(before: System, s: System, after: System, gid: string)
    requires IsServed(s, after, gid) && Waiting(before, gid) == Waiting(s, gid)
    ensures IsServed(before, after, gid)
  {
    hide IsQueued, Waiting;
  }

  lemma Unserved(s: System, r: System, gid: string)
    requires r.locks == s.locks
    ensures IsServed(s, r, gid)
  {
  }

  lemma FetchServes(s: System, t: nat, gid: string)
    requires Inv(s) && Enabled(Fetch(t), s)
    ensures IsServed(s, Do(Fetch(t), s), gid)
  {
    hide IsServed, Inv, Acquire;
    var (message, g) := (s.tasks[t].message, s.tasks[t].phase.gid);
    if (message.CheckIn? && !s.store[g].isActive) || (message.MoveSent? && ParseMove(message.code).Fail?) {
      Unserved(s, WithPhase(s, t, Finished), gid);
    } else {
      AcquireServes(s, t, g, Some(s.store[g]), gid);
    }
  }

  lemma ReleaseServes(s: System, t: nat, g: string, gid: string)
    requires Inv(s) && t in s.tasks && HasLock(s.tasks[t].phase, g)
    ensures IsServed(s, PassOn(WithPhase(s, t, Finished), g), gid)
  {
    assert TaskOk(s, t);
    PhaseChanges(s, t, Finished);
    PassOnServes(WithPhase(s, t, Finished), g, gid);
    OthersWait(s, WithPhase(s, t, Finished), PassOn(WithPhase(s, t, Finished), g), gid);
    hide Inv, IsServed, PassOn;
  }

  lemma RunServes(s: System, t: nat, gid: string)
    requires Inv(s) && Enabled(Run(t), s)
    ensures IsServed(s, Do(Run(t), s), gid)
  {
    var Loaded(g, seen, copy) := s.tasks[t].phase;
    var outcome := Body(s.engine, s.tasks[t].message, seen, copy);
    assert TaskOk(s, t);
    hide IsServed, Inv, PassOn, Body, TaskOk;
    if outcome.Refuses? {
      ReleaseServes(s, t, g, gid);
    } else {
      Unserved(s, Do(Run(t), s), gid);
    }
  }

  /** Every step of every handler serves every queue. */
  lemma StepServes(a: Action, s: System, gid: string)
    requires Inv(s) && Enabled(a, s)
    ensures IsServed(s, Do(a, s), gid)
  {
    match a
    case Find(t, g) =>
      hide IsServed;
      if FetchesFirst(s.tasks[t].message) {
        Unserved(s, WithPhase(s, t, Fetching(g)), gid);
      } else {
        AcquireServes(s, t, g, None, gid);
      }
    case Fetch(t) => FetchServes(s, t, gid);
    case Run(t) => RunServes(s, t, gid);
    case Release(t) => ReleaseServes(s, t, s.tasks[t].phase.gid, gid);
    case _ => Unserved(s, Do(a, s), gid);
  }
}
