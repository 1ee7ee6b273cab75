/** The player handlers as interleaved steps, one for every `await`: finding the game, fetching it, waiting for
    its lock, loading the transaction's copy, running the handler's body, writing, releasing. A handler may
    throw wherever it runs code; one that throws while it holds a lock never releases it. */
module Protocol {
  import opened Boards
  import opened Moving
  import opened Fen
  import opened Games
  import opened LiveGames

  datatype Message =
    | CheckIn(player: string)
    | MoveSent(player: string, code: string, now: int)
    | ResignSent(player: string)
    | UpdateAsked(player: string)
    | Closed(player: string)

  /** How far a handler has got. From `Granted` on it holds the lock of its game. */
  datatype Phase =
    | Finding
    | Fetching(gid: string)
    | Queued(gid: string, seen: Option<LiveGame>)
    | Granted(gid: string, seen: Option<LiveGame>)
    | Loaded(gid: string, seen: Option<LiveGame>, copy: LiveGame)
    | Writing(gid: string, op: Operation, changed: LiveGame)
    | Written(gid: string)
    | Replying(gid: string)
    | Stuck(gid: string)
    | Finished

  datatype Task = Task(message: Message, phase: Phase)

  /** An await lock: who holds it, and who waits, first come first served. */
  datatype Lock = Free | Held(holder: nat, queue: seq<nat>)

  /** `engine` is the rules of chess the services call: every theorem holds for any. `origin` and `log` record, for
      the proof alone, how each stored game was created and what was committed. */
  datatype System = System(
    engine: Engine,
    store: map<string, LiveGame>,
    locks: map<string, Lock>,
    tasks: map<nat, Task>,
    origin: map<string, LiveGame>,
    log: map<string, seq<Operation>>)

  function Empty(engine: Engine): System { System(engine, map[], map[], map[], map[], map[]) }

  function LockOf(s: System, gid: string): Lock { if gid in s.locks then s.locks[gid] else Free }

  function WithPhase(s: System, t: nat, phase: Phase): System
    requires t in s.tasks
  {
    s.(tasks := s.tasks[t := s.tasks[t].(phase := phase)])
  }

  /** `acquireAsync`: the lock is taken at once if it is free, and queued for otherwise. */
  function Acquire(s: System, t: nat, gid: string, seen: Option<LiveGame>): System
    requires t in s.tasks
  {
    match LockOf(s, gid)
    case Free => WithPhase(s, t, Granted(gid, seen)).(locks := s.locks[gid := Held(t, [])])
    case Held(holder, queue) =>
      WithPhase(s, t, Queued(gid, seen)).(locks := s.locks[gid := Held(holder, queue + [t])])
  }

  /** The handler that waited is told that it has the lock. */
  function Grant(s: System, t: nat): System {
    if t in s.tasks && s.tasks[t].phase.Queued? then
      WithPhase(s, t, Granted(s.tasks[t].phase.gid, s.tasks[t].phase.seen))
    else s
  }

  /** `release`: the lock passes to the first in the queue, if there is one. */
  function PassOn(s: System, gid: string): System {
    match LockOf(s, gid)
    case Free => s
    case Held(_, queue) =>
      if queue == [] then s.(locks := s.locks[gid := Free])
      else Grant(s, queue[0]).(locks := s.locks[gid := Held(queue[0], queue[1..])])
  }

  // ----- What a handler's body does -------------------------------------------------------------------------

  datatype Outcome = Commits(op: Operation, changed: LiveGame) | Refuses | Answers | Throws

  function Committing(e: Engine, op: Operation, l: LiveGame): Outcome {
    match Apply(e, op, l) case Some(r) => Commits(op, r) case None => Throws
  }

  /** What the board fetched before the lock was taken says of the move; `None` is a call that throws. */
  function SeenValid(e: Engine, seen: Option<LiveGame>, m: Move): Option<bool> {
    if seen.Some? then e.valid(seen.value.game.board, m.source, m.target) else Some(false)
  }

  function Body(e: Engine, message: Message, seen: Option<LiveGame>, l: LiveGame): Outcome {
    match message
    case CheckIn(player) => if IsFinished(l) then Throws else Committing(e, Connect(player), l)
    case MoveSent(player, code, now) =>
      if IsFinished(l) then Throws
      else if NextPlayer(l) != player then Refuses
      else if ParseMove(code).Fail? || IsNull(ParseMove(code).value) then Refuses
      else
        (match SeenValid(e, seen, ParseMove(code).value)
         case None => Throws
         case Some(valid) => if valid then Committing(e, PlayMove(player, code, now), l) else Refuses)
    case ResignSent(player) => Committing(e, Resign(player), l)
    case UpdateAsked(_) => Answers
    case Closed(player) => Committing(e, Disconnect(player), l)
  }

  // ----- Steps ----------------------------------------------------------------------------------------------

  datatype Action =
    | Create(gid: string, live: LiveGame)
    | Arrive(t: nat, message: Message)
    | Find(t: nat, gid: string)
    | Fetch(t: nat)
    | Load(t: nat)
    | Run(t: nat)
    | Write(t: nat)
    | Release(t: nat)
    | Throw(t: nat)

  predicate FetchesFirst(message: Message) { message.CheckIn? || message.MoveSent? || message.UpdateAsked? }

  function PlayerOf(message: Message): string { message.player }

  ghost predicate Enabled(a: Action, s: System) {
    match a
    case Create(gid, live) => gid !in s.store && IsConsistent(live) && live.id == gid && live.game.history == []
    case Arrive(t, _) => t !in s.tasks
    case Find(t, gid) =>
      && t in s.tasks && s.tasks[t].phase.Finding? && gid in s.store
      && ColorOf(s.store[gid], PlayerOf(s.tasks[t].message)).Some?
    case Fetch(t) => t in s.tasks && s.tasks[t].phase.Fetching? && s.tasks[t].phase.gid in s.store
    case Load(t) => t in s.tasks && s.tasks[t].phase.Granted? && s.tasks[t].phase.gid in s.store
    case Run(t) => t in s.tasks && s.tasks[t].phase.Loaded?
    case Write(t) => t in s.tasks && s.tasks[t].phase.Writing?
    case Release(t) => t in s.tasks && (s.tasks[t].phase.Written? || s.tasks[t].phase.Replying?)
    case Throw(t) =>
      t in s.tasks && !(s.tasks[t].phase.Queued? || s.tasks[t].phase.Stuck? || s.tasks[t].phase.Finished?)
  }

  /** Whether a handler in this phase has the lock of the game. */
  predicate HasLock(phase: Phase, gid: string) {
    (phase.Granted? || phase.Loaded? || phase.Writing? || phase.Written? || phase.Replying? || phase.Stuck?)
    && phase.gid == gid
  }

  function AfterFetch(s: System, t: nat): System
    requires t in s.tasks && s.tasks[t].phase.Fetching? && s.tasks[t].phase.gid in s.store
  {
    var (message, gid) := (s.tasks[t].message, s.tasks[t].phase.gid);
    var seen := s.store[gid];
    if message.CheckIn? && !seen.isActive then WithPhase(s, t, Finished)
    else if message.MoveSent? && ParseMove(message.code).Fail? then WithPhase(s, t, Finished)
    else Acquire(s, t, gid, Some(seen))
  }

  function AfterBody(s: System, t: nat): System
    requires t in s.tasks && s.tasks[t].phase.Loaded?
  {
    var Loaded(gid, seen, copy) := s.tasks[t].phase;
    match Body(s.engine, s.tasks[t].message, seen, copy)
    case Commits(op, changed) => WithPhase(s, t, Writing(gid, op, changed))
    case Refuses => PassOn(WithPhase(s, t, Finished), gid)
    case Answers => WithPhase(s, t, Replying(gid))
    case Throws => WithPhase(s, t, Stuck(gid))
  }

  function AfterWrite(s: System, t: nat): System
    requires t in s.tasks && s.tasks[t].phase.Writing?
  {
    var Writing(gid, op, changed) := s.tasks[t].phase;
    WithPhase(s, t, Written(gid)).(
      store := s.store[gid := changed],
      log := s.log[gid := (if gid in s.log then s.log[gid] else []) + [op]])
  }

  ghost function Do(a: Action, s: System): System
    requires Enabled(a, s)
  {
    match a
    case Create(gid, live) =>
      s.(store := s.store[gid := live], origin := s.origin[gid := live], log := s.log[gid := []])
    case Arrive(t, message) => s.(tasks := s.tasks[t := Task(message, Finding)])
    case Find(t, gid) =>
      if FetchesFirst(s.tasks[t].message) then WithPhase(s, t, Fetching(gid)) else Acquire(s, t, gid, None)
    case Fetch(t) => AfterFetch(s, t)
    case Load(t) =>
      var Granted(gid, seen) := s.tasks[t].phase;
      WithPhase(s, t, Loaded(gid, seen, s.store[gid]))
    case Run(t) => AfterBody(s, t)
    case Write(t) => AfterWrite(s, t)
    case Release(t) => PassOn(WithPhase(s, t, Finished), s.tasks[t].phase.gid)
    case Throw(t) =>
      var phase := s.tasks[t].phase;
      WithPhase(s, t, if phase.Finding? || phase.Fetching? then Finished else Stuck(phase.gid))
  }

  // ----- The invariant --------------------------------------------------------------------------------------

  /** What the operations, in this order, make of a game: every one of them due and going through at its turn. */
  function Fold(e: Engine, origin: LiveGame, log: seq<Operation>): Option<LiveGame>
    decreases |log|
  {
    if |log| == 0 then Some(origin)
    else
      var op := log[|log| - 1];
      match Fold(e, origin, log[..|log| - 1])
      case None => None
      case Some(before) => if IsDue(op, before) then Apply(e, op, before) else None
  }

  ghost predicate GameOk(s: System, gid: string)
    requires gid in s.store
  {
    && gid in s.origin && gid in s.log
    && IsConsistent(s.store[gid])
    && s.store[gid].id == gid && IsConsistent(s.origin[gid]) && s.origin[gid].game.history == []
    && Fold(s.engine, s.origin[gid], s.log[gid]) == Some(s.store[gid])
  }

  /** What is true of one handler: with a lock it is the lock's one holder, its copy is the stored game, and
      what it is about to write is one due operation on the stored game. */
  ghost predicate TaskOk(s: System, t: nat)
    requires t in s.tasks
  {
    var phase := s.tasks[t].phase;
    phase.Finding? || phase.Finished? ||
    (&& phase.gid in s.store
     && (!phase.Fetching? && !phase.Queued? ==> LockOf(s, phase.gid).Held? && LockOf(s, phase.gid).holder == t)
     && (phase.Loaded? ==> phase.copy == s.store[phase.gid])
     && (phase.Writing? ==> Applies(s.engine, phase.op, s.store[phase.gid], phase.changed)))
  }

  predicate IsQueued(s: System, t: nat, gid: string) {
    t in s.tasks && s.tasks[t].phase.Queued? && s.tasks[t].phase.gid == gid
  }

  /** Those who wait in the queue of a lock wait for that game, each once. */
  ghost predicate LockOk(s: System, gid: string) {
    var l := LockOf(s, gid);
    l.Held? ==>
      && (forall i | 0 <= i < |l.queue| :: IsQueued(s, l.queue[i], gid))
      && (forall i, j | 0 <= i < j < |l.queue| :: l.queue[i] != l.queue[j])
  }

  ghost predicate Inv(s: System) {
    && (forall gid :: gid in s.store ==> GameOk(s, gid))
    && (forall t :: t in s.tasks ==> TaskOk(s, t))
    && (forall gid :: LockOk(s, gid))
  }

  // ----- Every step keeps it --------------------------------------------------------------------------------

  lemma GamesAlike(s: System, s': System)
    requires s'.engine == s.engine && s'.store == s.store && s'.origin == s.origin && s'.log == s.log
    ensures forall gid | gid in s.store :: GameOk(s', gid) <==> GameOk(s, gid)
  {
    hide IsConsistent;
  }

  lemma LocksAlike(s: System, s': System)
    requires forall gid :: LockOk(s, gid)
    requires s'.locks == s.locks && forall u, gid :: IsQueued(s, u, gid) ==> IsQueued(s', u, gid)
    ensures forall gid :: LockOk(s', gid)
  {
    forall gid ensures LockOk(s', gid) {
      assert LockOk(s, gid);
    }
    hide IsQueued;
  }

  /** A handler that waits for no lock, and will not, moves on by itself. */
  lemma PhaseChanges(s: System, t: nat, phase: Phase)
    requires Inv(s) && t in s.tasks && !s.tasks[t].phase.Queued? && !phase.Queued?
    requires TaskOk(WithPhase(s, t, phase), t)
    ensures Inv(WithPhase(s, t, phase))
  {
    var s' := WithPhase(s, t, phase);
    hide GameOk, Applies;
    assert forall gid | gid in s.store :: GameOk(s', gid) by { GamesAlike(s, s'); }
    forall u | u in s'.tasks ensures TaskOk(s', u) {
      assert u != t ==> TaskOk(s, u);
    }
    LocksAlike(s, s');
  }

  lemma AcquireKeepsTasks(s: System, t: nat, gid: string, seen: Option<LiveGame>)
    requires Inv(s) && t in s.tasks && (s.tasks[t].phase.Finding? || s.tasks[t].phase.Fetching?) && gid in s.store
    ensures forall u :: u in Acquire(s, t, gid, seen).tasks ==> TaskOk(Acquire(s, t, gid, seen), u)
  {
    var s' := Acquire(s, t, gid, seen);
    hide GameOk, Applies, LockOk;
    forall u | u in s'.tasks ensures TaskOk(s', u) {
      assert u != t ==> TaskOk(s, u);
    }
  }

  /** A lock that is not touched stays in order if those who wait for it still do. */
  lemma LockStays(s: System, s': System, gid: string)
    requires LockOk(s, gid) && LockOf(s', gid) == LockOf(s, gid)
    requires forall u :: IsQueued(s, u, gid) ==> IsQueued(s', u, gid)
    ensures LockOk(s', gid)
  {
    hide IsQueued, LockOf;
  }

  /** A lock that is held gets one more waiting for it. */
  lemma QueueGrows(s: System, s': System, gid: string, t: nat)
    requires LockOk(s, gid) && LockOf(s, gid).Held? && !IsQueued(s, t, gid) && IsQueued(s', t, gid)
    requires LockOf(s', gid) == Held(LockOf(s, gid).holder, LockOf(s, gid).queue + [t])
    requires forall u :: IsQueued(s, u, gid) ==> IsQueued(s', u, gid)
    ensures LockOk(s', gid)
  {
    hide IsQueued, LockOf;
  }

  lemma FreshLock(s: System, gid: string, t: nat)
    requires LockOf(s, gid) == Held(t, [])
    ensures LockOk(s, gid)
  {
  }

  lemma AcquireKeepsLocks(s: System, t: nat, gid: string, seen: Option<LiveGame>)
    requires Inv(s) && t in s.tasks && (s.tasks[t].phase.Finding? || s.tasks[t].phase.Fetching?) && gid in s.store
    ensures forall g :: LockOk(Acquire(s, t, gid, seen), g)
  {
    var s' := Acquire(s, t, gid, seen);
    hide GameOk, TaskOk, LockOk;
    forall g ensures LockOk(s', g) {
      assert LockOk(s, g);
      assert forall u :: IsQueued(s, u, g) ==> IsQueued(s', u, g);
      if g != gid {
        LockStays(s, s', g);
      } else if LockOf(s, gid).Held? {
        QueueGrows(s, s', gid, t);
      } else {
        FreshLock(s', gid, t);
      }
    }
  }

  lemma AcquireKeepsInv(s: System, t: nat, gid: string, seen: Option<LiveGame>)
    requires Inv(s) && t in s.tasks && (s.tasks[t].phase.Finding? || s.tasks[t].phase.Fetching?) && gid in s.store
    ensures Inv(Acquire(s, t, gid, seen))
  {
    GamesAlike(s, Acquire(s, t, gid, seen));
    AcquireKeepsTasks(s, t, gid, seen);
    AcquireKeepsLocks(s, t, gid, seen);
    hide GameOk, TaskOk, LockOk;
  }

  /** The lock of the game is held on paper only: its holder has finished. */
  ghost predicate IsAbandoned(s: System, gid: string) {
    LockOf(s, gid).Held? && forall t | t in s.tasks :: !HasLock(s.tasks[t].phase, gid)
  }

  lemma PassOnKeepsTasks(s: System, gid: string)
    requires Inv(s) && IsAbandoned(s, gid)
    ensures forall u :: u in PassOn(s, gid).tasks ==> TaskOk(PassOn(s, gid), u)
  {
    var s' := PassOn(s, gid);
    var queue := LockOf(s, gid).queue;
    assert LockOk(s, gid);
    if queue != [] {
      assert IsQueued(s, queue[0], gid);
    }
    hide GameOk, Applies, LockOk;
    forall u | u in s'.tasks ensures TaskOk(s', u) {
      assert TaskOk(s, u);
    }
  }

  /** The first who waits leaves the queue, for it has the lock. */
  lemma QueueShrinks(s: System, s': System, gid: string)
    requires LockOk(s, gid) && LockOf(s, gid).Held? && LockOf(s, gid).queue != []
    requires LockOf(s', gid) == Held(LockOf(s, gid).queue[0], LockOf(s, gid).queue[1..])
    requires forall u :: IsQueued(s, u, gid) && u != LockOf(s, gid).queue[0] ==> IsQueued(s', u, gid)
    ensures LockOk(s', gid)
  {
    var queue := LockOf(s, gid).queue;
    hide IsQueued, LockOf;
    forall i | 0 <= i < |queue[1..]| ensures IsQueued(s', queue[1..][i], gid) {
      assert IsQueued(s, queue[i + 1], gid) && queue[0] != queue[i + 1];
    }
  }

  lemma FreeLock(s: System, gid: string)
    requires LockOf(s, gid) == Free
    ensures LockOk(s, gid)
  {
  }

  lemma PassOnKeepsLocks(s: System, gid: string)
    requires Inv(s) && IsAbandoned(s, gid)
    ensures forall g :: LockOk(PassOn(s, gid), g)
  {
    var s' := PassOn(s, gid);
    var queue := LockOf(s, gid).queue;
    assert LockOk(s, gid);
    assert queue != [] ==> IsQueued(s, queue[0], gid);
    hide GameOk, TaskOk, LockOk, IsAbandoned;
    forall g ensures LockOk(s', g) {
      assert LockOk(s, g);
      if g != gid {
        LockStays(s, s', g);
      } else if queue != [] {
        QueueShrinks(s, s', gid);
      } else {
        FreeLock(s', gid);
      }
    }
  }

  /** A lock nobody uses any more goes to the first who waits for it. */
  lemma PassOnKeepsInv(s: System, gid: string)
    requires Inv(s) && IsAbandoned(s, gid)
    ensures Inv(PassOn(s, gid))
  {
    GamesAlike(s, PassOn(s, gid));
    PassOnKeepsTasks(s, gid);
    PassOnKeepsLocks(s, gid);
    hide GameOk, TaskOk, LockOk;
  }

  /** A handler done with its lock gives it up. */
  lemma LetGoKeepsInv(s: System, t: nat)
    requires Inv(s) && t in s.tasks && !s.tasks[t].phase.Finding? && !s.tasks[t].phase.Finished?
    requires HasLock(s.tasks[t].phase, s.tasks[t].phase.gid)
    ensures Inv(PassOn(WithPhase(s, t, Finished), s.tasks[t].phase.gid))
  {
    var gid := s.tasks[t].phase.gid;
    var s1 := WithPhase(s, t, Finished);
    assert TaskOk(s, t);
    PhaseChanges(s, t, Finished);
    forall u | u in s1.tasks ensures !HasLock(s1.tasks[u].phase, gid) {
      assert TaskOk(s, u);
    }
    PassOnKeepsInv(s1, gid);
  }

  lemma CreateKeepsGames(s: System, gid: string, live: LiveGame)
    requires Inv(s) && Enabled(Create(gid, live), s)
    ensures forall g | g in Do(Create(gid, live), s).store :: GameOk(Do(Create(gid, live), s), g)
  {
    var s' := Do(Create(gid, live), s);
    hide IsConsistent, TaskOk, LockOk;
    forall g | g in s'.store ensures GameOk(s', g) {
      assert g != gid ==> GameOk(s, g);
    }
  }

  lemma CreateKeepsInv(s: System, gid: string, live: LiveGame)
    requires Inv(s) && Enabled(Create(gid, live), s)
    ensures Inv(Do(Create(gid, live), s))
  {
    var s' := Do(Create(gid, live), s);
    CreateKeepsGames(s, gid, live);
    hide IsConsistent, Applies, GameOk;
    forall u | u in s'.tasks ensures TaskOk(s', u) {
      assert TaskOk(s, u);
    }
    LocksAlike(s, s');
  }

  lemma ArriveKeepsInv(s: System, t: nat, message: Message)
    requires Inv(s) && t !in s.tasks
    ensures Inv(Do(Arrive(t, message), s))
  {
    var s' := Do(Arrive(t, message), s);
    GamesAlike(s, s');
    hide GameOk, Applies;
    forall u | u in s'.tasks ensures TaskOk(s', u) {
      assert u != t ==> TaskOk(s, u);
    }
    LocksAlike(s, s');
  }

  lemma FoldExtends(e: Engine, origin: LiveGame, log: seq<Operation>, op: Operation, l: LiveGame, r: LiveGame)
    requires Fold(e, origin, log) == Some(l) && Applies(e, op, l, r)
    ensures Fold(e, origin, log + [op]) == Some(r)
  {
    assert (log + [op])[..|log|] == log;
    hide Apply, IsDue;
  }

  lemma WriteKeepsGames(s: System, t: nat)
    requires Inv(s) && Enabled(Write(t), s)
    ensures forall g :: g in AfterWrite(s, t).store ==> GameOk(AfterWrite(s, t), g)
  {
    var Writing(gid, op, changed) := s.tasks[t].phase;
    var s' := AfterWrite(s, t);
    assert TaskOk(s, t) && GameOk(s, gid);
    OperationKeepsConsistent(s.engine, op, s.store[gid], changed);
    FoldExtends(s.engine, s.origin[gid], s.log[gid], op, s.store[gid], changed);
    hide IsConsistent, Applies, Fold, TaskOk, LockOk;
    forall g | g in s'.store ensures GameOk(s', g) {
      assert GameOk(s, g);
    }
  }

  lemma WriteKeepsTasks(s: System, t: nat)
    requires Inv(s) && Enabled(Write(t), s)
    ensures forall u :: u in AfterWrite(s, t).tasks ==> TaskOk(AfterWrite(s, t), u)
    ensures forall u, g :: IsQueued(s, u, g) ==> IsQueued(AfterWrite(s, t), u, g)
  {
    var s' := AfterWrite(s, t);
    assert TaskOk(s, t);
    hide GameOk, LockOk, Applies;
    forall u | u in s'.tasks ensures TaskOk(s', u) {
      assert TaskOk(s, u);
    }
  }

  lemma WriteKeepsInv(s: System, t: nat)
    requires Inv(s) && Enabled(Write(t), s)
    ensures Inv(Do(Write(t), s))
  {
    WriteKeepsGames(s, t);
    WriteKeepsTasks(s, t);
    LocksAlike(s, AfterWrite(s, t));
    hide GameOk, TaskOk, LockOk, IsQueued;
  }

  /** What a body asks to be written is one due operation on the copy it was given. */
  lemma BodyCommitsDue(e: Engine, message: Message, seen: Option<LiveGame>, l: LiveGame)
    requires Body(e, message, seen, l).Commits?
    ensures Applies(e, Body(e, message, seen, l).op, l, Body(e, message, seen, l).changed)
  {
    hide Apply, SeenValid;
  }

  lemma RunKeepsInv(s: System, t: nat)
    requires Inv(s) && Enabled(Run(t), s)
    ensures Inv(Do(Run(t), s))
  {
    var Loaded(gid, seen, copy) := s.tasks[t].phase;
    assert TaskOk(s, t);
    var outcome := Body(s.engine, s.tasks[t].message, seen, copy);
    if outcome.Commits? {
      BodyCommitsDue(s.engine, s.tasks[t].message, seen, copy);
    }
    hide Body, Applies, Inv, PassOn;
    match outcome
    case Commits(op, changed) => PhaseChanges(s, t, Writing(gid, op, changed));
    case Refuses => LetGoKeepsInv(s, t);
    case Answers => PhaseChanges(s, t, Replying(gid));
    case Throws => PhaseChanges(s, t, Stuck(gid));
  }

  lemma FetchKeepsInv(s: System, t: nat)
    requires Inv(s) && Enabled(Fetch(t), s)
    ensures Inv(Do(Fetch(t), s))
  {
    assert TaskOk(s, t);
    hide Inv, Applies, Acquire;
    var (message, gid) := (s.tasks[t].message, s.tasks[t].phase.gid);
    if (message.CheckIn? && !s.store[gid].isActive) || (message.MoveSent? && ParseMove(message.code).Fail?) {
      PhaseChanges(s, t, Finished);
    } else {
      AcquireKeepsInv(s, t, gid, Some(s.store[gid]));
    }
  }

  lemma FindKeepsInv(s: System, t: nat, gid: string)
    requires Inv(s) && Enabled(Find(t, gid), s)
    ensures Inv(Do(Find(t, gid), s))
  {
    hide Inv, Applies, Acquire;
    if FetchesFirst(s.tasks[t].message) {
      PhaseChanges(s, t, Fetching(gid));
    } else {
      AcquireKeepsInv(s, t, gid, None);
    }
  }

  lemma LoadKeepsInv(s: System, t: nat)
    requires Inv(s) && Enabled(Load(t), s)
    ensures Inv(Do(Load(t), s))
  {
    assert TaskOk(s, t);
    hide Inv, Applies;
    PhaseChanges(s, t, Loaded(s.tasks[t].phase.gid, s.tasks[t].phase.seen, s.store[s.tasks[t].phase.gid]));
  }

  lemma ThrowKeepsInv(s: System, t: nat)
    requires Inv(s) && Enabled(Throw(t), s)
    ensures Inv(Do(Throw(t), s))
  {
    assert TaskOk(s, t);
    hide Inv, Applies;
    var phase := s.tasks[t].phase;
    PhaseChanges(s, t, if phase.Finding? || phase.Fetching? then Finished else Stuck(phase.gid));
  }

  lemma ReleaseKeepsInv(s: System, t: nat)
    requires Inv(s) && Enabled(Release(t), s)
    ensures Inv(Do(Release(t), s))
  {
    hide Inv, PassOn;
    LetGoKeepsInv(s, t);
  }

  lemma StepKeepsInv(a: Action, s: System)
    requires Inv(s) && Enabled(a, s)
    ensures Inv(Do(a, s))
  {
    hide Inv, Do;
    match a
    case Create(gid, live) => CreateKeepsInv(s, gid, live);
    case Arrive(t, message) => ArriveKeepsInv(s, t, message);
    case Find(t, gid) => FindKeepsInv(s, t, gid);
    case Fetch(t) => FetchKeepsInv(s, t);
    case Load(t) => LoadKeepsInv(s, t);
    case Run(t) => RunKeepsInv(s, t);
    case Write(t) => WriteKeepsInv(s, t);
    case Release(t) => ReleaseKeepsInv(s, t);
    case Throw(t) => ThrowKeepsInv(s, t);
  }

  // ----- Over every interleaving ----------------------------------------------------------------------------

  ghost predicate IsInterleaving(s: System, actions: seq<Action>)
    decreases |actions|
  {
    actions == [] || (Enabled(actions[0], s) && IsInterleaving(Do(actions[0], s), actions[1..]))
  }

  ghost function Reached(s: System, actions: seq<Action>): System
    requires IsInterleaving(s, actions)
    decreases |actions|
  {
    if actions == [] then s else Reached(Do(actions[0], s), actions[1..])
  }

  lemma {:induction false} InvEverywhere(s: System, actions: seq<Action>)
    requires Inv(s) && IsInterleaving(s, actions)
    ensures Inv(Reached(s, actions))
    decreases |actions|
  {
    hide Inv, Enabled, Do;
    if actions != [] {
      StepKeepsInv(actions[0], s);
      InvEverywhere(Do(actions[0], s), actions[1..]);
    }
  }

  lemma EmptyInv(e: Engine)
    ensures Inv(Empty(e))
  {
  }

  lemma StepKeepsEngine(a: Action, s: System)
    requires Enabled(a, s)
    ensures Do(a, s).engine == s.engine
  {
    hide Body, HasLock, IsConsistent;
  }

  lemma {:induction false} EngineStays(s: System, actions: seq<Action>)
    requires IsInterleaving(s, actions)
    ensures Reached(s, actions).engine == s.engine
    decreases |actions|
  {
    hide Enabled, Do;
    if actions != [] {
      StepKeepsEngine(actions[0], s);
      EngineStays(Do(actions[0], s), actions[1..]);
    }
  }

  /** No lost update: whatever rules of chess are called and on whatever boards the games began, in every
      interleaving, however handlers throw, one handler at most has the lock of a game, the copy it works on is the
      stored game, and the stored game is the fold of the operations committed to it in the order of their commits. */
  lemma NoLostUpdate(e: Engine, actions: seq<Action>)
    requires IsInterleaving(Empty(e), actions)
    ensures var s := Reached(Empty(e), actions);
            && (forall t, u, gid ::
                  t in s.tasks && u in s.tasks && HasLock(s.tasks[t].phase, gid) && HasLock(s.tasks[u].phase, gid)
                  ==> t == u)
            && (forall t :: t in s.tasks && s.tasks[t].phase.Loaded? ==>
                  s.tasks[t].phase.gid in s.store && s.tasks[t].phase.copy == s.store[s.tasks[t].phase.gid])
            && (forall gid :: gid in s.store ==>
                  gid in s.origin && gid in s.log && Fold(e, s.origin[gid], s.log[gid]) == Some(s.store[gid]))
  {
    EmptyInv(e);
    InvEverywhere(Empty(e), actions);
    EngineStays(Empty(e), actions);
    var s := Reached(Empty(e), actions);
    hide Applies, Fold, IsConsistent, IsInterleaving, Reached;
    forall t, gid | t in s.tasks && HasLock(s.tasks[t].phase, gid)
      ensures LockOf(s, gid).Held? && LockOf(s, gid).holder == t
    {
      assert TaskOk(s, t);
    }
    forall t | t in s.tasks && s.tasks[t].phase.Loaded?
      ensures s.tasks[t].phase.gid in s.store && s.tasks[t].phase.copy == s.store[s.tasks[t].phase.gid]
    {
      assert TaskOk(s, t);
    }
    forall gid | gid in s.store ensures GameOk(s, gid) {
    }
  }

  // ----- What a fold of due operations is -------------------------------------------------------------------

  function MovesIn(log: seq<Operation>): seq<Move> {
    if log == [] then []
    else
      var op := log[|log| - 1];
      MovesIn(log[..|log| - 1])
      + if op.PlayMove? && ParseMove(op.code).Ok? then [ParseMove(op.code).value] else []
  }

  /** The history of a stored game is the moves committed to it, one for each commit of a move. */
  lemma {:induction false} HistoryIsCommitted(e: Engine, origin: LiveGame, log: seq<Operation>, l: LiveGame)
    requires IsConsistent(origin) && Fold(e, origin, log) == Some(l)
    ensures IsConsistent(l) && l.game.history == origin.game.history + MovesIn(log)
    decreases |log|
  {
    if |log| > 0 {
      var op := log[|log| - 1];
      var before := Fold(e, origin, log[..|log| - 1]).value;
      HistoryIsCommitted(e, origin, log[..|log| - 1], before);
      OperationKeepsConsistent(e, op, before, l);
      hide Apply, IsConsistent, Fold, ParseMove;
    }
  }

  /** Every committed move was sent by the player to move, was no null move and went through on the game it met. */
  lemma {:induction false} CommittedMovesWereDue(e: Engine, origin: LiveGame, log: seq<Operation>, l: LiveGame, i: nat)
    requires Fold(e, origin, log) == Some(l) && i < |log| && log[i].PlayMove?
    ensures Fold(e, origin, log[..i]).Some?
    ensures var met := Fold(e, origin, log[..i]).value;
            && log[i].player == NextPlayer(met)
            && MoveBy(e, met.game, log[i].code, log[i].now).Some?
            && ParseMove(log[i].code).Ok? && !IsNull(ParseMove(log[i].code).value)
    decreases |log|
  {
    if i < |log| - 1 {
      CommittedMovesWereDue(e, origin, log[..|log| - 1], Fold(e, origin, log[..|log| - 1]).value, i);
      assert log[..|log| - 1][..i] == log[..i];
    }
    hide MoveBy, ParseMove;
  }

  /** By the standard rules, a game that began on a board in order has only had moves that were accepted there. */
  lemma {:induction false} FoldKeepsOrder(e: Engine, origin: LiveGame, log: seq<Operation>, i: nat)
    requires Agrees(e) && Ordered(origin.game.board) && Fold(e, origin, log).Some? && i <= |log|
    ensures Fold(e, origin, log[..i]).Some? && Ordered(Fold(e, origin, log[..i]).value.game.board)
    ensures i < |log| && log[i].PlayMove? ==>
              Accepts(Fold(e, origin, log[..i]).value.game, log[i].code, log[i].now)
    decreases |log|
  {
    hide Ordered, Agrees, Apply, IsDue, Accepts;
    if i < |log| {
      FoldKeepsOrder(e, origin, log[..|log| - 1], i);
      assert log[..|log| - 1][..i] == log[..i];
      if i == |log| - 1 {
        OperationKeepsOrder(e, log[i], Fold(e, origin, log[..i]).value, Fold(e, origin, log).value);
      }
    } else {
      assert log[..i] == log;
      if i > 0 {
        FoldKeepsOrder(e, origin, log[..i - 1], i - 1);
        assert log[..i - 1][..i - 1] == log[..i - 1];
        OperationKeepsOrder(e, log[i - 1], Fold(e, origin, log[..i - 1]).value, Fold(e, origin, log).value);
      }
    }
  }

  /** Stored live games stay consistent in every interleaving, and hold exactly the moves committed to them. */
  lemma StoredGamesAreConsistent(e: Engine, actions: seq<Action>, gid: string)
    requires IsInterleaving(Empty(e), actions) && gid in Reached(Empty(e), actions).store
    ensures var s := Reached(Empty(e), actions);
            && IsConsistent(s.store[gid])
            && gid in s.log && s.store[gid].game.history == MovesIn(s.log[gid])
  {
    EmptyInv(e);
    InvEverywhere(Empty(e), actions);
    EngineStays(Empty(e), actions);
    var s := Reached(Empty(e), actions);
    assert GameOk(s, gid);
    HistoryIsCommitted(e, s.origin[gid], s.log[gid], s.store[gid]);
    assert [] + MovesIn(s.log[gid]) == MovesIn(s.log[gid]);
    hide IsConsistent, Fold, Inv, Reached;
  }
}
