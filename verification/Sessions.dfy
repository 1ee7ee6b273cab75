/** Test sessions: a session locks connected clients, requests games from them in batches and counts the reports
    that come back. Handlers are interleaved, one step for every `await`. */
module Sessions {
  import opened Sequences
  import opened Boards
  import opened Text

  // ----- Clients --------------------------------------------------------------------------------------

  /** A request for games: it goes out under the session the client is locked to, and carries the suite of the
      session that makes it. */
  datatype Request = Request(client: Client, session: string, suite: string, batch: int)

  class Client {
    var sessionId: Option<string>

    constructor ()
      ensures sessionId == None
    {
      sessionId := None;
    }

    method Lock(session: string) returns (ok: bool)
      modifies this
      ensures ok == old(sessionId).None?
      ensures sessionId == if ok then Some(session) else old(sessionId)
    {
      if sessionId.Some? {
        return false;
      }
      sessionId := Some(session);
      return true;
    }

    method Unlock(session: string) returns (ok: bool)
      modifies this
      ensures ok == (old(sessionId) == Some(session))
      ensures sessionId == if ok then None else old(sessionId)
    {
      if sessionId != Some(session) {
        return false;
      }
      sessionId := None;
      return true;
    }

    /** The request goes out under the session the client is locked to; without one the call throws. */
    method Ask(suite: string, batch: int) returns (sent: seq<Request>)
      ensures sent == if sessionId.Some? then [Request(this, sessionId.value, suite, batch)] else []
    {
      return if sessionId.Some? then [Request(this, sessionId.value, suite, batch)] else [];
    }
  }

  type Locks = map<Client, Option<string>>

  ghost function LocksOf(clients: seq<Client>): Locks
    reads clients
  {
    map c | c in clients :: c.sessionId
  }

  predicate IsFree(c: Client, locks: Locks) { c in locks && locks[c].None? }

  function Free(clients: seq<Client>, locks: Locks): (free: seq<Client>)
    ensures |free| <= |clients|
  {
    if clients == [] then []
    else
      var (before, c) := (clients[..|clients| - 1], clients[|clients| - 1]);
      if IsFree(c, locks) then Free(before, locks) + [c] else Free(before, locks)
  }

  lemma {:induction false} FreeIsExact(clients: seq<Client>, locks: Locks)
    requires NoDuplicates(clients)
    ensures NoDuplicates(Free(clients, locks))
    ensures forall c :: c in Free(clients, locks) <==> c in clients && IsFree(c, locks)
  {
    if clients != [] {
      var (before, c) := (clients[..|clients| - 1], clients[|clients| - 1]);
      FreeIsExact(before, locks);
      assert clients == before + [c];
    }
  }

  /** At least `min` and at most `max` free clients, in the order they connected. */
  function Found(clients: seq<Client>, locks: Locks, min: int, max: int): Result<seq<Client>> {
    var free := Free(clients, locks);
    if min > max then Ok([])
    else if |free| < min then Fail
    else Ok(if 0 <= max <= |free| then free[..max] else free)
  }

  lemma FoundAreFree(clients: seq<Client>, locks: Locks, min: int, max: int)
    requires NoDuplicates(clients) && Found(clients, locks, min, max).Ok?
    ensures var found := Found(clients, locks, min, max).value;
            NoDuplicates(found) && forall c | c in found :: c in clients && IsFree(c, locks)
  {
    FreeIsExact(clients, locks);
    var (found, free) := (Found(clients, locks, min, max).value, Free(clients, locks));
    assert forall c | c in found :: c in free;
    hide Free;
  }

  /** What is found among the first clients stays in front. */
  lemma {:induction false} FreeGrows(clients: seq<Client>, locks: Locks, i: nat)
    requires i <= |clients|
    ensures var (some, all) := (Free(clients[..i], locks), Free(clients, locks));
            |some| <= |all| && all[..|some|] == some
  {
    if i == |clients| {
      assert clients[..i] == clients;
    } else {
      var before := clients[..|clients| - 1];
      FreeGrows(before, locks, i);
      assert before[..i] == clients[..i];
    }
  }

  class ClientManager {
    /** The connected clients, in the order they were added. */
    var clients: seq<Client>

    constructor ()
      ensures clients == []
    {
      clients := [];
    }

    method Add(client: Client)
      requires NoDuplicates(clients)
      modifies this
      ensures NoDuplicates(clients)
      ensures clients == if client in old(clients) then old(clients) else old(clients) + [client]
    {
      if client !in clients {
        clients := clients + [client];
      }
    }

    method Remove(client: Client)
      requires NoDuplicates(clients)
      modifies this
      ensures NoDuplicates(clients) && clients == Without(old(clients), client)
    {
      WithoutIsExact(clients, client);
      clients := Without(clients, client);
    }

    method Find(min: int, max: int) returns (found: Result<seq<Client>>)
      ensures found == Found(clients, LocksOf(clients), min, max)
    {
      if min > max {
        return Ok([]);
      }
      if min > |clients| {
        return Fail;
      }
      var free: seq<Client> := [];
      ghost var locks := LocksOf(clients);
      var i := 0;
      while i < |clients| && |free| != max
        invariant 0 <= i <= |clients|
        invariant free == Free(clients[..i], locks)
        invariant 0 <= max ==> |free| <= max
        decreases |clients| - i
      {
        assert clients[..i + 1][..i] == clients[..i];
        if clients[i].sessionId.None? {
          free := free + [clients[i]];
        }
        i := i + 1;
      }
      FreeGrows(clients, locks, i);
      assert clients[..|clients|] == clients;
      if |free| < min {
        return Fail;
      }
      return Ok(free);
    }
  }

  // ----- Sessions -------------------------------------------------------------------------------------

  /** The program's `%`: the remainder has the sign of the dividend. */
  function Remainder2(n: int): int { if n >= 0 then n % 2 else -((-n) % 2) }

  function BatchSize(remaining: int): int {
    var base := if remaining < 10 then remaining else 10;
    (base + Remainder2(base)) / 2
  }

  /** A batch is never more than what remains, and not empty, exactly while something remains. */
  lemma BatchFits(remaining: int)
    ensures 1 <= BatchSize(remaining) <= remaining <==> remaining >= 1
    ensures BatchSize(remaining) <= 5
  {
  }

  /** A batch is half of what remains, or of ten if more does, rounded up; below zero it is half rounded away from
      zero. */
  lemma BatchIsHalf(remaining: int)
    ensures remaining >= 10 ==> BatchSize(remaining) == 5
    ensures 0 <= remaining < 10 ==> 2 * BatchSize(remaining) - 1 <= remaining <= 2 * BatchSize(remaining)
    ensures remaining < 0 ==> 2 * BatchSize(remaining) <= remaining <= 2 * BatchSize(remaining) + 1
  {
  }

  function LockAll(locks: Locks, chosen: seq<Client>, session: string): Locks {
    map c | c in locks :: if c in chosen then Some(session) else locks[c]
  }

  function Requests(chosen: seq<Client>, session: string, batch: int): seq<Request> {
    seq(|chosen|, i requires 0 <= i < |chosen| => Request(chosen[i], session, session, batch))
  }

  /** The lock of a client when its report has been added and so many games remain. */
  function LockAfter(lock: Option<string>, session: string, remaining: int): Option<string> {
    if remaining <= 0 && lock == Some(session) then None else lock
  }

  /** Whether adding a report comes to its end: the client is unlocked when nothing remains, which throws unless it is
      locked to this session, and asked again otherwise, which throws if it is locked to none. */
  predicate GoesThrough(lock: Option<string>, session: string, remaining: int) {
    if remaining <= 0 then lock == Some(session) else lock.Some?
  }

  /** What the session asks of the client then: under whatever session the client is locked to. */
  function RequestAfter(client: Client, lock: Option<string>, session: string, remaining: int): seq<Request> {
    if remaining > 0 && lock.Some? then [Request(client, lock.value, session, BatchSize(remaining))] else []
  }

  function CountTrue(s: seq<bool>): nat {
    if s == [] then 0 else CountTrue(s[..|s| - 1]) + if s[|s| - 1] then 1 else 0
  }

  class Session {
    const id: string
    const concurrency: int
    var remaining: int

    constructor (id: string, iterations: int, concurrency: int)
      ensures this.id == id && this.concurrency == concurrency && remaining == iterations
    {
      this.id, this.concurrency, remaining := id, concurrency, iterations;
    }

    method Shutdown()
      modifies this
      ensures remaining == 0
    {
      remaining := 0;
    }

    method LockAndAsk(manager: ClientManager, chosen: seq<Client>) returns (sent: seq<Request>)
      requires NoDuplicates(chosen) && forall c | c in chosen :: c in manager.clients && c.sessionId.None?
      modifies manager.clients
      ensures LocksOf(manager.clients) == LockAll(old(LocksOf(manager.clients)), chosen, id)
      ensures sent == Requests(chosen, id, BatchSize(remaining))
    {
      sent := [];
      ghost var locks := LocksOf(manager.clients);
      for i := 0 to |chosen|
        invariant forall c | c in manager.clients :: c.sessionId == if c in chosen[..i] then Some(id) else locks[c]
        invariant sent == Requests(chosen[..i], id, BatchSize(remaining))
      {
        var client := chosen[i];
        assert chosen[..i + 1] == chosen[..i] + [client] && client !in chosen[..i];
        assert client.sessionId == locks[client];
        var ok := client.Lock(id);
        assert ok;
        var asked := client.Ask(id, BatchSize(remaining));
        sent := sent + asked;
      }
      assert chosen[..|chosen|] == chosen;
    }

    /** Starts the session on exactly as many clients as it wants, or on none. */
    method Start(manager: ClientManager) returns (ok: bool, sent: seq<Request>)
      requires NoDuplicates(manager.clients)
      modifies manager.clients
      ensures var locks := old(LocksOf(manager.clients));
              var found := Found(manager.clients, locks, concurrency, concurrency);
              && ok == found.Ok?
              && LocksOf(manager.clients) == (if ok then LockAll(locks, found.value, id) else locks)
              && sent == if ok then Requests(found.value, id, BatchSize(remaining)) else []
    {
      var found := manager.Find(concurrency, concurrency);
      if found.Fail? {
        return false, [];
      }
      FoundAreFree(manager.clients, LocksOf(manager.clients), concurrency, concurrency);
      hide Found;
      sent := LockAndAsk(manager, found.value);
      ok := true;
    }

    /** Takes on one more free client, if there is one. */
    method Replace(manager: ClientManager) returns (sent: seq<Request>)
      requires NoDuplicates(manager.clients)
      modifies manager.clients
      ensures var locks := old(LocksOf(manager.clients));
              var found := Found(manager.clients, locks, 0, 1);
              && found.Ok?
              && LocksOf(manager.clients) == LockAll(locks, found.value, id)
              && sent == Requests(found.value, id, BatchSize(remaining))
    {
      var found := manager.Find(0, 1);
      FoundAreFree(manager.clients, LocksOf(manager.clients), 0, 1);
      hide Found;
      sent := LockAndAsk(manager, found.value);
    }

    /** Adds a report: `finalized` says of each of its games whether it could be made into a replay. It throws at
        its end when nothing remains and the client is not locked to this session, or when something does and it
        is locked to none. */
    method Add(client: Client, finalized: seq<bool>) returns (ok: bool, sent: seq<Request>)
      modifies this, client
      ensures remaining == old(remaining) - CountTrue(finalized)
      ensures client.sessionId == LockAfter(old(client.sessionId), id, remaining)
      ensures sent == RequestAfter(client, old(client.sessionId), id, remaining)
      ensures ok == GoesThrough(old(client.sessionId), id, remaining)
    {
      var results := 0;
      for i := 0 to |finalized|
        invariant results == CountTrue(finalized[..i])
      {
        assert finalized[..i + 1][..i] == finalized[..i];
        if finalized[i] {
          results := results + 1;
        }
      }
      assert finalized[..|finalized|] == finalized;
      remaining := remaining - results;
      if remaining <= 0 {
        ok := client.Unlock(id);
        sent := [];
      } else {
        sent := client.Ask(id, BatchSize(remaining));
        ok := |sent| == 1;
      }
    }
  }

  // ----- Interleaved steps ----------------------------------------------------------------------------

  /** `accepted` counts, for the proof alone, the replays of the reports added so far. */
  datatype Progress = Progress(iterations: int, remaining: int, accepted: nat, shut: bool)

  /** A report being added; so many of its games have been finalized and sent on. `isDue` records, for the proof
      alone, that it came from a client locked to the session it names. */
  datatype Report = Report(client: Client, session: string, results: nat, isDue: bool)

  datatype Service = Service(
    locks: Locks,
    connected: seq<Client>,
    sessions: map<string, Progress>,
    reports: map<nat, Report>)

  const IDLE := Service(map[], [], map[], map[])

  datatype Action =
    | Open(client: Client)
    | Register(client: Client)
    | Close(client: Client)
    | Start(id: string, iterations: int, concurrency: int)
    | Receive(k: nat, client: Client, id: string)
    | Accept(k: nat)
    | Settle(k: nat)
    | Shutdown(id: string)

  /** A report is received from any client, while the session it names is still known. */
  predicate Enabled(a: Action, s: Service) {
    match a
    case Open(client) => client !in s.locks
    case Register(client) => client in s.locks
    case Close(client) => client in s.locks
    case Start(id, iterations, concurrency) => id !in s.sessions && iterations >= 1 && concurrency >= 1
    case Receive(k, client, id) =>
      k !in s.reports && client in s.locks && id in s.sessions && !s.sessions[id].shut
    case Accept(k) => k in s.reports
    case Settle(k) => k in s.reports && s.reports[k].client in s.locks && s.reports[k].session in s.sessions
    case Shutdown(id) => id in s.sessions
  }

  /** The session to find a replacement for when a client is closed. */
  function Abandoned(s: Service, client: Client): Option<string> {
    if client !in s.locks || s.locks[client].None? then None
    else
      var id := s.locks[client].value;
      if id in s.sessions && !s.sessions[id].shut then Some(id) else None
  }

  function Do(a: Action, s: Service): Service
    requires Enabled(a, s)
  {
    match a
    case Open(client) => s.(locks := s.locks[client := None])
    case Register(client) => if client in s.connected then s else s.(connected := s.connected + [client])
    case Close(client) =>
      var connected := Without(s.connected, client);
      var locks :=
        match Abandoned(s, client)
        case None => s.locks
        case Some(id) => LockAll(s.locks, Found(connected, s.locks, 0, 1).value, id);
      s.(connected := connected, locks := locks)
    case Start(id, iterations, concurrency) =>
      (match Found(s.connected, s.locks, concurrency, concurrency)
       case Fail => s.(sessions := s.sessions[id := Progress(iterations, 0, 0, true)])
       case Ok(chosen) =>
         s.(locks := LockAll(s.locks, chosen, id),
            sessions := s.sessions[id := Progress(iterations, iterations, 0, false)]))
    case Receive(k, client, id) => s.(reports := s.reports[k := Report(client, id, 0, s.locks[client] == Some(id))])
    case Accept(k) => s.(reports := s.reports[k := s.reports[k].(results := s.reports[k].results + 1)])
    case Settle(k) =>
      var Report(client, id, results, _) := s.reports[k];
      var p := s.sessions[id];
      var q := p.(remaining := p.remaining - results, accepted := p.accepted + results);
      s.(locks := s.locks[client := LockAfter(s.locks[client], id, q.remaining)],
         sessions := s.sessions[id := q],
         reports := s.reports - {k})
    case Shutdown(id) => s.(sessions := s.sessions[id := s.sessions[id].(remaining := 0, shut := true)])
  }

  /** What is requested in a step. */
  function Sent(a: Action, s: Service): seq<Request>
    requires Enabled(a, s)
  {
    match a
    case Close(client) =>
      (match Abandoned(s, client)
       case None => []
       case Some(id) =>
         Requests(Found(Without(s.connected, client), s.locks, 0, 1).value, id, BatchSize(s.sessions[id].remaining)))
    case Start(id, iterations, concurrency) =>
      (match Found(s.connected, s.locks, concurrency, concurrency)
       case Fail => []
       case Ok(chosen) => Requests(chosen, id, BatchSize(iterations)))
    case Settle(k) =>
      var Report(client, id, results, _) := s.reports[k];
      RequestAfter(client, s.locks[client], id, s.sessions[id].remaining - results)
    case _ => []
  }

  // ----- What every step keeps ------------------------------------------------------------------------

  ghost predicate IsConnected(s: Service) {
    NoDuplicates(s.connected) && forall c | c in s.connected :: c in s.locks
  }

  /** Until a session is shut down, what remains and what was accepted make up what was asked for. */
  ghost predicate IsTallied(p: Progress) {
    && p.iterations >= 1
    && (if p.shut then p.remaining <= 0 else p.remaining + p.accepted == p.iterations)
  }

  /** While games remain, whoever was locked to the session when it reported still is. */
  ghost predicate IsReporting(s: Service, r: Report) {
    && r.client in s.locks && r.session in s.sessions
    && (r.isDue && s.sessions[r.session].remaining > 0 ==> s.locks[r.client] == Some(r.session))
  }

  ghost predicate Inv(s: Service) {
    && IsConnected(s)
    && (forall id | id in s.sessions :: IsTallied(s.sessions[id]))
    && (forall c | c in s.locks :: s.locks[c].Some? ==> s.locks[c].value in s.sessions)
    && (forall k | k in s.reports :: IsReporting(s, s.reports[k]))
  }

  lemma LockAllIsExact(locks: Locks, chosen: seq<Client>, id: string)
    requires NoDuplicates(chosen) && (forall c | c in chosen :: IsFree(c, locks))
    requires (forall c | c in locks :: locks[c] != Some(id))
    ensures var after := LockAll(locks, chosen, id);
            var taken := set c | c in after && after[c] == Some(id);
            && after.Keys == locks.Keys && (forall c | c in after && c !in taken :: after[c] == locks[c])
            && taken == Elements(chosen) && |taken| == |chosen|
  {
    SizeOfElements(chosen);
    var after := LockAll(locks, chosen, id);
    assert Elements(chosen) == set c | c in after && after[c] == Some(id);
  }

  /** A start locks exactly `concurrency` clients that were connected and free, and touches no other; it succeeds
      exactly when there are that many, and changes no lock otherwise. */
  lemma StartLocksExactly(s: Service, id: string, iterations: int, concurrency: nat)
    requires Inv(s) && Enabled(Start(id, iterations, concurrency), s)
    ensures var free := set c | c in s.connected && IsFree(c, s.locks);
            var after := Do(Start(id, iterations, concurrency), s).locks;
            var taken := set c | c in after && after[c] == Some(id);
            && after.Keys == s.locks.Keys
            && taken <= free && (forall c | c in after && c !in taken :: after[c] == s.locks[c])
            && |taken| == if |free| >= concurrency then concurrency else 0
  {
    var all := Free(s.connected, s.locks);
    FreeIsExact(s.connected, s.locks);
    SizeOfElements(all);
    hide Free;
    var free := set c | c in s.connected && IsFree(c, s.locks);
    assert free == Elements(all);
    var after := Do(Start(id, iterations, concurrency), s).locks;
    var taken := set c | c in after && after[c] == Some(id);
    assert forall c | c in s.locks :: s.locks[c] != Some(id);
    hide Inv;
    if |all| >= concurrency {
      var chosen := all[..concurrency];
      assert forall c | c in chosen :: c in all;
      LockAllIsExact(s.locks, chosen, id);
    } else {
      assert after == s.locks;
      assert taken == {};
    }
  }

  /** Locking free clients to a session that is known afterwards takes nothing from anyone. */
  lemma LockingKeepsInv(s: Service, chosen: seq<Client>, id: string, r: Service)
    requires Inv(s) && IsConnected(r) && (forall c | c in chosen :: IsFree(c, s.locks))
    requires r.locks == LockAll(s.locks, chosen, id) && r.reports == s.reports
    requires id in r.sessions && IsTallied(r.sessions[id])
    requires r.sessions == s.sessions || (id !in s.sessions && r.sessions == s.sessions[id := r.sessions[id]])
    ensures Inv(r)
  {
    hide IsConnected, IsTallied;
    forall k | k in r.reports ensures IsReporting(r, r.reports[k]) {
      assert IsReporting(s, s.reports[k]);
    }
  }

  lemma CloseKeepsInv(s: Service, client: Client)
    requires Inv(s) && Enabled(Close(client), s)
    ensures Inv(Do(Close(client), s))
  {
    WithoutIsExact(s.connected, client);
    var connected := Without(s.connected, client);
    hide Without;
    var r := Do(Close(client), s);
    assert IsConnected(r);
    if Abandoned(s, client).Some? {
      FoundAreFree(connected, s.locks, 0, 1);
      assert Found(connected, s.locks, 0, 1).Ok?;
      hide IsConnected, Found, NoDuplicates;
      LockingKeepsInv(s, Found(connected, s.locks, 0, 1).value, Abandoned(s, client).value, r);
    } else {
      assert forall k | k in r.reports :: IsReporting(s, r.reports[k]);
    }
  }

  lemma StartKeepsInv(s: Service, id: string, iterations: int, concurrency: int)
    requires Inv(s) && Enabled(Start(id, iterations, concurrency), s)
    ensures Inv(Do(Start(id, iterations, concurrency), s))
  {
    var found := Found(s.connected, s.locks, concurrency, concurrency);
    var r := Do(Start(id, iterations, concurrency), s);
    if found.Ok? {
      FoundAreFree(s.connected, s.locks, concurrency, concurrency);
      hide Found;
      LockingKeepsInv(s, found.value, id, r);
    } else {
      assert forall k | k in r.reports :: IsReporting(s, r.reports[k]);
    }
  }

  lemma SettleKeepsInv(s: Service, k: nat)
    requires Inv(s) && Enabled(Settle(k), s)
    ensures Inv(Do(Settle(k), s))
  {
    var r := Do(Settle(k), s);
    forall j | j in r.reports ensures IsReporting(r, r.reports[j]) {
      assert IsReporting(s, s.reports[j]);
    }
  }

  lemma OtherKeepsInv(a: Action, s: Service)
    requires Inv(s) && Enabled(a, s) && !a.Close? && !a.Start? && !a.Settle?
    ensures Inv(Do(a, s))
  {
    var r := Do(a, s);
    forall j | j in r.reports ensures IsReporting(r, r.reports[j]) {
      assert j in s.reports ==> IsReporting(s, s.reports[j]);
    }
  }

  lemma StepKeepsInv(a: Action, s: Service)
    requires Inv(s) && Enabled(a, s)
    ensures Inv(Do(a, s))
  {
    match a
    case Close(client) => CloseKeepsInv(s, client);
    case Start(id, iterations, concurrency) => StartKeepsInv(s, id, iterations, concurrency);
    case Settle(k) => SettleKeepsInv(s, k);
    case _ => OtherKeepsInv(a, s);
  }

  /** What may be said of every request: the client is locked to the session it names, and the batch is that of the
      session whose suite it carries: more than nothing and no more than remains, exactly while that is incomplete. */
  ghost predicate IsFitting(r: Request, after: Service) {
    && r.client in after.locks && after.locks[r.client] == Some(r.session)
    && r.session in after.sessions && r.suite in after.sessions
    && var remaining := after.sessions[r.suite].remaining;
       r.batch == BatchSize(remaining) && (1 <= r.batch <= remaining <==> remaining >= 1)
  }

  predicate IsLockedTo(s: Service, client: Client, id: string) { client in s.locks && s.locks[client] == Some(id) }

  /** Unless it adds a report that was received from a client not locked to the session it named. */
  ghost predicate IsOwn(a: Action, s: Service)
    requires Enabled(a, s)
  {
    a.Settle? ==> s.reports[a.k].isDue
  }

  /** Every request is fitting. Something is asked for at every start and after every report; a replacement is asked
      for nothing when nothing remains. The suite is that of the session the client is locked to, except after a
      report by a client that is then not locked to the session it named: and one that was when it reported still is. */
  lemma RequestsAreDue(a: Action, s: Service, r: Request)
    requires Inv(s) && Enabled(a, s) && r in Sent(a, s)
    ensures IsFitting(r, Do(a, s))
    ensures Do(a, s).sessions[r.suite].remaining >= 1 || a.Close?
    ensures !a.Settle? ==> r.suite == r.session
    ensures a.Settle? ==>
              (r.suite == r.session <==> IsLockedTo(s, s.reports[a.k].client, s.reports[a.k].session))
    ensures IsOwn(a, s) ==> r.suite == r.session
  {
    var after := Do(a, s);
    match a
    case Close(client) =>
      WithoutIsExact(s.connected, client);
      FoundAreFree(Without(s.connected, client), s.locks, 0, 1);
      BatchFits(after.sessions[r.session].remaining);
    case Start(id, iterations, concurrency) =>
      FoundAreFree(s.connected, s.locks, concurrency, concurrency);
      BatchFits(iterations);
    case Settle(k) =>
      assert IsReporting(s, s.reports[k]);
      BatchFits(after.sessions[s.reports[k].session].remaining);
    case _ =>
  }

  // ----- What steps do to the locks -----------------------------------------------------------------------

  /** A report that is settled takes its games from what remains, and frees its client when nothing does and the client
      is the session's own; no other client and no other session is touched. */
  lemma SettlingCounts(s: Service, k: nat)
    requires Enabled(Settle(k), s)
    ensures var (client, id, after) := (s.reports[k].client, s.reports[k].session, Do(Settle(k), s));
            && id in after.sessions && client in after.locks && k !in after.reports && after.connected == s.connected
            && after.sessions[id].remaining == s.sessions[id].remaining - s.reports[k].results
            && after.locks[client] == (if after.sessions[id].remaining <= 0 && s.locks[client] == Some(id) then None
                                       else s.locks[client])
            && (forall c | c in s.locks && c != client :: c in after.locks && after.locks[c] == s.locks[c])
            && (forall i | i in s.sessions && i != id :: i in after.sessions && after.sessions[i] == s.sessions[i])
  {
  }

  /** The free clients are found in the order they connected. */
  lemma {:induction false} FreeInOrder(clients: seq<Client>, locks: Locks, i: nat, j: nat, a: nat, b: nat)
    requires NoDuplicates(clients) && i < |clients| && j < |clients|
    requires a < b < |Free(clients, locks)|
    requires clients[i] == Free(clients, locks)[a] && clients[j] == Free(clients, locks)[b]
    ensures i < j
  {
    var (before, last) := (clients[..|clients| - 1], |clients| - 1);
    assert clients == before + [clients[last]];
    FreeIsExact(before, locks);
    FreeIsExact(clients, locks);
    if b < |Free(before, locks)| {
      assert Free(before, locks)[a] in Free(before, locks) && Free(before, locks)[b] in Free(before, locks);
      assert i < last && j < last;
      FreeInOrder(before, locks, i, j, a, b);
    } else {
      assert clients[j] == clients[last];
      assert Free(before, locks)[a] in Free(before, locks);
    }
  }

  /** Those found are the first of the free clients: whoever is free and not found connected later than all of them. */
  lemma FoundAreFirst(clients: seq<Client>, locks: Locks, min: int, max: int, i: nat, j: nat)
    requires NoDuplicates(clients) && i < |clients| && j < |clients| && min <= max
    requires Found(clients, locks, min, max).Ok? && IsFree(clients[j], locks)
    requires clients[i] in Found(clients, locks, min, max).value && clients[j] !in Found(clients, locks, min, max).value
    ensures i < j
  {
    var (found, free) := (Found(clients, locks, min, max).value, Free(clients, locks));
    FreeIsExact(clients, locks);
    assert clients[j] in free;
    var a :| 0 <= a < |found| && found[a] == clients[i];
    var b :| 0 <= b < |free| && free[b] == clients[j];
    assert forall n | 0 <= n < |found| :: found[n] == free[n] && found[n] in found;
    FreeInOrder(clients, locks, i, j, a, b);
  }

  lemma FreeAreFree(clients: seq<Client>, locks: Locks)
    requires NoDuplicates(clients)
    ensures forall c :: c in Free(clients, locks) ==> c in locks
  {
    FreeIsExact(clients, locks);
    forall c | c in Free(clients, locks) ensures c in locks {
      assert IsFree(c, locks);
    }
  }

  lemma OneFound(clients: seq<Client>, locks: Locks)
    ensures Found(clients, locks, 0, 1) == Ok(if Free(clients, locks) == [] then [] else [Free(clients, locks)[0]])
  {
    var free := Free(clients, locks);
    hide Free;
    assert free != [] ==> free[..1] == [free[0]];
  }

  lemma LockOne(locks: Locks, id: string)
    ensures LockAll(locks, [], id) == locks && forall batch :: Requests([], id, batch) == []
    ensures forall c :: c in locks ==> LockAll(locks, [c], id) == locks[c := Some(id)]
    ensures forall c, batch :: Requests([c], id, batch) == [Request(c, id, id, batch)]
  {
  }

  lemma FirstReplaces(s: Service, client: Client, id: string)
    requires client in s.locks && s.locks[client] == Some(id) && id in s.sessions && !s.sessions[id].shut
    requires forall c :: c in Free(Without(s.connected, client), s.locks) ==> c in s.locks
    ensures var (free, after) := (Free(Without(s.connected, client), s.locks), Do(Close(client), s));
            && after.connected == Without(s.connected, client)
            && (free == [] ==> after.locks == s.locks && Sent(Close(client), s) == [])
            && (free != [] ==>
                  && after.locks == s.locks[free[0] := Some(id)]
                  && Sent(Close(client), s) == [Request(free[0], id, id, BatchSize(s.sessions[id].remaining))])
  {
    OneFound(Without(s.connected, client), s.locks);
    LockOne(s.locks, id);
    var free := Free(Without(s.connected, client), s.locks);
    assert free != [] ==> free[0] in free;
    hide Found, LockAll, Requests, Free, Without, BatchSize;
  }

  /** When a client of a session that is going on is closed, one free client that is still connected is locked in its
      place and asked, if there is one, and no other lock changes. */
  lemma ClosingReplaces(s: Service, client: Client)
    requires Inv(s) && client in s.locks && s.locks[client].Some?
    requires s.locks[client].value in s.sessions && !s.sessions[s.locks[client].value].shut
    ensures var (id, after) := (s.locks[client].value, Do(Close(client), s));
            && client !in after.connected
            && if exists c :: c in s.connected && c != client && IsFree(c, s.locks) then
                 exists c :: && c in s.connected && c != client && IsFree(c, s.locks)
                             && after.locks == s.locks[c := Some(id)]
                             && Sent(Close(client), s) ==
                                [Request(c, id, id, BatchSize(s.sessions[id].remaining))]
               else after.locks == s.locks && Sent(Close(client), s) == []
  {
    assert NoDuplicates(s.connected);
    hide Inv, Free, Without, Do, Sent, BatchSize, NoDuplicates;
    var (id, left) := (s.locks[client].value, Without(s.connected, client));
    var free := Free(left, s.locks);
    WithoutIsExact(s.connected, client);
    FreeIsExact(left, s.locks);
    FreeAreFree(left, s.locks);
    FirstReplaces(s, client, id);
    if free == [] {
      forall c | c in s.connected && c != client ensures !IsFree(c, s.locks) {
        assert c in left;
      }
    } else {
      assert free[0] in free;
    }
  }

  /** The other steps: a client is connected free, listed once it has registered and taken off when it is closed; a
      report counts its games one by one; and a shut down session has nothing left to ask for. */
  lemma OtherSteps(s: Service, a: Action)
    requires Enabled(a, s)
    ensures a.Open? ==> Do(a, s) == s.(locks := s.locks[a.client := None])
    ensures a.Register? ==>
              Do(a, s) == s.(connected := if a.client in s.connected then s.connected else s.connected + [a.client])
    ensures a.Receive? ==>
              && a.k in Do(a, s).reports && Do(a, s).reports[a.k].client == a.client
              && Do(a, s).reports[a.k].session == a.id && Do(a, s).reports[a.k].results == 0
              && Do(a, s).locks == s.locks && Do(a, s).sessions == s.sessions
    ensures a.Accept? ==>
              && Do(a, s).reports[a.k].results == s.reports[a.k].results + 1
              && Do(a, s).locks == s.locks && Do(a, s).sessions == s.sessions
    ensures a.Shutdown? ==>
              && Do(a, s).sessions[a.id].shut && Do(a, s).sessions[a.id].remaining == 0
              && Do(a, s).locks == s.locks && Do(a, s).reports == s.reports
    ensures a.Start? && Found(s.connected, s.locks, a.concurrency, a.concurrency).Ok? ==>
              Do(a, s).sessions == s.sessions[a.id := Progress(a.iterations, a.iterations, 0, false)]
    ensures a.Start? && Found(s.connected, s.locks, a.concurrency, a.concurrency).Fail? ==>
              Do(a, s) == s.(sessions := s.sessions[a.id := Progress(a.iterations, 0, 0, true)])
  {
    hide Found, LockAll;
  }

  // ----- Whole runs -----------------------------------------------------------------------------------

  predicate IsSchedule(s: Service, actions: seq<Action>)
    decreases |actions|
  {
    actions == [] || (Enabled(actions[0], s) && IsSchedule(Do(actions[0], s), actions[1..]))
  }

  function Reached(s: Service, actions: seq<Action>): Service
    requires IsSchedule(s, actions)
    decreases |actions|
  {
    if actions == [] then s else Reached(Do(actions[0], s), actions[1..])
  }

  lemma {:induction false} RunKeepsInv(s: Service, actions: seq<Action>)
    requires Inv(s) && IsSchedule(s, actions)
    ensures Inv(Reached(s, actions))
    decreases |actions|
  {
    if actions != [] {
      StepKeepsInv(actions[0], s);
      RunKeepsInv(Do(actions[0], s), actions[1..]);
    }
  }

  /** Over every interleaving, until a session is shut down what remains and what was accepted add up to the games
      asked for, every request is fitting, and after a due report it is for the session the client is locked to. */
  lemma GamesAddUp(actions: seq<Action>, next: Action)
    requires IsSchedule(IDLE, actions) && Enabled(next, Reached(IDLE, actions))
    ensures var s := Reached(IDLE, actions);
            && (forall id | id in s.sessions && !s.sessions[id].shut ::
                  s.sessions[id].remaining + s.sessions[id].accepted == s.sessions[id].iterations)
            && (forall r | r in Sent(next, s) :: IsFitting(r, Do(next, s)) && (IsOwn(next, s) ==> r.suite == r.session))
  {
    RunKeepsInv(IDLE, actions);
    var s := Reached(IDLE, actions);
    forall r | r in Sent(next, s) ensures IsFitting(r, Do(next, s)) && (IsOwn(next, s) ==> r.suite == r.session) {
      RequestsAreDue(next, s, r);
    }
    hide IsFitting;
  }

  /** A session that has been completed or shut down never asks for games again after a report. */
  lemma {:induction false} CompleteStaysComplete(s: Service, actions: seq<Action>, id: string)
    requires Inv(s) && IsSchedule(s, actions) && id in s.sessions && s.sessions[id].remaining <= 0
    ensures id in Reached(s, actions).sessions && Reached(s, actions).sessions[id].remaining <= 0
    decreases |actions|
  {
    if actions != [] {
      StepKeepsInv(actions[0], s);
      CompleteStaysComplete(Do(actions[0], s), actions[1..], id);
    }
  }

  // ----- A report out of turn -------------------------------------------------------------------------

  lemma FirstAction(s: Service, a: Action, rest: seq<Action>)
    requires Enabled(a, s) && IsSchedule(Do(a, s), rest)
    ensures IsSchedule(s, [a] + rest) && Reached(s, [a] + rest) == Reached(Do(a, s), rest)
  {
    assert ([a] + rest)[1..] == rest;
    hide Enabled, Do;
  }

  /** Session "a" wants one game, and locks the only client there is. */
  function Locked(first: Client): Service {
    Service(map[first := Some("a")], [first], map["a" := Progress(1, 1, 0, false)], map[])
  }

  lemma FreeOfOne(c: Client, locks: Locks)
    requires IsFree(c, locks)
    ensures Free([c], locks) == [c]
  {
    assert [c][..0] == [];
  }

  lemma StartsLocked(first: Client, rest: seq<Action>)
    requires IsSchedule(Locked(first), rest)
    ensures var all := [Open(first)] + ([Register(first)] + ([Start("a", 1, 1)] + rest));
            IsSchedule(IDLE, all) && Reached(IDLE, all) == Reached(Locked(first), rest)
  {
    var s1 := Do(Open(first), IDLE);
    var s2 := Do(Register(first), s1);
    assert s2 == Service(map[first := None], [first], map[], map[]);
    FreeOfOne(first, s2.locks);
    assert Do(Start("a", 1, 1), s2) == Locked(first);
    hide Do, Locked;
    FirstAction(s2, Start("a", 1, 1), rest);
    FirstAction(s1, Register(first), [Start("a", 1, 1)] + rest);
    FirstAction(IDLE, Open(first), [Register(first)] + ([Start("a", 1, 1)] + rest));
  }

  /** A second client, locked to nothing, reports the game that session "a" wants. */
  function StrayReport(second: Client): seq<Action> {
    [Open(second)] + ([Register(second)] + ([Receive(0, second, "a")] + ([Accept(0)] + ([Settle(0)] + []))))
  }

  function Stalled(first: Client, second: Client): Service {
    Service(map[first := Some("a"), second := None], [first, second], map["a" := Progress(1, 0, 1, false)], map[])
  }

  lemma StrayRun(first: Client, second: Client)
    requires first != second
    ensures IsSchedule(Locked(first), StrayReport(second))
    ensures Reached(Locked(first), StrayReport(second)) == Stalled(first, second)
  {
    var s1 := Do(Open(second), Locked(first));
    var s2 := Do(Register(second), s1);
    var s3 := Do(Receive(0, second, "a"), s2);
    var s4 := Do(Accept(0), s3);
    assert s4.reports == map[0 := Report(second, "a", 1, false)];
    assert Do(Settle(0), s4) == Stalled(first, second);
    assert Enabled(Settle(0), s4);
    hide Do, Locked, Stalled;
    FirstAction(s4, Settle(0), []);
    FirstAction(s3, Accept(0), [Settle(0)] + []);
    FirstAction(s2, Receive(0, second, "a"), [Accept(0)] + ([Settle(0)] + []));
    FirstAction(s1, Register(second), [Receive(0, second, "a")] + ([Accept(0)] + ([Settle(0)] + [])));
    FirstAction(Locked(first), Open(second), StrayReport(second)[1..]);
    assert StrayReport(second) == [Open(second)] + StrayReport(second)[1..];
  }

  lemma WithoutFirst(first: Client, second: Client)
    requires first != second
    ensures Without([first, second], first) == [second]
  {
    assert [first][..0] == [] && Without([first], first) == [];
    assert [first, second][..1] == [first];
  }

  /** Nothing remains after the stray report, but adding it throws at its end, so that the session is not invalidated
      by it. When the first client then disconnects, the second is locked in its place and asked for a batch of no
      games. A report by the first client, which is still locked, would go through and end the session. */
  lemma StrayReportStalls(first: Client, second: Client)
    requires first != second
    ensures var actions := [Open(first)] + ([Register(first)] + ([Start("a", 1, 1)] + StrayReport(second)));
            IsSchedule(IDLE, actions) && Reached(IDLE, actions) == Stalled(first, second)
    ensures var s := Stalled(first, second);
            && !GoesThrough(s.locks[second], "a", s.sessions["a"].remaining)
            && GoesThrough(s.locks[first], "a", s.sessions["a"].remaining)
            && Enabled(Close(first), s) && Sent(Close(first), s) == [Request(second, "a", "a", 0)]
  {
    StrayRun(first, second);
    StartsLocked(first, StrayReport(second));
    WithoutFirst(first, second);
    FreeOfOne(second, Stalled(first, second).locks);
  }
}
