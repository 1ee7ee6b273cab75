/** Replays, the index that finds them by the engines that played, and the counters kept of their results. An
    engine configuration is known by its hash alone. */
module Statistics {
  import opened Sequences
  import opened Boards
  import opened Games

  /** What the index and the statistics look at in a replay. The date is in milliseconds. */
  datatype Record = Record(id: string, date: int, white: string, black: string, winner: Winner)

  datatype Score = Win | Draw | Defeat

  // ----- The replay store -------------------------------------------------------------------------------

  /** The replays played between two configurations, whoever had white. */
  predicate IsBetween(r: Record, one: string, other: string) {
    (r.white == one && r.black == other) || (r.white == other && r.black == one)
  }

  type Index<K> = map<K, set<string>>

  ghost predicate Lists<K>(index: Index<K>, key: K, id: string) { key in index && id in index[key] }

  function WithEntry<K>(index: Index<K>, key: K, id: string): Index<K> {
    index[key := (if key in index then index[key] else {}) + {id}]
  }

  lemma EntryLists<K>(index: Index<K>, key: K, id: string)
    ensures forall k, i :: Lists(WithEntry(index, key, id), k, i) <==> Lists(index, k, i) || (k == key && i == id)
  {
  }

  function Day(date: int): int { date / (24 * 60 * 60 * 1000) }

  /** The indices list, for every configuration and every day, exactly the stored replays it played in, and that
      were played then. */
  ghost predicate IsIndexed(data: map<string, Record>, configIndex: Index<string>, dateIndex: Index<int>) {
    && (forall id | id in data :: data[id].id == id)
    && (forall hash, id ::
          Lists(configIndex, hash, id) <==> id in data && (data[id].white == hash || data[id].black == hash))
    && (forall day, id :: Lists(dateIndex, day, id) <==> id in data && Day(data[id].date) == day)
  }

  /** The indices after a replay has been entered under its day and both its configurations. */
  lemma StaysIndexed(data: map<string, Record>, configIndex: Index<string>, dateIndex: Index<int>, r: Record)
    requires IsIndexed(data, configIndex, dateIndex) && r.id !in data
    ensures IsIndexed(data[r.id := r], WithEntry(WithEntry(configIndex, r.white, r.id), r.black, r.id),
                      WithEntry(dateIndex, Day(r.date), r.id))
  {
    EntryLists(dateIndex, Day(r.date), r.id);
    EntryLists(configIndex, r.white, r.id);
    EntryLists(WithEntry(configIndex, r.white, r.id), r.black, r.id);
    hide Lists, WithEntry, Day;
  }

  class ReplayManager {
    var data: map<string, Record>
    /** The analysis of a replay, which is not modelled. */
    const analyse: Record -> string
    var analysis: map<string, string>
    var configIndex: Index<string>
    var dateIndex: Index<int>

    ghost predicate Valid()
      reads this
    {
      && IsIndexed(data, configIndex, dateIndex)
      && analysis == map id | id in data :: analyse(data[id])
    }

    constructor (analyse: Record -> string)
      ensures Valid() && data == map[] && this.analyse == analyse
    {
      this.analyse := analyse;
      data, analysis, configIndex, dateIndex := map[], map[], map[], map[];
    }

    method IndexReplay(replay: Record)
      modifies this`configIndex, this`dateIndex
      ensures dateIndex == WithEntry(old(dateIndex), Day(replay.date), replay.id)
      ensures configIndex == WithEntry(WithEntry(old(configIndex), replay.white, replay.id), replay.black, replay.id)
    {
      dateIndex := WithEntry(dateIndex, Day(replay.date), replay.id);
      configIndex := WithEntry(configIndex, replay.white, replay.id);
      configIndex := WithEntry(configIndex, replay.black, replay.id);
    }

    /** Stores a replay once, with its analysis; a second replay of the same id changes nothing. */
    method AddReplay(replay: Record)
      requires Valid()
      modifies this
      ensures Valid()
      ensures data == if replay.id in old(data) then old(data) else old(data)[replay.id := replay]
    {
      if replay.id !in data {
        StaysIndexed(data, configIndex, dateIndex, replay);
        data := data[replay.id := replay];
        analysis := analysis[replay.id := analyse(replay)];
        IndexReplay(replay);
        hide IsIndexed;
      }
    }

    /** The replays both configurations played in: all of them and no other. Of two different ones, those are the
        replays between them; of one asked for twice, all its replays. */
    method Fetch(one: string, other: string) returns (ids: set<string>)
      requires Valid()
      ensures one != other ==> ids == set id | id in data && IsBetween(data[id], one, other)
      ensures one == other ==> ids == set id | id in data && (data[id].white == one || data[id].black == one)
    {
      ghost var between := set id | id in data && IsBetween(data[id], one, other);
      ghost var all := set id | id in data && (data[id].white == one || data[id].black == one);
      ids := {};
      if one in configIndex && other in configIndex {
        ids := configIndex[one] * configIndex[other];
      }
      assert forall id :: id in ids <==> Lists(configIndex, one, id) && Lists(configIndex, other, id);
      assert one != other ==> forall id :: id in ids <==> id in between;
      assert one == other ==> forall id :: id in ids <==> id in all;
    }
  }

  // ----- Counters ---------------------------------------------------------------------------------------

  /** The colour a node's configuration had against the base, if the replay is between the two. */
  function SideOf(r: Record, hash: string, base: string): Option<Color> {
    if r.black == hash && r.white == base then Some(Black)
    else if r.white == hash && r.black == base then Some(White)
    else None
  }

  function ScoreOf(r: Record, color: Color): Score {
    if r.winner == Drawn then Draw else if r.winner == Won(color) then Win else Defeat
  }

  /** What is kept for one node: the replays counted, and six counters. */
  datatype NodeStats = NodeStats(games: set<string>, counts: map<(Color, Score), nat>)

  function CountOf(n: NodeStats, color: Color, score: Score): nat {
    if (color, score) in n.counts then n.counts[(color, score)] else 0
  }

  const NO_STATS := NodeStats({}, map[])

  /** A node's update with one replay. */
  function Counted(n: NodeStats, r: Record, hash: string, base: string): NodeStats {
    if r.id in n.games then n
    else
      match SideOf(r, hash, base)
      case None => n
      case Some(color) =>
        var score := ScoreOf(r, color);
        NodeStats(n.games + {r.id}, n.counts[(color, score) := CountOf(n, color, score) + 1])
  }

  function CountedAll(n: NodeStats, deliveries: seq<Record>, hash: string, base: string): NodeStats {
    if deliveries == [] then n
    else Counted(CountedAll(n, deliveries[..|deliveries| - 1], hash, base), deliveries[|deliveries| - 1], hash, base)
  }

  /** The ids, among those given, of replays the node's configuration played with this colour and score. */
  function GamesWith(archive: map<string, Record>, ids: set<string>, hash: string, base: string, color: Color,
                     score: Score): set<string>
  {
    set id | && id in ids && id in archive
             && SideOf(archive[id], hash, base) == Some(color) && ScoreOf(archive[id], color) == score
  }

  /** The counters are the numbers of the distinct replays among `ids`. */
  ghost predicate Reflects(n: NodeStats, archive: map<string, Record>, ids: set<string>, hash: string, base: string) {
    && (forall id :: id in n.games <==> id in ids && id in archive && SideOf(archive[id], hash, base).Some?)
    && (forall color, score :: CountOf(n, color, score) == |GamesWith(archive, ids, hash, base, color, score)|)
  }

  lemma GamesGrow(archive: map<string, Record>, ids: set<string>, r: Record, hash: string, base: string,
                  color: Color, score: Score)
    requires r.id in archive && archive[r.id] == r
    ensures |GamesWith(archive, ids + {r.id}, hash, base, color, score)|
              == |GamesWith(archive, ids, hash, base, color, score)|
                 + if r.id !in ids && SideOf(r, hash, base) == Some(color) && ScoreOf(r, color) == score then 1 else 0
  {
    var before := GamesWith(archive, ids, hash, base, color, score);
    var after := GamesWith(archive, ids + {r.id}, hash, base, color, score);
    if r.id !in ids && SideOf(r, hash, base) == Some(color) && ScoreOf(r, color) == score {
      assert after == before + {r.id};
    } else {
      assert after == before;
    }
  }

  lemma CountedReflects(n: NodeStats, r: Record, archive: map<string, Record>, ids: set<string>, hash: string,
                        base: string)
    requires Reflects(n, archive, ids, hash, base) && r.id in archive && archive[r.id] == r
    ensures Reflects(Counted(n, r, hash, base), archive, ids + {r.id}, hash, base)
  {
    forall color, score
      ensures CountOf(Counted(n, r, hash, base), color, score)
                == |GamesWith(archive, ids + {r.id}, hash, base, color, score)|
    {
      GamesGrow(archive, ids, r, hash, base, color, score);
    }
    hide GamesWith;
  }

  /** The deliveries are of archived replays, each under its own id. */
  ghost predicate IsFrom(deliveries: seq<Record>, archive: map<string, Record>) {
    forall r | r in deliveries :: r.id in archive && archive[r.id] == r
  }

  function Ids(deliveries: seq<Record>): set<string> {
    if deliveries == [] then {} else Ids(deliveries[..|deliveries| - 1]) + {deliveries[|deliveries| - 1].id}
  }

  /** However often and in whatever order replays are delivered, each counter is the number of distinct
      delivered replays with its colour and score. */
  lemma {:induction false} ExactlyOnce(deliveries: seq<Record>, archive: map<string, Record>, hash: string,
                                       base: string)
    requires IsFrom(deliveries, archive)
    ensures Reflects(CountedAll(NO_STATS, deliveries, hash, base), archive, Ids(deliveries), hash, base)
  {
    if deliveries == [] {
      assert forall color, score :: GamesWith(archive, {}, hash, base, color, score) == {};
    } else {
      var (before, r) := (deliveries[..|deliveries| - 1], deliveries[|deliveries| - 1]);
      ExactlyOnce(before, archive, hash, base);
      CountedReflects(CountedAll(NO_STATS, before, hash, base), r, archive, Ids(before), hash, base);
    }
  }

  lemma {:induction false} IdsAreDelivered(deliveries: seq<Record>, id: string)
    ensures id in Ids(deliveries) <==> exists r :: r in deliveries && r.id == id
  {
    if deliveries != [] {
      var (before, r) := (deliveries[..|deliveries| - 1], deliveries[|deliveries| - 1]);
      IdsAreDelivered(before, id);
      assert deliveries == before + [r];
      if r.id == id {
        assert r in deliveries;
      }
    }
  }

  /** End to end: once every replay fetched between a node and the base has been delivered, in any order, any number of
      times and among any other stored replays, the node's counters are those of all stored replays between the two. */
  lemma FullFetchCountsAll(stored: map<string, Record>, fetched: set<string>, deliveries: seq<Record>,
                           hash: string, base: string, color: Color, score: Score)
    requires hash != base && fetched == set id | id in stored && IsBetween(stored[id], base, hash)
    requires IsFrom(deliveries, stored) && fetched <= Ids(deliveries)
    ensures CountOf(CountedAll(NO_STATS, deliveries, hash, base), color, score)
              == |GamesWith(stored, stored.Keys, hash, base, color, score)|
  {
    ExactlyOnce(deliveries, stored, hash, base);
    assert GamesWith(stored, Ids(deliveries), hash, base, color, score)
        == GamesWith(stored, stored.Keys, hash, base, color, score);
  }

  // ----- The verification and its cache -------------------------------------------------------------------

  function StatsOf(store: map<string, NodeStats>, hash: string): NodeStats {
    if hash in store then store[hash] else NO_STATS
  }

  /** The counters of all nodes after a replay has been offered to each. */
  function Offered(store: map<string, NodeStats>, nodes: seq<string>, base: string, r: Record): map<string, NodeStats> {
    if nodes == [] then store
    else
      var before := Offered(store, nodes[..|nodes| - 1], base, r);
      var hash := nodes[|nodes| - 1];
      before[hash := Counted(StatsOf(before, hash), r, hash, base)]
  }

  lemma {:induction false} OfferedToEach(store: map<string, NodeStats>, nodes: seq<string>, base: string, r: Record)
    requires NoDuplicates(nodes)
    ensures forall hash :: StatsOf(Offered(store, nodes, base, r), hash) ==
              if hash in nodes then Counted(StatsOf(store, hash), r, hash, base) else StatsOf(store, hash)
  {
    if nodes != [] {
      var (before, hash) := (nodes[..|nodes| - 1], nodes[|nodes| - 1]);
      OfferedToEach(store, before, base, r);
      assert nodes == before + [hash] && hash !in before;
    }
  }

  /** All counters, and the cache of the replays that need not be offered any more. */
  datatype Cached = Cached(store: map<string, NodeStats>, seen: set<string>)

  /** One update: a replay that is cached is skipped. */
  function Updated(c: Cached, nodes: seq<string>, base: string, r: Record): Cached {
    if r.id in c.seen then c else Cached(Offered(c.store, nodes, base, r), c.seen + {r.id})
  }

  function UpdatedAll(c: Cached, nodes: seq<string>, base: string, deliveries: seq<Record>): Cached {
    if deliveries == [] then c
    else Updated(UpdatedAll(c, nodes, base, deliveries[..|deliveries| - 1]), nodes, base, deliveries[|deliveries| - 1])
  }

  ghost predicate IsCounted(c: Cached, archive: map<string, Record>, id: string, hash: string, base: string) {
    id in archive && Counted(StatsOf(c.store, hash), archive[id], hash, base) == StatsOf(c.store, hash)
  }

  /** Offering a cached replay again would change nothing. */
  ghost predicate IsHonest(c: Cached, archive: map<string, Record>, nodes: seq<string>, base: string) {
    forall id, hash :: id in c.seen && hash in nodes ==> IsCounted(c, archive, id, hash, base)
  }

  lemma CountedTwice(n: NodeStats, r: Record, hash: string, base: string)
    ensures Counted(Counted(n, r, hash, base), r, hash, base) == Counted(n, r, hash, base)
  {
  }

  /** A replay that changes nothing goes on changing nothing, whatever else is counted. */
  lemma CountedStays(n: NodeStats, q: Record, r: Record, hash: string, base: string)
    requires Counted(n, q, hash, base) == n
    ensures Counted(Counted(n, r, hash, base), q, hash, base) == Counted(n, r, hash, base)
  {
    assert SideOf(q, hash, base).None? || q.id in n.games by {
      hide ScoreOf;
    }
  }

  /** One update leaves every node as if the replay had been offered to it, cached or not, and all else as it was. */
  lemma UpdatedIsCounted(c: Cached, archive: map<string, Record>, nodes: seq<string>, base: string, r: Record)
    requires NoDuplicates(nodes) && IsHonest(c, archive, nodes, base) && r.id in archive && archive[r.id] == r
    ensures IsHonest(Updated(c, nodes, base, r), archive, nodes, base)
    ensures forall hash ::
              StatsOf(Updated(c, nodes, base, r).store, hash) ==
                if hash in nodes then Counted(StatsOf(c.store, hash), r, hash, base) else StatsOf(c.store, hash)
  {
    var after := Updated(c, nodes, base, r);
    if r.id in c.seen {
      assert forall hash | hash in nodes :: IsCounted(c, archive, r.id, hash, base);
    } else {
      OfferedToEach(c.store, nodes, base, r);
      hide Offered, Counted, NoDuplicates;
      forall id, hash | id in after.seen && hash in nodes ensures IsCounted(after, archive, id, hash, base) {
        if id == r.id {
          CountedTwice(StatsOf(c.store, hash), r, hash, base);
        } else {
          assert IsCounted(c, archive, id, hash, base);
          CountedStays(StatsOf(c.store, hash), archive[id], r, hash, base);
        }
      }
    }
  }

  /** The cache never shows: after any deliveries every node is as if each had been offered to it. */
  lemma {:induction false} CacheIsInvisible(c: Cached, archive: map<string, Record>, nodes: seq<string>, base: string,
                                            deliveries: seq<Record>)
    requires NoDuplicates(nodes) && IsHonest(c, archive, nodes, base) && IsFrom(deliveries, archive)
    ensures var after := UpdatedAll(c, nodes, base, deliveries);
            && IsHonest(after, archive, nodes, base)
            && forall hash | hash in nodes ::
                 StatsOf(after.store, hash) == CountedAll(StatsOf(c.store, hash), deliveries, hash, base)
  {
    hide IsHonest, Updated, Counted, StatsOf, NoDuplicates;
    if deliveries != [] {
      var (before, r) := (deliveries[..|deliveries| - 1], deliveries[|deliveries| - 1]);
      CacheIsInvisible(c, archive, nodes, base, before);
      UpdatedIsCounted(UpdatedAll(c, nodes, base, before), archive, nodes, base, r);
    }
  }

  /** From the store to the counters: a verification that starts with nothing and is sent at least what is fetched for a
      node has counted, for that node, exactly the stored replays between it and the base. */
  lemma VerificationCountsAll(stored: map<string, Record>, nodes: seq<string>, base: string, deliveries: seq<Record>,
                              hash: string, color: Color, score: Score)
    requires NoDuplicates(nodes) && hash in nodes && hash != base && IsFrom(deliveries, stored)
    requires forall id | id in stored && IsBetween(stored[id], base, hash) :: id in Ids(deliveries)
    ensures var after := UpdatedAll(Cached(map[], {}), nodes, base, deliveries);
            CountOf(StatsOf(after.store, hash), color, score)
              == |GamesWith(stored, stored.Keys, hash, base, color, score)|
  {
    CacheIsInvisible(Cached(map[], {}), stored, nodes, base, deliveries);
    var fetched := set id | id in stored && IsBetween(stored[id], base, hash);
    FullFetchCountsAll(stored, fetched, deliveries, hash, base, color, score);
  }

  // ----- Groups that change -------------------------------------------------------------------------------

  datatype Group = Group(nodes: seq<string>, cached: Cached)

  datatype Event = Deliver(r: Record) | AddNode(hash: string) | RemoveNode(hash: string)

  predicate CanAdd(g: Group, hash: string, base: string) { hash !in g.nodes && hash != base }

  predicate CanRemove(g: Group, hash: string, base: string) { hash in g.nodes && hash != base && |g.nodes| != 1 }

  /** A delivery, or a change of the nodes, which drops the cache and leaves all counters stored. */
  function Applied(g: Group, e: Event, base: string): Group {
    match e
    case Deliver(r) => g.(cached := Updated(g.cached, g.nodes, base, r))
    case AddNode(hash) => if CanAdd(g, hash, base) then Group(g.nodes + [hash], Cached(g.cached.store, {})) else g
    case RemoveNode(hash) =>
      if CanRemove(g, hash, base) then Group(Without(g.nodes, hash), Cached(g.cached.store, {})) else g
  }

  function AppliedAll(g: Group, events: seq<Event>, base: string): Group {
    if events == [] then g else Applied(AppliedAll(g, events[..|events| - 1], base), events[|events| - 1], base)
  }

  /** The replays delivered while `hash` was a node. */
  function Reaching(g: Group, events: seq<Event>, base: string, hash: string): seq<Record> {
    if events == [] then []
    else
      var (before, e) := (events[..|events| - 1], events[|events| - 1]);
      Reaching(g, before, base, hash)
      + if e.Deliver? && hash in AppliedAll(g, before, base).nodes then [e.r] else []
  }

  ghost predicate IsSound(g: Group, archive: map<string, Record>, base: string) {
    NoDuplicates(g.nodes) && IsHonest(g.cached, archive, g.nodes, base)
  }

  lemma EventIsCounted(g: Group, e: Event, archive: map<string, Record>, base: string)
    requires IsSound(g, archive, base) && (e.Deliver? ==> e.r.id in archive && archive[e.r.id] == e.r)
    ensures IsSound(Applied(g, e, base), archive, base)
    ensures forall hash ::
              StatsOf(Applied(g, e, base).cached.store, hash) ==
                if e.Deliver? && hash in g.nodes then Counted(StatsOf(g.cached.store, hash), e.r, hash, base)
                else StatsOf(g.cached.store, hash)
  {
    match e
    case Deliver(r) => UpdatedIsCounted(g.cached, archive, g.nodes, base, r);
    case AddNode(hash) =>
    case RemoveNode(hash) => WithoutIsExact(g.nodes, hash);
  }

  /** Over every interleaving of deliveries, additions and removals, a configuration's counters are those of the replays
      delivered while it was a node, whatever the cache skipped and however often it was removed and added again. */
  lemma {:induction false} CountersFollowEvents(g: Group, events: seq<Event>, archive: map<string, Record>,
                                                base: string, hash: string)
    requires IsSound(g, archive, base)
    requires forall e | e in events && e.Deliver? :: e.r.id in archive && archive[e.r.id] == e.r
    ensures IsSound(AppliedAll(g, events, base), archive, base)
    ensures StatsOf(AppliedAll(g, events, base).cached.store, hash)
              == CountedAll(StatsOf(g.cached.store, hash), Reaching(g, events, base, hash), hash, base)
    ensures IsFrom(Reaching(g, events, base, hash), archive)
  {
    hide IsSound, Applied, Counted, StatsOf;
    if events != [] {
      var (before, e) := (events[..|events| - 1], events[|events| - 1]);
      assert events == before + [e];
      CountersFollowEvents(g, before, archive, base, hash);
      EventIsCounted(AppliedAll(g, before, base), e, archive, base);
      var reached := Reaching(g, before, base, hash);
      if e.Deliver? && hash in AppliedAll(g, before, base).nodes {
        assert (reached + [e.r])[..|reached|] == reached;
      } else {
        assert reached + [] == reached;
      }
    }
  }

  /** From the first delivery on, each counter is the number of distinct replays that reached the node; and if all
      stored replays between it and the base did, it is the number of those. */
  lemma GroupCountsAll(nodes: seq<string>, events: seq<Event>, stored: map<string, Record>, base: string, hash: string,
                       color: Color, score: Score)
    requires NoDuplicates(nodes) && hash != base
    requires forall e | e in events && e.Deliver? :: e.r.id in stored && stored[e.r.id] == e.r
    ensures var g := Group(nodes, Cached(map[], {}));
            var reached := Ids(Reaching(g, events, base, hash));
            var count := CountOf(StatsOf(AppliedAll(g, events, base).cached.store, hash), color, score);
            && count == |GamesWith(stored, reached, hash, base, color, score)|
            && ((forall id | id in stored && IsBetween(stored[id], base, hash) :: id in reached) ==>
                  count == |GamesWith(stored, stored.Keys, hash, base, color, score)|)
  {
    var g := Group(nodes, Cached(map[], {}));
    CountersFollowEvents(g, events, stored, base, hash);
    var reaching := Reaching(g, events, base, hash);
    ExactlyOnce(reaching, stored, hash, base);
    if forall id | id in stored && IsBetween(stored[id], base, hash) :: id in Ids(reaching) {
      var fetched := set id | id in stored && IsBetween(stored[id], base, hash);
      FullFetchCountsAll(stored, fetched, reaching, hash, base, color, score);
    }
    hide AppliedAll, Reaching, CountedAll, GamesWith, Ids;
  }

  /** A node is added if it is neither there nor the base, and removed if it is there, is not the base and is not the
      only one; both drop the cache. A delivery leaves the nodes alone. */
  lemma NodesByEvent(g: Group, base: string, hash: string, r: Record)
    ensures Applied(g, Deliver(r), base).nodes == g.nodes
    ensures Applied(g, AddNode(hash), base) ==
              if hash in g.nodes || hash == base then g else Group(g.nodes + [hash], Cached(g.cached.store, {}))
    ensures NoDuplicates(g.nodes) ==>
              var after := Applied(g, RemoveNode(hash), base);
              if hash !in g.nodes || hash == base || |g.nodes| == 1 then after == g
              else
                && after.cached == Cached(g.cached.store, {}) && NoDuplicates(after.nodes)
                && forall other :: other in after.nodes <==> other in g.nodes && other != hash
  {
    if NoDuplicates(g.nodes) {
      WithoutIsExact(g.nodes, hash);
    }
  }

  // ----- The six counters, by the fields of the replays -----------------------------------------------------

  /** The replays among those reached that the configuration played as white against the base, with this winner. */
  function AsWhite(stored: map<string, Record>, reached: set<string>, hash: string, base: string,
                   winner: Winner): set<string>
  {
    set id | && id in reached && id in stored
             && stored[id].white == hash && stored[id].black == base && stored[id].winner == winner
  }

  /** And as black. */
  function AsBlack(stored: map<string, Record>, reached: set<string>, hash: string, base: string,
                   winner: Winner): set<string>
  {
    set id | && id in reached && id in stored
             && stored[id].black == hash && stored[id].white == base && stored[id].winner == winner
  }

  lemma OneOfThree(winner: Winner)
    ensures winner == Drawn || winner == Won(White) || winner == Won(Black)
  {
    if winner.Won? {
      assert winner.color == White || winner.color == Black;
    }
  }

  lemma GamesByFields(stored: map<string, Record>, reached: set<string>, hash: string, base: string)
    requires hash != base
    ensures GamesWith(stored, reached, hash, base, White, Win) == AsWhite(stored, reached, hash, base, Won(White))
    ensures GamesWith(stored, reached, hash, base, White, Draw) == AsWhite(stored, reached, hash, base, Drawn)
    ensures GamesWith(stored, reached, hash, base, White, Defeat) == AsWhite(stored, reached, hash, base, Won(Black))
    ensures GamesWith(stored, reached, hash, base, Black, Win) == AsBlack(stored, reached, hash, base, Won(Black))
    ensures GamesWith(stored, reached, hash, base, Black, Draw) == AsBlack(stored, reached, hash, base, Drawn)
    ensures GamesWith(stored, reached, hash, base, Black, Defeat) == AsBlack(stored, reached, hash, base, Won(White))
  {
    forall id | id in stored ensures stored[id].winner in {Drawn, Won(White), Won(Black)} {
      OneOfThree(stored[id].winner);
    }
  }

  /** The counters of a configuration, after any deliveries, additions and removals: as white it has won the replays
      that white won, and as black those that black won. */
  lemma SixCounters(nodes: seq<string>, events: seq<Event>, stored: map<string, Record>, base: string, hash: string)
    requires NoDuplicates(nodes) && hash != base
    requires forall e | e in events && e.Deliver? :: e.r.id in stored && stored[e.r.id] == e.r
    ensures var g := Group(nodes, Cached(map[], {}));
            var reached := Ids(Reaching(g, events, base, hash));
            var n := StatsOf(AppliedAll(g, events, base).cached.store, hash);
            && CountOf(n, White, Win) == |AsWhite(stored, reached, hash, base, Won(White))|
            && CountOf(n, White, Draw) == |AsWhite(stored, reached, hash, base, Drawn)|
            && CountOf(n, White, Defeat) == |AsWhite(stored, reached, hash, base, Won(Black))|
            && CountOf(n, Black, Win) == |AsBlack(stored, reached, hash, base, Won(Black))|
            && CountOf(n, Black, Draw) == |AsBlack(stored, reached, hash, base, Drawn)|
            && CountOf(n, Black, Defeat) == |AsBlack(stored, reached, hash, base, Won(White))|
  {
    var g := Group(nodes, Cached(map[], {}));
    var reached := Ids(Reaching(g, events, base, hash));
    GamesByFields(stored, reached, hash, base);
    hide GamesWith, AsWhite, AsBlack, Ids, Reaching, AppliedAll, CountOf;
    forall color, score
      ensures CountOf(StatsOf(AppliedAll(g, events, base).cached.store, hash), color, score)
                == |GamesWith(stored, reached, hash, base, color, score)|
    {
      GroupCountsAll(nodes, events, stored, base, hash, color, score);
    }
  }

  /** One replay, won by white, delivered once: it is one win of the configuration that had white. */
  lemma OneWin(r: Record, hash: string, base: string)
    requires hash != base && r.white == hash && r.black == base && r.winner == Won(White)
    ensures Counted(NO_STATS, r, hash, base) == NodeStats({r.id}, map[(White, Win) := 1])
  {
  }

  /** Days are counted in full days of milliseconds, the first beginning at zero, dates before it included. */
  lemma DaysByDate(date: int, day: int)
    ensures Day(date) == day <==> 86400000 * day <= date < 86400000 * (day + 1)
  {
  }

  class Verification {
    const base: string
    /** The replays there are, by id. */
    ghost const archive: map<string, Record>
    var nodes: seq<string>
    var replays: set<string>
    var store: map<string, NodeStats>

    function State(): Group
      reads this
    {
      Group(nodes, Cached(store, replays))
    }

    ghost predicate Valid()
      reads this
    {
      IsSound(State(), archive, base)
    }

    constructor (base: string, ghost archive: map<string, Record>, nodes: seq<string>, store: map<string, NodeStats>)
      requires NoDuplicates(nodes)
      ensures Valid() && this.base == base && this.archive == archive
      ensures State() == Group(nodes, Cached(store, {}))
    {
      this.base, this.archive, this.nodes, this.store := base, archive, nodes, store;
      replays := {};
    }

    /** Offers a replay to every node, unless the cache says it has been. */
    method Update(replay: Record)
      requires Valid() && replay.id in archive && archive[replay.id] == replay
      modifies this`replays, this`store
      ensures Valid() && State() == Applied(old(State()), Deliver(replay), base)
    {
      EventIsCounted(State(), Deliver(replay), archive, base);
      if replay.id in replays {
        return;
      }
      for i := 0 to |nodes|
        invariant replays == old(replays) && store == Offered(old(store), nodes[..i], base, replay)
      {
        var hash := nodes[i];
        assert nodes[..i + 1][..i] == nodes[..i];
        store := store[hash := Counted(StatsOf(store, hash), replay, hash, base)];
      }
      assert nodes[..|nodes|] == nodes;
      replays := replays + {replay.id};
    }

    /** Adds a node, unless it is there or is the base. The cache is dropped: the new node has counted nothing. */
    method Add(hash: string) returns (ok: bool)
      requires Valid()
      modifies this`nodes, this`replays
      ensures Valid() && ok == CanAdd(old(State()), hash, base)
      ensures State() == Applied(old(State()), AddNode(hash), base)
    {
      if hash in nodes || hash == base {
        return false;
      }
      nodes, replays := nodes + [hash], {};
      return true;
    }

    /** Removes a node, unless it is not there, is the base or is the only one. Its counters stay stored. */
    method Remove(hash: string) returns (ok: bool)
      requires Valid()
      modifies this`nodes, this`replays
      ensures Valid() && ok == CanRemove(old(State()), hash, base)
      ensures State() == Applied(old(State()), RemoveNode(hash), base)
    {
      EventIsCounted(State(), RemoveNode(hash), archive, base);
      if hash !in nodes || hash == base || |nodes| == 1 {
        return false;
      }
      nodes, replays := Without(nodes, hash), {};
      return true;
    }
  }
}
