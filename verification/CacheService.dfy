/** The cache of ticket lists and dashboard statistics in Redis, and the two read-through handlers. */
module CacheService {
  import opened Domain
  import opened LiteralSearch
  import opened TicketQuery
  import opened CacheKey
  import opened RedisModel
  import opened DashboardStats

  /** Times to live are milliseconds. */
  datatype Config = Config(hash: string -> string, fold: char -> char, listTtl: nat, statsTtl: nat)
  {
    ghost predicate Valid() {
      CollisionFree(hash) && FoldsLetters(fold) && listTtl > 0 && statsTtl > 0
    }
  }

  /** Where a stored page comes from: who asked under which version, how many states had been
      committed when the request began, which states its two queries saw, and when it was stored.
      Nothing reads it but the proofs. */
  datatype PageOrigin = PageOrigin(user: User, filters: Filters, version: int, begun: nat, countAt: nat, rowsAt: nat,
      storedAt: nat)

  /** The same for statistics, whose four queries saw the states `seen`. */
  datatype StatsOrigin = StatsOrigin(begun: nat, seen: seq<nat>, storedAt: nat)

  datatype Entry = PageEntry(page: TicketPage, of: PageOrigin) | StatsEntry(stats: Stats, from: StatsOrigin)

  /** A resolved key and the version it was made with. */
  datatype ResolvedKey = ResolvedKey(text: string, version: int)

  /******* What the cache operations do to the store *******/

  function Seeded(s: Store<Entry>, now: nat): Store<Entry> {
    SetNxOf(s, VersionKey, Number(1), now)
  }

  function VersionOf(s: Store<Entry>, now: nat): Option<int> {
    match GetOf(s, VersionKey, now)
    case Some(Number(v)) => Some(v)
    case _ => None
  }

  /** Advances the list version and forgets the dashboard entry. */
  function Invalidated(s: Store<Entry>, now: nat): Store<Entry> {
    IncrOf(Seeded(s, now), VersionKey, now).0 - {DashboardKey}
  }

  function CachedPage(s: Store<Entry>, key: string, now: nat): (entry: Option<Entry>)
    ensures entry.Some? ==> Live(s, key, now) && entry.value.PageEntry?
  {
    match GetOf(s, key, now)
    case Some(Document(e)) => if e.PageEntry? then Some(e) else None
    case _ => None
  }

  function CachedStats(s: Store<Entry>, now: nat): (entry: Option<Entry>)
    ensures entry.Some? ==> Live(s, DashboardKey, now) && entry.value.StatsEntry?
  {
    match GetOf(s, DashboardKey, now)
    case Some(Document(e)) => if e.StatsEntry? then Some(e) else None
    case _ => None
  }

  /******* The operations on a Redis server *******/

  method ResolveTicketListCacheKey(cfg: Config, redis: Redis<Entry>, user: User, f: Filters,
                                   now: nat, seed: Fate, read: Fate)
    returns (key: Option<ResolvedKey>)
    modifies redis
    ensures redis.cells == if seed.Refused? then old(redis.cells) else Seeded(old(redis.cells), now)
    ensures var version := VersionOf(redis.cells, now);
      key == if seed.Answered? && read.Answered? && version.Some? then
          Some(ResolvedKey(ListKey(cfg.hash, version.value, user, f), version.value)) else None
  {
    if seed.Refused? {
      return None;
    }
    redis.SetNx(VersionKey, Number(1), now);
    if seed.ReplyLost? {
      return None;
    }
    var raw := redis.Get(VersionKey, now);
    if !read.Answered? {
      return None;
    }
    match raw
    case Some(Number(v)) => key := Some(ResolvedKey(ListKey(cfg.hash, v, user, f), v));
    case _ => key := None;
  }

  /** Failures and entries that do not parse count as misses. */
  method GetCachedTicketList(redis: Redis<Entry>, key: Option<ResolvedKey>, now: nat, fate: Fate)
    returns (entry: Option<Entry>)
    ensures entry == if key.Some? && fate.Answered? then CachedPage(redis.cells, key.value.text, now) else None
  {
    if key.None? || !fate.Answered? {
      return None;
    }
    var raw := redis.Get(key.value.text, now);
    match raw
    case Some(Document(e)) => entry := if e.PageEntry? then Some(e) else None;
    case _ => entry := None;
  }

  method SetCachedTicketList(cfg: Config, redis: Redis<Entry>, key: Option<ResolvedKey>, entry: Entry,
                             now: nat, fate: Fate)
    modifies redis
    ensures redis.cells == if key.None? || fate.Refused? then old(redis.cells)
      else SetExOf(old(redis.cells), key.value.text, Document(entry), now, cfg.listTtl)
  {
    if key.Some? && !fate.Refused? {
      redis.SetEx(key.value.text, Document(entry), now, cfg.listTtl);
    }
  }

  /** One transaction; the database has committed already, so a failure is only logged. */
  method InvalidateTicketCaches(redis: Redis<Entry>, now: nat, fate: Fate)
    modifies redis
    ensures redis.cells == if fate.Refused? then old(redis.cells) else Invalidated(old(redis.cells), now)
  {
    if !fate.Refused? {
      redis.SetNx(VersionKey, Number(1), now);
      var _ := redis.Incr(VersionKey, now);
      redis.Delete(DashboardKey);
    }
  }

  /** The page and the store after one list request while Redis is left alone: a cached page, or one
      computed and stored under the version found; any Redis failure falls back to the database. The
      database may move on meanwhile: of its states `history` the queries see two. */
  function ListServed(cfg: Config, s: Store<Entry>, history: seq<Tickets>, begun: nat, countAt: nat, rowsAt: nat,
                      user: User, f: Filters, now: nat, seed: Fate, read: Fate, lookup: Fate, store: Fate)
    : (TicketPage, Store<Entry>)
    requires f.Valid() && countAt < |history| && rowsAt < |history|
  {
    var seeded := if seed.Refused? then s else Seeded(s, now);
    var version := VersionOf(seeded, now);
    var computed := PageFrom(cfg.fold, history[countAt], history[rowsAt], user, f);
    if !seed.Answered? || !read.Answered? || version.None? then (computed, seeded)
    else
      var origin := PageOrigin(user, f, version.value, begun, countAt, rowsAt, now);
      ListLookedUp(cfg, seeded, computed, origin, now, lookup, store)
  }

  /** The same from the lookup on; `o` is the origin of the page it may compute. */
  function ListLookedUp(cfg: Config, s: Store<Entry>, computed: TicketPage, o: PageOrigin, now: nat,
                        lookup: Fate, store: Fate): (TicketPage, Store<Entry>)
  {
    var key := ListKey(cfg.hash, o.version, o.user, o.filters);
    match CachedPage(s, key, now)
    case Some(PageEntry(page, _)) =>
      if lookup.Answered? then (page, s) else (computed, ListStored(cfg, s, computed, o, now, store))
    case _ => (computed, ListStored(cfg, s, computed, o, now, store))
  }

  function ListStored(cfg: Config, s: Store<Entry>, page: TicketPage, o: PageOrigin, now: nat, store: Fate)
    : Store<Entry>
  {
    if store.Refused? then s
    else SetExOf(s, ListKey(cfg.hash, o.version, o.user, o.filters), Document(PageEntry(page, o)), now, cfg.listTtl)
  }

  /** The list handler when nothing else uses Redis between its steps. */
  method GetList(cfg: Config, redis: Redis<Entry>, history: seq<Tickets>, begun: nat, countAt: nat, rowsAt: nat,
                 user: User, f: Filters, now: nat, seed: Fate, read: Fate, lookup: Fate, store: Fate)
    returns (page: TicketPage)
    requires f.Valid() && cfg.Valid() && countAt < |history| && rowsAt < |history|
    modifies redis
    ensures (page, redis.cells) ==
      ListServed(cfg, old(redis.cells), history, begun, countAt, rowsAt, user, f, now, seed, read, lookup, store)
  {
    hide PageFrom, ListKey, Seeded, VersionOf;
    var key := ResolveTicketListCacheKey(cfg, redis, user, f, now, seed, read);
    var cached := GetCachedTicketList(redis, key, now, lookup);
    if cached.Some? {
      return cached.value.page;
    }
    page := ListTickets(cfg.fold, history[countAt], history[rowsAt], user, f);
    var version := if key.Some? then key.value.version else 0;
    SetCachedTicketList(cfg, redis, key, PageEntry(page, PageOrigin(user, f, version, begun, countAt, rowsAt, now)),
      now, store);
  }

  /** The dashboard entry counts as missing when it cannot be read. */
  method GetCachedDashboardStats(redis: Redis<Entry>, now: nat, fate: Fate) returns (entry: Option<Entry>)
    ensures entry == if fate.Answered? then CachedStats(redis.cells, now) else None
  {
    if !fate.Answered? {
      return None;
    }
    var raw := redis.Get(DashboardKey, now);
    match raw
    case Some(Document(e)) => entry := if e.StatsEntry? then Some(e) else None;
    case _ => entry := None;
  }

  /** The four states that the queries of one computation saw. */
  predicate FourSeen(history: seq<Tickets>, seen: seq<nat>) {
    |seen| == 4 && forall k :: 0 <= k < 4 ==> seen[k] < |history|
  }

  function StatsOfSeen(history: seq<Tickets>, seen: seq<nat>): Stats
    requires FourSeen(history, seen)
  {
    StatsFrom(history[seen[0]], history[seen[1]], history[seen[2]], history[seen[3]])
  }

  /** The statistics and the store after one dashboard request while Redis is left alone. */
  function StatsServed(cfg: Config, s: Store<Entry>, history: seq<Tickets>, begun: nat, seen: seq<nat>, now: nat,
                       lookup: Fate, store: Fate): (Stats, Store<Entry>)
    requires FourSeen(history, seen)
  {
    var computed := StatsOfSeen(history, seen);
    var stored := StatsStored(cfg, s, computed, StatsOrigin(begun, seen, now), now, store);
    match CachedStats(s, now)
    case Some(StatsEntry(stats, _)) => if lookup.Answered? then (stats, s) else (computed, stored)
    case _ => (computed, stored)
  }

  function StatsStored(cfg: Config, s: Store<Entry>, stats: Stats, o: StatsOrigin, now: nat, store: Fate)
    : Store<Entry>
  {
    if store.Refused? then s else SetExOf(s, DashboardKey, Document(StatsEntry(stats, o)), now, cfg.statsTtl)
  }

  /** The dashboard handler when nothing else uses Redis between its steps. */
  method GetStats(cfg: Config, redis: Redis<Entry>, ghost history: seq<Tickets>, begun: nat, seen: seq<nat>, total: nat,
                  statusRows: seq<Row<TicketStatus>>, priorityRows: seq<Row<TicketPriority>>,
                  categoryRows: seq<Row<TicketCategory>>, now: nat, lookup: Fate, store: Fate)
    returns (stats: Stats)
    requires FourSeen(history, seen)
    requires total == |history[seen[0]]| && GroupedRows(history[seen[1]], StatusOf, statusRows)
    requires GroupedRows(history[seen[2]], PriorityOf, priorityRows)
    requires GroupedRows(history[seen[3]], CategoryOf, categoryRows)
    modifies redis
    ensures (stats, redis.cells) == StatsServed(cfg, old(redis.cells), history, begun, seen, now, lookup, store)
  {
    var cached := GetCachedDashboardStats(redis, now, lookup);
    if cached.Some? {
      return cached.value.stats;
    }
    stats := CalculateDashboardStats(total, statusRows, priorityRows, categoryRows,
      history[seen[0]], history[seen[1]], history[seen[2]], history[seen[3]]);
    SetCachedDashboardStats(cfg, redis, StatsEntry(stats, StatsOrigin(begun, seen, now)), now, store);
  }

  method SetCachedDashboardStats(cfg: Config, redis: Redis<Entry>, entry: Entry, now: nat, fate: Fate)
    modifies redis
    ensures redis.cells == if fate.Refused? then old(redis.cells)
      else SetExOf(old(redis.cells), DashboardKey, Document(entry), now, cfg.statsTtl)
  {
    if !fate.Refused? {
      redis.SetEx(DashboardKey, Document(entry), now, cfg.statsTtl);
    }
  }
}
