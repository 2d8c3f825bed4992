/** The handlers do what the protocol's steps do one after the other, as long as nobody else uses Redis
    in between; the database may move on between their queries. */
module CacheHandlers {
  import opened Domain
  import opened TicketQuery
  import opened CacheKey
  import opened RedisModel
  import opened DashboardStats
  import opened CacheService
  import opened CacheProtocol

  lemma Before(cfg: Config, w: World, e: Event, es: seq<Event>)
    requires Enabled(w, e) && ValidRun(cfg, After(cfg, w, e), es)
    ensures ValidRun(cfg, w, [e] + es) && End(cfg, w, [e] + es) == End(cfg, After(cfg, w, e), es)
  {
    assert ([e] + es)[1..] == es;
  }

  lemma Alone(cfg: Config, w: World, e: Event)
    requires Enabled(w, e)
    ensures ValidRun(cfg, w, [e]) && End(cfg, w, [e]) == After(cfg, w, e)
  {
    assert [e][1..] == [];
    assert ValidRun(cfg, After(cfg, w, e), []);
  }

  function Committed(w: World, db: Tickets): World {
    w.(history := w.history + [db], pending := w.pending + {|w.history|})
  }

  /** The state after others committed `dbs` one after the other. */
  function AfterCommits(w: World, dbs: seq<Tickets>): (x: World)
    ensures x.history == w.history + dbs && x == w.(history := x.history, pending := x.pending)
    decreases |dbs|
  {
    if dbs == [] then w else AfterCommits(Committed(w, dbs[0]), dbs[1..])
  }

  /** A run after those commits is one that starts with them. */
  lemma {:induction false} CommitsBefore(cfg: Config, w: World, dbs: seq<Tickets>, es: seq<Event>)
    returns (all: seq<Event>)
    requires ValidRun(cfg, AfterCommits(w, dbs), es)
    ensures ValidRun(cfg, w, all) && End(cfg, w, all) == End(cfg, AfterCommits(w, dbs), es)
    decreases |dbs|
  {
    if dbs == [] {
      all := es;
    } else {
      assert After(cfg, w, Commit(dbs[0])) == Committed(w, dbs[0]);
      var rest := CommitsBefore(cfg, Committed(w, dbs[0]), dbs[1..], es);
      Before(cfg, w, Commit(dbs[0]), rest);
      all := [Commit(dbs[0])] + rest;
    }
  }

  /******* Ticket lists *******/

  /** Request `id` has been answered `page`, and the store is `s`. */
  ghost predicate Answers(cfg: Config, w: World, es: seq<Event>, id: nat, outcome: (TicketPage, Store<Entry>)) {
    && ValidRun(cfg, w, es)
    && var x := End(cfg, w, es);
       id in x.lists && x.lists[id].answer.Some? && (x.lists[id].answer.value.page, x.store) == outcome
  }

  /** What a request computes and stores that has counted in state `countAt` and reads in `rowsAt`. */
  function ComputedOutcome(cfg: Config, w: World, r: ListRequest, history: seq<Tickets>, countAt: nat, rowsAt: nat,
                           store: Fate)
    : (TicketPage, Store<Entry>)
    requires r.filters.Valid() && countAt < |history| && rowsAt < |history|
  {
    var page := PageFrom(cfg.fold, history[countAt], history[rowsAt], r.user, r.filters);
    (page, if r.key.None? then w.store
           else ListStored(cfg, w.store, page, OriginOf(w, r, r.key.value.version, countAt, rowsAt), w.now, store))
  }

  function OriginOf(w: World, r: ListRequest, version: int, countAt: nat, rowsAt: nat): PageOrigin {
    PageOrigin(r.user, r.filters, version, r.begun, countAt, rowsAt, w.now)
  }

  predicate KeyOk(cfg: Config, r: ListRequest) {
    r.filters.Valid() && (r.key.Some? ==> r.key.value.text == ListKey(cfg.hash, r.key.value.version, r.user, r.filters))
  }

  lemma StoreMeanwhile(cfg: Config, w: World, id: nat, store: Fate) returns (es: seq<Event>)
    requires id in w.lists && KeyOk(cfg, w.lists[id]) && w.lists[id].pc.Storing?
    requires w.lists[id].countAt < |w.history| && w.lists[id].rowsAt < |w.history|
    ensures var r := w.lists[id];
      Answers(cfg, w, es, id, ComputedOutcome(cfg, w, r, w.history, r.countAt, r.rowsAt, store))
  {
    hide PageFrom, ListKey, ValidRun, End;
    es := [ListStore(id, store)];
    Alone(cfg, w, es[0]);
    assert End(cfg, w, es) == AfterStore(cfg, w, id, store);
  }

  lemma FetchMeanwhile(cfg: Config, w: World, id: nat, dbs: seq<Tickets>, store: Fate) returns (es: seq<Event>)
    requires w.Last() >= 0 && id in w.lists && KeyOk(cfg, w.lists[id]) && w.lists[id].pc.Fetching?
    requires w.lists[id].countAt < |w.history|
    ensures var r, h := w.lists[id], w.history + dbs;
      Answers(cfg, w, es, id, ComputedOutcome(cfg, w, r, h, r.countAt, |h| - 1, store))
  {
    hide PageFrom, ListKey, ValidRun, End;
    var y := AfterCommits(w, dbs);
    var x := After(cfg, y, ListFetch(id));
    var stored := StoreMeanwhile(cfg, x, id, store);
    Before(cfg, y, ListFetch(id), stored);
    es := CommitsBefore(cfg, w, dbs, [ListFetch(id)] + stored);
  }

  lemma ComputeMeanwhile(cfg: Config, w: World, id: nat, first: seq<Tickets>, second: seq<Tickets>, store: Fate)
    returns (es: seq<Event>)
    requires w.Last() >= 0 && id in w.lists && KeyOk(cfg, w.lists[id]) && w.lists[id].pc.Counting?
    ensures var h := w.history + first + second;
      Answers(cfg, w, es, id, ComputedOutcome(cfg, w, w.lists[id], h, w.Last() + |first|, |h| - 1, store))
  {
    hide PageFrom, ListKey, ValidRun, End;
    var y := AfterCommits(w, first);
    var x := After(cfg, y, ListCount(id));
    var rest := FetchMeanwhile(cfg, x, id, second, store);
    Before(cfg, y, ListCount(id), rest);
    es := CommitsBefore(cfg, w, first, [ListCount(id)] + rest);
  }

  /** What a request with key and version answers and stores from its lookup on. */
  function LookupOutcome(cfg: Config, w: World, r: ListRequest, version: int, h: seq<Tickets>, countAt: nat,
                         lookup: Fate, store: Fate)
    : (TicketPage, Store<Entry>)
    requires r.filters.Valid() && countAt < |h|
  {
    ListLookedUp(cfg, w.store, PageFrom(cfg.fold, h[countAt], h[|h| - 1], r.user, r.filters),
      OriginOf(w, r, version, countAt, |h| - 1), w.now, lookup, store)
  }

  predicate Hits(w: World, key: string, lookup: Fate) {
    lookup.Answered? && CachedPage(w.store, key, w.now).Some?
  }

  /** A hit answers the cached page and changes nothing else; a miss goes on to compute. */
  lemma LookupStep(cfg: Config, w: World, id: nat, lookup: Fate)
    requires Enabled(w, ListLookup(id, lookup))
    ensures var x := After(cfg, w, ListLookup(id, lookup));
      var key := w.lists[id].key.value.text;
      if Hits(w, key, lookup)
        then id in x.lists && x.lists[id].answer.Some? && x.store == w.store
          && x.lists[id].answer.value.page == CachedPage(w.store, key, w.now).value.page
        else x == WithList(w, id, w.lists[id].(pc := Counting))
  {
    assert After(cfg, w, ListLookup(id, lookup)) == AfterLookup(w, id, lookup);
  }

  lemma LookupMeanwhile(cfg: Config, w: World, id: nat, first: seq<Tickets>, second: seq<Tickets>,
                        lookup: Fate, store: Fate)
    returns (es: seq<Event>)
    requires w.Last() >= 0 && id in w.lists && KeyOk(cfg, w.lists[id])
    requires w.lists[id].pc.Looking? && w.lists[id].key.Some?
    ensures var r, h := w.lists[id], w.history + first + second;
      Answers(cfg, w, es, id, LookupOutcome(cfg, w, r, r.key.value.version, h, w.Last() + |first|, lookup, store))
  {
    hide PageFrom, ListKey, ValidRun, End, After, CachedPage, ListStored;
    var look := ListLookup(id, lookup);
    LookupStep(cfg, w, id, lookup);
    if Hits(w, w.lists[id].key.value.text, lookup) {
      es := [look];
      Alone(cfg, w, look);
    } else {
      var rest := ComputeMeanwhile(cfg, After(cfg, w, look), id, first, second, store);
      Before(cfg, w, look, rest);
      es := [look] + rest;
    }
  }

  lemma VersionMeanwhile(cfg: Config, w: World, id: nat, first: seq<Tickets>, second: seq<Tickets>,
                         read: Fate, lookup: Fate, store: Fate)
    returns (es: seq<Event>)
    requires w.Last() >= 0 && id in w.lists && w.lists[id].filters.Valid() && w.lists[id].pc.Versioning?
    ensures var (r, h, v) := (w.lists[id], w.history + first + second, VersionOf(w.store, w.now));
      Answers(cfg, w, es, id,
        if !read.Answered? || v.None?
          then (PageFrom(cfg.fold, h[w.Last() + |first|], h[|h| - 1], r.user, r.filters), w.store)
          else LookupOutcome(cfg, w, r, v.value, h, w.Last() + |first|, lookup, store))
  {
    hide PageFrom, ListKey, ValidRun, End, ListLookedUp;
    var x := After(cfg, w, ListVersion(id, read));
    assert x == AfterVersion(cfg, w, id, read);
    var rest;
    if x.lists[id].pc.Looking? {
      rest := LookupMeanwhile(cfg, x, id, first, second, lookup, store);
    } else {
      rest := ComputeMeanwhile(cfg, x, id, first, second, store);
    }
    Before(cfg, w, ListVersion(id, read), rest);
    es := [ListVersion(id, read)] + rest;
  }

  lemma SeedMeanwhile(cfg: Config, w: World, id: nat, first: seq<Tickets>, second: seq<Tickets>,
                      seed: Fate, read: Fate, lookup: Fate, store: Fate)
    returns (es: seq<Event>)
    requires w.Last() >= 0 && id in w.lists && w.lists[id].filters.Valid() && w.lists[id].pc.Seeding?
    requires w.lists[id].begun == w.Last()
    ensures var (r, h) := (w.lists[id], w.history + first + second);
      Answers(cfg, w, es, id, ListServed(cfg, w.store, h, w.Last(), w.Last() + |first|, |h| - 1,
        r.user, r.filters, w.now, seed, read, lookup, store))
  {
    hide PageFrom, ListKey, ValidRun, End, ListLookedUp, VersionOf;
    var x := After(cfg, w, ListSeed(id, seed));
    assert x == AfterSeed(w, id, seed);
    var rest;
    if seed.Answered? {
      rest := VersionMeanwhile(cfg, x, id, first, second, read, lookup, store);
    } else {
      rest := ComputeMeanwhile(cfg, x, id, first, second, store);
    }
    Before(cfg, w, ListSeed(id, seed), rest);
    es := [ListSeed(id, seed)] + rest;
  }

  /** A list request gets from the protocol the page, and leaves the store, that the handler's contract
      states, when others only commit: `first` before its count query, `second` before its row query. */
  lemma ListMeanwhile(cfg: Config, w: World, id: nat, user: User, f: Filters, first: seq<Tickets>, second: seq<Tickets>,
                      seed: Fate, read: Fate, lookup: Fate, store: Fate)
    returns (es: seq<Event>)
    requires w.Last() >= 0 && id !in w.lists && f.Valid()
    ensures var h := w.history + first + second;
      Answers(cfg, w, es, id, ListServed(cfg, w.store, h, w.Last(), w.Last() + |first|, |h| - 1,
        user, f, w.now, seed, read, lookup, store))
  {
    hide PageFrom, ListKey, ValidRun, End, ListServed;
    var x := After(cfg, w, ListStart(id, user, f));
    var rest := SeedMeanwhile(cfg, x, id, first, second, seed, read, lookup, store);
    Before(cfg, w, ListStart(id, user, f), rest);
    es := [ListStart(id, user, f)] + rest;
  }

  /******* Dashboard statistics *******/

  /** The same for a dashboard request and its statistics. */
  ghost predicate Reports(cfg: Config, w: World, es: seq<Event>, id: nat, outcome: (Stats, Store<Entry>)) {
    && ValidRun(cfg, w, es)
    && var x := End(cfg, w, es);
       id in x.dashboards && x.dashboards[id].answer.Some? && (x.dashboards[id].answer.value.stats, x.store) == outcome
  }

  /** The database's states after the commits made before each of the remaining queries. */
  function Grown(history: seq<Tickets>, gaps: seq<seq<Tickets>>): (h: seq<Tickets>)
    ensures history <= h
    decreases |gaps|
  {
    if gaps == [] then history else Grown(history + gaps[0], gaps[1..])
  }

  /** Each of these queries sees the newest state at its time. */
  function SeenMeanwhile(history: seq<Tickets>, seen: seq<nat>, gaps: seq<seq<Tickets>>): (r: seq<nat>)
    requires |history| > 0 && forall k :: 0 <= k < |seen| ==> seen[k] < |history|
    ensures |r| == |seen| + |gaps| && forall k :: 0 <= k < |r| ==> r[k] < |Grown(history, gaps)|
    decreases |gaps|
  {
    if gaps == [] then seen
    else
      var h := history + gaps[0];
      SeenMeanwhile(h, seen + [|h| - 1], gaps[1..])
  }

  ghost predicate QueriesLeft(w: World, id: nat, gaps: seq<seq<Tickets>>) {
    && w.Last() >= 0 && id in w.dashboards
    && var r := w.dashboards[id];
       && |r.seen| + |gaps| == 4 && (if gaps == [] then r.pc.Saving? else r.pc.Querying?)
       && forall k :: 0 <= k < |r.seen| ==> r.seen[k] < |w.history|
  }

  function CountedOutcome(cfg: Config, w: World, begun: nat, history: seq<Tickets>, seen: seq<nat>, store: Fate)
    : (Stats, Store<Entry>)
    requires FourSeen(history, seen)
  {
    var stats := StatsOfSeen(history, seen);
    (stats, StatsStored(cfg, w.store, stats, StatsOrigin(begun, seen, w.now), w.now, store))
  }

  lemma SaveMeanwhile(cfg: Config, w: World, id: nat, store: Fate) returns (es: seq<Event>)
    requires QueriesLeft(w, id, [])
    ensures var r := w.dashboards[id];
      Reports(cfg, w, es, id, CountedOutcome(cfg, w, r.begun, w.history, r.seen, store))
  {
    hide StatsFrom, ValidRun, End, StatsOfSeen;
    es := [DashboardStore(id, store)];
    Alone(cfg, w, es[0]);
    assert End(cfg, w, es) == AfterDashboardStore(cfg, w, id, store);
  }

  lemma {:induction false} QueriesMeanwhile(cfg: Config, w: World, id: nat, gaps: seq<seq<Tickets>>, store: Fate)
    returns (es: seq<Event>)
    requires QueriesLeft(w, id, gaps)
    ensures var r := w.dashboards[id];
      Reports(cfg, w, es, id,
        CountedOutcome(cfg, w, r.begun, Grown(w.history, gaps), SeenMeanwhile(w.history, r.seen, gaps), store))
    decreases |gaps|
  {
    hide StatsFrom, ValidRun, End, StatsOfSeen, StatsStored;
    if gaps == [] {
      es := SaveMeanwhile(cfg, w, id, store);
    } else {
      var y := AfterCommits(w, gaps[0]);
      var x := After(cfg, y, DashboardQuery(id));
      assert x == AfterDashboardQuery(y, id);
      var rest := QueriesMeanwhile(cfg, x, id, gaps[1..], store);
      Before(cfg, y, DashboardQuery(id), rest);
      es := CommitsBefore(cfg, w, gaps[0], [DashboardQuery(id)] + rest);
    }
  }

  lemma CheckMeanwhile(cfg: Config, w: World, id: nat, gaps: seq<seq<Tickets>>, lookup: Fate, store: Fate)
    returns (es: seq<Event>)
    requires w.Last() >= 0 && |gaps| == 4
    requires id in w.dashboards && w.dashboards[id] == StatsRequest(Checking, w.Last(), [], None)
    ensures Reports(cfg, w, es, id, StatsServed(cfg, w.store, Grown(w.history, gaps), w.Last(),
      SeenMeanwhile(w.history, [], gaps), w.now, lookup, store))
  {
    hide StatsFrom, ValidRun, End, Grown, SeenMeanwhile;
    var look := DashboardLookup(id, lookup);
    var x := After(cfg, w, look);
    assert x == AfterDashboardLookup(w, id, lookup);
    if x.dashboards[id].pc.Served? {
      es := [look];
      Alone(cfg, w, look);
    } else {
      var rest := QueriesMeanwhile(cfg, x, id, gaps, store);
      Before(cfg, w, look, rest);
      es := [look] + rest;
    }
  }

  /** A dashboard request does what its handler's contract states when others only commit, before any
      of its four queries. */
  lemma DashboardMeanwhile(cfg: Config, w: World, id: nat, gaps: seq<seq<Tickets>>, lookup: Fate, store: Fate)
    returns (es: seq<Event>)
    requires w.Last() >= 0 && |gaps| == 4 && id !in w.dashboards
    ensures Reports(cfg, w, es, id, StatsServed(cfg, w.store, Grown(w.history, gaps), w.Last(),
      SeenMeanwhile(w.history, [], gaps), w.now, lookup, store))
  {
    hide StatsFrom, ValidRun, End, StatsServed, Grown, SeenMeanwhile;
    var x := After(cfg, w, DashboardStart(id));
    var rest := CheckMeanwhile(cfg, x, id, gaps, lookup, store);
    Before(cfg, w, DashboardStart(id), rest);
    es := [DashboardStart(id)] + rest;
  }
}
