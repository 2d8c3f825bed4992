/** The caches under concurrency: any number of list and dashboard requests and of committed
    mutations, interleaved at every wait on Redis or the database. */
module CacheProtocol {
  import opened Domain
  import opened TicketQuery
  import opened CacheKey
  import opened RedisModel
  import opened DashboardStats
  import opened CacheService

  /******* States *******/

  datatype ListPc = Seeding | Versioning | Looking | Counting | Fetching | Storing | Finished

  /** A page as it was answered: which states its queries saw, and for a cached one when it had been
      stored and read. */
  datatype ListAnswer = ListAnswer(
    page: TicketPage, countAt: nat, rowsAt: nat, begun: nat, storedAt: Option<nat>, readAt: nat)

  /** `due` are the commits whose invalidation had run when the request resolved its key. */
  datatype ListRequest = ListRequest(
    user: User, filters: Filters, pc: ListPc, begun: nat,
    key: Option<ResolvedKey>, due: set<nat>, countAt: nat, rowsAt: nat, answer: Option<ListAnswer>)

  datatype StatsPc = Checking | Querying | Saving | Served

  datatype StatsAnswer = StatsAnswer(stats: Stats, seen: seq<nat>, begun: nat, storedAt: Option<nat>, readAt: nat)

  datatype StatsRequest = StatsRequest(pc: StatsPc, begun: nat, seen: seq<nat>, answer: Option<StatsAnswer>)

  /** `history` lists the committed ticket tables, oldest first: commit i made history[i].
      `pending` are the commits whose request has not tried to invalidate yet, `invalidated` those
      whose invalidation ran. `born` tells for each version which commits had been invalidated when
      it became current; it is only there for the proofs. */
  datatype World = World(
    history: seq<Tickets>,
    now: nat,
    store: Store<Entry>,
    pending: set<nat>,
    invalidated: set<nat>,
    born: map<int, set<nat>>,
    lists: map<nat, ListRequest>,
    dashboards: map<nat, StatsRequest>)
  {
    function Last(): int { |history| - 1 }
  }

  function Start(db: Tickets): World {
    World([db], 0, map[], {}, {}, map[], map[], map[])
  }

  datatype Event =
    | ListStart(id: nat, user: User, filters: Filters)
    | ListSeed(id: nat, fate: Fate)
    | ListVersion(id: nat, fate: Fate)
    | ListLookup(id: nat, fate: Fate)
    | ListCount(id: nat)
    | ListFetch(id: nat)
    | ListStore(id: nat, fate: Fate)
    | DashboardStart(id: nat)
    | DashboardLookup(id: nat, fate: Fate)
    | DashboardQuery(id: nat)
    | DashboardStore(id: nat, fate: Fate)
    | Commit(tickets: Tickets)
    | Invalidate(commit: nat, fate: Fate)
    | Pass(time: nat)
    | Evict(key: string)
    | CountRequest(key: string, count: int, expireAt: Option<nat>)

  /** Redis may forget anything but the version: were it lost, its numbers would be used again. The rate
      limiter keeps counters in the same key space. */
  predicate Enabled(w: World, e: Event) {
    match e
    case ListStart(id, _, f) => id !in w.lists && f.Valid() && w.Last() >= 0
    case ListSeed(id, _) => id in w.lists && w.lists[id].pc.Seeding?
    case ListVersion(id, _) => id in w.lists && w.lists[id].pc.Versioning?
    case ListLookup(id, _) => id in w.lists && w.lists[id].pc.Looking? && w.lists[id].key.Some?
    case ListCount(id) => id in w.lists && w.lists[id].pc.Counting? && w.Last() >= 0
    case ListFetch(id) => id in w.lists && w.lists[id].pc.Fetching? && w.Last() >= 0
    case ListStore(id, _) => id in w.lists && w.lists[id].pc.Storing? && w.lists[id].filters.Valid()
      && w.lists[id].countAt < |w.history| && w.lists[id].rowsAt < |w.history|
    case DashboardStart(id) => id !in w.dashboards && w.Last() >= 0
    case DashboardLookup(id, _) => id in w.dashboards && w.dashboards[id].pc.Checking?
    case DashboardQuery(id) => id in w.dashboards && w.dashboards[id].pc.Querying? && w.Last() >= 0
    case DashboardStore(id, _) => id in w.dashboards && w.dashboards[id].pc.Saving?
        && Snapshots(w, w.dashboards[id].seen)
    case Commit(_) => true
    case Invalidate(i, _) => i in w.pending
    case Pass(_) => true
    case Evict(k) => k != VersionKey
    case CountRequest(k, _, _) => k != VersionKey
  }

  predicate Snapshots(w: World, seen: seq<nat>) {
    FourSeen(w.history, seen)
  }

  function StatsSeen(w: World, seen: seq<nat>): Stats
    requires Snapshots(w, seen)
  {
    StatsOfSeen(w.history, seen)
  }

  /******* Steps *******/

  function WithList(w: World, id: nat, r: ListRequest): World {
    w.(lists := w.lists[id := r])
  }

  /** Runs SET NX on the version key. */
  function SeedVersion(w: World): World {
    w.(store := Seeded(w.store, w.now),
       born := if Live(w.store, VersionKey, w.now) then w.born else w.born[1 := w.invalidated])
  }

  function Unresolved(w: World, r: ListRequest): ListRequest {
    r.(pc := Counting, key := None, due := w.invalidated)
  }

  function AfterSeed(w: World, id: nat, fate: Fate): World
    requires id in w.lists
  {
    var r := w.lists[id];
    match fate
    case Answered => WithList(SeedVersion(w), id, r.(pc := Versioning))
    case Refused => WithList(w, id, Unresolved(w, r))
    case ReplyLost => WithList(SeedVersion(w), id, Unresolved(w, r))
  }

  function AfterVersion(cfg: Config, w: World, id: nat, fate: Fate): World
    requires id in w.lists
  {
    var r := w.lists[id];
    match VersionOf(w.store, w.now)
    case Some(v) =>
      if !fate.Answered? then WithList(w, id, Unresolved(w, r))
      else WithList(w, id, r.(pc := Looking, due := w.invalidated,
        key := Some(ResolvedKey(ListKey(cfg.hash, v, r.user, r.filters), v))))
    case None => WithList(w, id, Unresolved(w, r))
  }

  function AfterLookup(w: World, id: nat, fate: Fate): World
    requires id in w.lists && w.lists[id].key.Some?
  {
    var r := w.lists[id];
    match CachedPage(w.store, r.key.value.text, w.now)
    case Some(PageEntry(page, o)) =>
      if !fate.Answered? then WithList(w, id, r.(pc := Counting))
      else WithList(w, id, r.(pc := Finished,
        answer := Some(ListAnswer(page, o.countAt, o.rowsAt, o.begun, Some(o.storedAt), w.now))))
    case _ => WithList(w, id, r.(pc := Counting))
  }

  /** The request with the page it computed from what its queries saw. */
  function Computed(cfg: Config, w: World, r: ListRequest): ListRequest
    requires r.filters.Valid() && r.countAt < |w.history| && r.rowsAt < |w.history|
  {
    var page := PageFrom(cfg.fold, w.history[r.countAt], w.history[r.rowsAt], r.user, r.filters);
    r.(pc := Finished, answer := Some(ListAnswer(page, r.countAt, r.rowsAt, r.begun, None, w.now)))
  }

  function PageCell(cfg: Config, w: World, r: ListRequest): Cell<Entry>
    requires r.key.Some? && r.answer.Some?
  {
    var origin := PageOrigin(r.user, r.filters, r.key.value.version, r.begun, r.countAt, r.rowsAt, w.now);
    Cell(Document(PageEntry(r.answer.value.page, origin)), Some(w.now + cfg.listTtl))
  }

  function AfterStore(cfg: Config, w: World, id: nat, fate: Fate): World
    requires Enabled(w, ListStore(id, fate))
  {
    var done := Computed(cfg, w, w.lists[id]);
    var x := WithList(w, id, done);
    if done.key.None? || fate.Refused? then x
    else x.(store := w.store[done.key.value.text := PageCell(cfg, w, done)])
  }

  function WithDashboard(w: World, id: nat, r: StatsRequest): World {
    w.(dashboards := w.dashboards[id := r])
  }

  function AfterDashboardLookup(w: World, id: nat, fate: Fate): World
    requires id in w.dashboards
  {
    var r := w.dashboards[id];
    match CachedStats(w.store, w.now)
    case Some(StatsEntry(stats, o)) =>
      if !fate.Answered? then WithDashboard(w, id, r.(pc := Querying))
      else WithDashboard(w, id, r.(pc := Served,
          answer := Some(StatsAnswer(stats, o.seen, o.begun, Some(o.storedAt), w.now))))
    case _ => WithDashboard(w, id, r.(pc := Querying))
  }

  function AfterDashboardQuery(w: World, id: nat): World
    requires id in w.dashboards && w.Last() >= 0
  {
    var r := w.dashboards[id];
    var seen := r.seen + [w.Last()];
    WithDashboard(w, id, r.(seen := seen, pc := if |seen| < 4 then Querying else Saving))
  }

  function Saved(w: World, r: StatsRequest): StatsRequest
    requires Snapshots(w, r.seen)
  {
    r.(pc := Served, answer := Some(StatsAnswer(StatsSeen(w, r.seen), r.seen, r.begun, None, w.now)))
  }

  function StatsCell(cfg: Config, w: World, r: StatsRequest): Cell<Entry>
    requires Snapshots(w, r.seen)
  {
    Cell(Document(StatsEntry(StatsSeen(w, r.seen), StatsOrigin(r.begun, r.seen, w.now))), Some(w.now + cfg.statsTtl))
  }

  function AfterDashboardStore(cfg: Config, w: World, id: nat, fate: Fate): World
    requires Enabled(w, DashboardStore(id, fate))
  {
    var r := w.dashboards[id];
    var x := WithDashboard(w, id, Saved(w, r));
    if fate.Refused? then x else x.(store := w.store[DashboardKey := StatsCell(cfg, w, r)])
  }

  function AfterInvalidate(w: World, i: nat, fate: Fate): World {
    if fate.Refused? then w.(pending := w.pending - {i})
    else
      var store := Invalidated(w.store, w.now);
      var invalidated := w.invalidated + {i};
      var born := match VersionOf(store, w.now) case Some(v) => w.born[v := invalidated] case None => w.born;
      w.(store := store, pending := w.pending - {i}, invalidated := invalidated, born := born)
  }

  predicate OfList(e: Event) {
    e.ListStart? || e.ListSeed? || e.ListVersion? || e.ListLookup? || e.ListCount? || e.ListFetch? || e.ListStore?
  }

  predicate OfDashboard(e: Event) {
    e.DashboardStart? || e.DashboardLookup? || e.DashboardQuery? || e.DashboardStore?
  }

  function AfterOfList(cfg: Config, w: World, e: Event): World
    requires Enabled(w, e) && OfList(e)
  {
    match e
    case ListStart(id, u, f) => WithList(w, id, ListRequest(u, f, Seeding, w.Last(), None, {}, 0, 0, None))
    case ListSeed(id, fate) => AfterSeed(w, id, fate)
    case ListVersion(id, fate) => AfterVersion(cfg, w, id, fate)
    case ListLookup(id, fate) => AfterLookup(w, id, fate)
    case ListCount(id) => WithList(w, id, w.lists[id].(pc := Fetching, countAt := w.Last()))
    case ListFetch(id) => WithList(w, id, w.lists[id].(pc := Storing, rowsAt := w.Last()))
    case ListStore(id, fate) => AfterStore(cfg, w, id, fate)
  }

  function AfterOfDashboard(cfg: Config, w: World, e: Event): World
    requires Enabled(w, e) && OfDashboard(e)
  {
    match e
    case DashboardStart(id) => WithDashboard(w, id, StatsRequest(Checking, w.Last(), [], None))
    case DashboardLookup(id, fate) => AfterDashboardLookup(w, id, fate)
    case DashboardQuery(id) => AfterDashboardQuery(w, id)
    case DashboardStore(id, fate) => AfterDashboardStore(cfg, w, id, fate)
  }

  function AfterOther(w: World, e: Event): World
    requires Enabled(w, e) && !OfList(e) && !OfDashboard(e)
  {
    match e
    case Commit(db) => w.(history := w.history + [db], pending := w.pending + {|w.history|})
    case Invalidate(i, fate) => AfterInvalidate(w, i, fate)
    case Pass(time) => w.(now := w.now + time)
    case Evict(k) => w.(store := w.store - {k})
    case CountRequest(k, n, expireAt) => w.(store := w.store[k := Cell(Number(n), expireAt)])
  }

  function After(cfg: Config, w: World, e: Event): World
    requires Enabled(w, e)
  {
    if OfList(e) then AfterOfList(cfg, w, e)
    else if OfDashboard(e) then AfterOfDashboard(cfg, w, e)
    else AfterOther(w, e)
  }

  ghost predicate ValidRun(cfg: Config, w: World, es: seq<Event>)
    decreases |es|
  {
    es == [] || (Enabled(w, es[0]) && ValidRun(cfg, After(cfg, w, es[0]), es[1..]))
  }

  ghost function End(cfg: Config, w: World, es: seq<Event>): World
    requires ValidRun(cfg, w, es)
    decreases |es|
  {
    if es == [] then w else End(cfg, After(cfg, w, es[0]), es[1..])
  }

  /******* The invariant *******/

  /** A query that saw state `at` saw every commit in `due`. */
  ghost predicate Covers(due: set<nat>, at: nat) {
    forall i :: i in due ==> i <= at
  }

  ghost predicate VersionOk(w: World) {
    if VersionKey in w.store then
      && w.store[VersionKey].expireAt.None? && w.store[VersionKey].value.Number?
      && var v := w.store[VersionKey].value.n;
         v in w.born && w.born[v] == w.invalidated && forall u :: u in w.born ==> u <= v
    else
      w.invalidated == {} && w.born == map[]
  }

  ghost predicate CommitsOk(w: World) {
    && |w.history| > 0
    && (forall i :: i in w.invalidated || i in w.pending ==> i < |w.history|)
    && (forall v, i :: v in w.born && i in w.born[v] ==> i in w.invalidated)
  }

  /** A page under a version was read after every commit that had been invalidated when the version
      became current. */
  ghost predicate PageOk(cfg: Config, w: World, key: string, page: TicketPage, o: PageOrigin) {
    && o.filters.Valid() && key == ListKey(cfg.hash, o.version, o.user, o.filters)
    && o.version in w.born && Covers(w.born[o.version], o.countAt) && Covers(w.born[o.version], o.rowsAt)
    && o.begun <= o.countAt < |w.history| && o.begun <= o.rowsAt < |w.history|
    && page == PageFrom(cfg.fold, w.history[o.countAt], w.history[o.rowsAt], o.user, o.filters)
    && o.storedAt <= w.now
  }

  ghost predicate SeenOk(w: World, begun: nat, seen: seq<nat>) {
    forall k :: 0 <= k < |seen| ==> begun <= seen[k] < |w.history|
  }

  ghost predicate CellOk(cfg: Config, w: World, key: string, c: Cell<Entry>) {
    match c.value
    case Number(_) => true
    case Document(PageEntry(page, o)) => PageOk(cfg, w, key, page, o) && c.expireAt == Some(o.storedAt + cfg.listTtl)
    case Document(StatsEntry(stats, o)) =>
      && key == DashboardKey && |o.seen| == 4 && SeenOk(w, o.begun, o.seen) && o.storedAt <= w.now
      && stats == StatsSeen(w, o.seen) && c.expireAt == Some(o.storedAt + cfg.statsTtl)
  }

  ghost predicate AnswerOk(cfg: Config, w: World, r: ListRequest, a: ListAnswer) {
    && r.filters.Valid() && a.countAt < |w.history| && a.rowsAt < |w.history|
    && Covers(r.due, a.countAt) && Covers(r.due, a.rowsAt)
    && a.begun <= a.countAt && a.begun <= a.rowsAt
    && a.page == PageFrom(cfg.fold, w.history[a.countAt], w.history[a.rowsAt], r.user, r.filters)
    && (a.storedAt.Some? ==> a.storedAt.value <= a.readAt < a.storedAt.value + cfg.listTtl)
    && (a.storedAt.None? ==> a.begun == r.begun)
  }

  ghost predicate ListOk(cfg: Config, w: World, r: ListRequest) {
    && r.filters.Valid() && r.begun < |w.history|
    && (forall i :: i in r.due ==> i in w.invalidated)
    && (r.key.Some? ==>
          var k := r.key.value;
          k.version in w.born && r.due == w.born[k.version]
              && k.text == ListKey(cfg.hash, k.version, r.user, r.filters))
    && (r.pc.Looking? ==> r.key.Some?)
    && (r.pc.Fetching? || r.pc.Storing? ==> r.begun <= r.countAt < |w.history| && Covers(r.due, r.countAt))
    && (r.pc.Storing? ==> r.begun <= r.rowsAt < |w.history| && Covers(r.due, r.rowsAt))
    && (r.pc.Finished? <==> r.answer.Some?)
    && (r.answer.Some? ==> AnswerOk(cfg, w, r, r.answer.value))
  }

  ghost predicate StatsAnswerOk(cfg: Config, w: World, r: StatsRequest, a: StatsAnswer) {
    && |a.seen| == 4 && SeenOk(w, a.begun, a.seen) && a.stats == StatsSeen(w, a.seen)
    && (a.storedAt.Some? ==> a.storedAt.value <= a.readAt < a.storedAt.value + cfg.statsTtl)
    && (a.storedAt.None? ==> a.begun == r.begun)
  }

  ghost predicate DashboardOk(cfg: Config, w: World, r: StatsRequest) {
    && SeenOk(w, r.begun, r.seen) && r.begun < |w.history|
    && (r.pc.Checking? ==> r.seen == [])
    && (r.pc.Querying? ==> |r.seen| < 4)
    && (r.pc.Saving? ==> |r.seen| == 4)
    && (r.pc.Served? <==> r.answer.Some?)
    && (r.answer.Some? ==> StatsAnswerOk(cfg, w, r, r.answer.value))
  }

  ghost predicate Inv(cfg: Config, w: World) {
    && CommitsOk(w) && VersionOk(w)
    && (forall k :: k in w.store ==> CellOk(cfg, w, k, w.store[k]))
    && (forall id :: id in w.lists ==> ListOk(cfg, w, w.lists[id]))
    && (forall id :: id in w.dashboards ==> DashboardOk(cfg, w, w.dashboards[id]))
  }

  /** What every step leaves in place. */
  ghost predicate Grows(w: World, x: World) {
    && w.history <= x.history && w.now <= x.now && w.invalidated <= x.invalidated
    && forall v :: v in w.born ==> v in x.born && x.born[v] == w.born[v]
  }

  lemma SnapshotsStay(w: World, x: World, seen: seq<nat>)
    requires Grows(w, x) && Snapshots(w, seen)
    ensures Snapshots(x, seen) && StatsSeen(x, seen) == StatsSeen(w, seen)
  {
    assert forall k :: 0 <= k < 4 ==> x.history[seen[k]] == w.history[seen[k]];
  }

  lemma CellStays(cfg: Config, w: World, x: World, key: string, c: Cell<Entry>)
    requires Grows(w, x) && CellOk(cfg, w, key, c)
    ensures CellOk(cfg, x, key, c)
  {
    match c.value
    case Number(_) =>
    case Document(PageEntry(page, o)) =>
      assert x.history[o.countAt] == w.history[o.countAt] && x.history[o.rowsAt] == w.history[o.rowsAt];
    case Document(StatsEntry(stats, o)) => SnapshotsStay(w, x, o.seen);
  }

  lemma ListStays(cfg: Config, w: World, x: World, r: ListRequest)
    requires Grows(w, x) && ListOk(cfg, w, r)
    ensures ListOk(cfg, x, r)
  {
  }

  lemma DashboardStays(cfg: Config, w: World, x: World, r: StatsRequest)
    requires Grows(w, x) && DashboardOk(cfg, w, r)
    ensures DashboardOk(cfg, x, r)
  {
  }

  /** It is enough to look at what a step changes. */
  lemma KeepInv(cfg: Config, w: World, x: World)
    requires Inv(cfg, w) && Grows(w, x) && CommitsOk(x) && VersionOk(x)
    requires forall k :: k in x.store && !(k in w.store && x.store[k] == w.store[k]) ==> CellOk(cfg, x, k, x.store[k])
    requires forall id :: id in x.lists && !(id in w.lists && x.lists[id] == w.lists[id]) ==>
        ListOk(cfg, x, x.lists[id])
    requires forall id :: id in x.dashboards && !(id in w.dashboards && x.dashboards[id] == w.dashboards[id]) ==>
      DashboardOk(cfg, x, x.dashboards[id])
    ensures Inv(cfg, x)
  {
    forall k | k in x.store ensures CellOk(cfg, x, k, x.store[k]) {
      if k in w.store && x.store[k] == w.store[k] { CellStays(cfg, w, x, k, w.store[k]); }
    }
    forall id | id in x.lists ensures ListOk(cfg, x, x.lists[id]) {
      if id in w.lists && x.lists[id] == w.lists[id] { ListStays(cfg, w, x, w.lists[id]); }
    }
    forall id | id in x.dashboards ensures DashboardOk(cfg, x, x.dashboards[id]) {
      if id in w.dashboards && x.dashboards[id] == w.dashboards[id] { DashboardStays(cfg, w, x, w.dashboards[id]); }
    }
  }

  /******* Every step keeps the invariant *******/

  lemma PutList(cfg: Config, w: World, id: nat, r: ListRequest)
    requires Inv(cfg, w) && ListOk(cfg, w, r)
    ensures Inv(cfg, WithList(w, id, r))
  {
    ListStays(cfg, w, WithList(w, id, r), r);
    KeepInv(cfg, w, WithList(w, id, r));
  }

  lemma PutDashboard(cfg: Config, w: World, id: nat, r: StatsRequest)
    requires Inv(cfg, w) && DashboardOk(cfg, w, r)
    ensures Inv(cfg, WithDashboard(w, id, r))
  {
    DashboardStays(cfg, w, WithDashboard(w, id, r), r);
    KeepInv(cfg, w, WithDashboard(w, id, r));
  }

  lemma PutCell(cfg: Config, w: World, key: string, c: Cell<Entry>)
    requires Inv(cfg, w) && CellOk(cfg, w, key, c) && key != VersionKey
    ensures Inv(cfg, w.(store := w.store[key := c]))
  {
    var x := w.(store := w.store[key := c]);
    CellStays(cfg, w, x, key, c);
    KeepInv(cfg, w, x);
  }

  lemma SeedKeepsInv(cfg: Config, w: World)
    requires Inv(cfg, w)
    ensures Inv(cfg, SeedVersion(w)) && Grows(w, SeedVersion(w))
  {
    KeepInv(cfg, w, SeedVersion(w));
  }

  lemma ListStartKeepsInv(cfg: Config, w: World, e: Event)
    requires Inv(cfg, w) && Enabled(w, e) && e.ListStart?
    ensures Inv(cfg, After(cfg, w, e))
  {
    PutList(cfg, w, e.id, ListRequest(e.user, e.filters, Seeding, w.Last(), None, {}, 0, 0, None));
  }

  lemma ListSeedKeepsInv(cfg: Config, w: World, e: Event)
    requires Inv(cfg, w) && Enabled(w, e) && e.ListSeed?
    ensures Inv(cfg, After(cfg, w, e))
  {
    var r := w.lists[e.id];
    SeedKeepsInv(cfg, w);
    var y := SeedVersion(w);
    ListStays(cfg, w, y, r);
    match e.fate
    case Answered => PutList(cfg, y, e.id, r.(pc := Versioning));
    case Refused => PutList(cfg, w, e.id, Unresolved(w, r));
    case ReplyLost => PutList(cfg, y, e.id, Unresolved(w, r));
  }

  lemma ListVersionKeepsInv(cfg: Config, w: World, e: Event)
    requires Inv(cfg, w) && Enabled(w, e) && e.ListVersion?
    ensures Inv(cfg, After(cfg, w, e))
  {
    var r := w.lists[e.id];
    PutList(cfg, w, e.id, Unresolved(w, r));
    match VersionOf(w.store, w.now)
    case Some(v) =>
      var resolved := r.(pc := Looking, due := w.invalidated,
        key := Some(ResolvedKey(ListKey(cfg.hash, v, r.user, r.filters), v)));
      PutList(cfg, w, e.id, resolved);
    case None =>
  }

  /** Whatever a request finds under its key answers its own question and covers what it is due. */
  lemma HitAnswers(cfg: Config, w: World, r: ListRequest, page: TicketPage, o: PageOrigin)
    requires CollisionFree(cfg.hash) && Inv(cfg, w) && ListOk(cfg, w, r) && r.key.Some?
    requires CachedPage(w.store, r.key.value.text, w.now) == Some(PageEntry(page, o))
    ensures AnswerOk(cfg, w, r, ListAnswer(page, o.countAt, o.rowsAt, o.begun, Some(o.storedAt), w.now))
  {
    var k := r.key.value;
    assert CellOk(cfg, w, k.text, w.store[k.text]);
    KeyIdentifiesRequest(cfg.hash, o.version, o.user, o.filters, k.version, r.user, r.filters);
    KeyDeterminesAnswer(cfg.hash, cfg.fold, o.version, o.user, o.filters, k.version, r.user, r.filters,
      w.history[o.countAt], w.history[o.rowsAt]);
  }

  lemma ListLookupKeepsInv(cfg: Config, w: World, e: Event)
    requires CollisionFree(cfg.hash) && Inv(cfg, w) && Enabled(w, e) && e.ListLookup?
    ensures Inv(cfg, After(cfg, w, e))
  {
    hide PageFrom, ListKey;
    var r := w.lists[e.id];
    PutList(cfg, w, e.id, r.(pc := Counting));
    match CachedPage(w.store, r.key.value.text, w.now)
    case Some(PageEntry(page, o)) =>
      HitAnswers(cfg, w, r, page, o);
      var answer := ListAnswer(page, o.countAt, o.rowsAt, o.begun, Some(o.storedAt), w.now);
      var done := r.(pc := Finished, answer := Some(answer));
      assert AnswerOk(cfg, w, done, answer);
      PutList(cfg, w, e.id, done);
    case _ =>
  }

  lemma ListQueryKeepsInv(cfg: Config, w: World, e: Event)
    requires Inv(cfg, w) && Enabled(w, e) && (e.ListCount? || e.ListFetch?)
    ensures Inv(cfg, After(cfg, w, e))
  {
    var r := w.lists[e.id];
    PutList(cfg, w, e.id,
      if e.ListCount? then r.(pc := Fetching, countAt := w.Last()) else r.(pc := Storing, rowsAt := w.Last()));
  }

  lemma PutListAndCell(cfg: Config, w: World, id: nat, r: ListRequest, key: string, c: Cell<Entry>)
    requires Inv(cfg, w) && ListOk(cfg, w, r) && CellOk(cfg, w, key, c) && key != VersionKey
    ensures Inv(cfg, WithList(w, id, r).(store := w.store[key := c]))
  {
    PutList(cfg, w, id, r);
    CellStays(cfg, w, WithList(w, id, r), key, c);
    PutCell(cfg, WithList(w, id, r), key, c);
  }

  lemma PutDashboardAndCell(cfg: Config, w: World, id: nat, r: StatsRequest, key: string, c: Cell<Entry>)
    requires Inv(cfg, w) && DashboardOk(cfg, w, r) && CellOk(cfg, w, key, c) && key != VersionKey
    ensures Inv(cfg, WithDashboard(w, id, r).(store := w.store[key := c]))
  {
    PutDashboard(cfg, w, id, r);
    CellStays(cfg, w, WithDashboard(w, id, r), key, c);
    PutCell(cfg, WithDashboard(w, id, r), key, c);
  }

  /** The answer a request computes is its own question's... */
  lemma ComputedOk(cfg: Config, w: World, r: ListRequest)
    requires ListOk(cfg, w, r) && r.pc.Storing?
    ensures ListOk(cfg, w, Computed(cfg, w, r))
  {
    var done := Computed(cfg, w, r);
    assert AnswerOk(cfg, w, done, done.answer.value);
  }

  /** ... and good for the version the request had resolved. */
  lemma PageCellOk(cfg: Config, w: World, d: ListRequest, a: ListAnswer)
    requires ListOk(cfg, w, d) && d.key.Some? && d.answer == Some(a)
    requires a.storedAt.None? && a.countAt == d.countAt && a.rowsAt == d.rowsAt
    ensures CellOk(cfg, w, d.key.value.text, PageCell(cfg, w, d))
  {
    hide PageFrom, ListKey;
    var k := d.key.value;
    assert AnswerOk(cfg, w, d, a);
    assert PageOk(cfg, w, k.text, a.page,
      PageOrigin(d.user, d.filters, k.version, d.begun, d.countAt, d.rowsAt, w.now));
  }

  lemma ListStoreKeepsInv(cfg: Config, w: World, id: nat, fate: Fate)
    requires Inv(cfg, w) && Enabled(w, ListStore(id, fate))
    ensures Inv(cfg, AfterStore(cfg, w, id, fate))
  {
    var r := w.lists[id];
    ComputedOk(cfg, w, r);
    if r.key.None? || fate.Refused? {
      PutList(cfg, w, id, Computed(cfg, w, r));
    } else {
      ListKeyIsNotFixed(cfg.hash, r.key.value.version, r.user, r.filters);
      PageCellOk(cfg, w, Computed(cfg, w, r), Computed(cfg, w, r).answer.value);
      PutListAndCell(cfg, w, id, Computed(cfg, w, r), r.key.value.text, PageCell(cfg, w, Computed(cfg, w, r)));
    }
  }

  lemma DashboardLookupKeepsInv(cfg: Config, w: World, e: Event)
    requires Inv(cfg, w) && Enabled(w, e) && e.DashboardLookup?
    ensures Inv(cfg, After(cfg, w, e))
  {
    var r := w.dashboards[e.id];
    PutDashboard(cfg, w, e.id, r.(pc := Querying));
    match CachedStats(w.store, w.now)
    case Some(StatsEntry(stats, o)) =>
      assert CellOk(cfg, w, DashboardKey, w.store[DashboardKey]);
      var answer := StatsAnswer(stats, o.seen, o.begun, Some(o.storedAt), w.now);
      assert StatsAnswerOk(cfg, w, r, answer);
      PutDashboard(cfg, w, e.id, r.(pc := Served, answer := Some(answer)));
    case _ =>
  }

  lemma DashboardQueryKeepsInv(cfg: Config, w: World, e: Event)
    requires Inv(cfg, w) && Enabled(w, e) && (e.DashboardStart? || e.DashboardQuery?)
    ensures Inv(cfg, After(cfg, w, e))
  {
    if e.DashboardStart? {
      PutDashboard(cfg, w, e.id, StatsRequest(Checking, w.Last(), [], None));
    } else {
      var r := w.dashboards[e.id];
      var seen := r.seen + [w.Last()];
      PutDashboard(cfg, w, e.id, r.(seen := seen, pc := if |seen| < 4 then Querying else Saving));
    }
  }

  lemma SavedOk(cfg: Config, w: World, r: StatsRequest)
    requires DashboardOk(cfg, w, r) && r.pc.Saving? && Snapshots(w, r.seen)
    ensures DashboardOk(cfg, w, Saved(w, r)) && CellOk(cfg, w, DashboardKey, StatsCell(cfg, w, r))
  {
    assert StatsAnswerOk(cfg, w, r, Saved(w, r).answer.value);
  }

  lemma DashboardStoreKeepsInv(cfg: Config, w: World, id: nat, fate: Fate)
    requires Inv(cfg, w) && Enabled(w, DashboardStore(id, fate))
    ensures Inv(cfg, AfterDashboardStore(cfg, w, id, fate))
  {
    var r := w.dashboards[id];
    SavedOk(cfg, w, r);
    if fate.Refused? {
      PutDashboard(cfg, w, id, Saved(w, r));
    } else {
      PutDashboardAndCell(cfg, w, id, Saved(w, r), DashboardKey, StatsCell(cfg, w, r));
    }
  }

  /** The transaction leaves a version that no page carries yet. */
  lemma InvalidatedVersion(w: World)
    requires VersionOk(w)
    ensures var s := Invalidated(w.store, w.now);
      && VersionKey in s && s[VersionKey].expireAt.None? && VersionOf(s, w.now).Some?
      && s[VersionKey].value == Number(VersionOf(s, w.now).value)
      && (forall v :: v in w.born ==> v < VersionOf(s, w.now).value)
      && forall k :: k in s && k != VersionKey ==> k in w.store && s[k] == w.store[k]
  {
  }

  lemma InvalidateMoves(w: World, i: nat, fate: Fate)
    requires CommitsOk(w) && VersionOk(w) && i in w.pending
    ensures var x := AfterInvalidate(w, i, fate);
      && CommitsOk(x) && VersionOk(x) && Grows(w, x) && x.lists == w.lists && x.dashboards == w.dashboards
      && forall k :: k in x.store && !(k in w.store && x.store[k] == w.store[k]) ==> x.store[k].value.Number?
  {
    InvalidatedVersion(w);
  }

  lemma InvalidateKeepsInv(cfg: Config, w: World, e: Event)
    requires Inv(cfg, w) && Enabled(w, e) && e.Invalidate?
    ensures Inv(cfg, After(cfg, w, e)) && Grows(w, After(cfg, w, e))
  {
    hide AfterInvalidate, PageFrom, ListKey, CommitsOk, VersionOk;
    var x := AfterInvalidate(w, e.commit, e.fate);
    assert x == After(cfg, w, e);
    InvalidateMoves(w, e.commit, e.fate);
    KeepInv(cfg, w, x);
  }

  lemma OtherStepKeepsInv(cfg: Config, w: World, e: Event)
    requires Inv(cfg, w) && Enabled(w, e) && (e.Commit? || e.Pass? || e.Evict? || e.CountRequest?)
    ensures Inv(cfg, After(cfg, w, e))
  {
    KeepInv(cfg, w, After(cfg, w, e));
  }

  lemma StepKeepsInv(cfg: Config, w: World, e: Event)
    requires CollisionFree(cfg.hash) && Inv(cfg, w) && Enabled(w, e)
    ensures Inv(cfg, After(cfg, w, e))
  {
    match e
    case ListStart(_, _, _) => ListStartKeepsInv(cfg, w, e);
    case ListSeed(_, _) => ListSeedKeepsInv(cfg, w, e);
    case ListVersion(_, _) => ListVersionKeepsInv(cfg, w, e);
    case ListLookup(_, _) => ListLookupKeepsInv(cfg, w, e);
    case ListCount(_) => ListQueryKeepsInv(cfg, w, e);
    case ListFetch(_) => ListQueryKeepsInv(cfg, w, e);
    case ListStore(id, fate) => ListStoreKeepsInv(cfg, w, id, fate);
    case DashboardStart(_) => DashboardQueryKeepsInv(cfg, w, e);
    case DashboardLookup(_, _) => DashboardLookupKeepsInv(cfg, w, e);
    case DashboardQuery(_) => DashboardQueryKeepsInv(cfg, w, e);
    case DashboardStore(id, fate) => DashboardStoreKeepsInv(cfg, w, id, fate);
    case Invalidate(_, _) => InvalidateKeepsInv(cfg, w, e);
    case Commit(_) => OtherStepKeepsInv(cfg, w, e);
    case Pass(_) => OtherStepKeepsInv(cfg, w, e);
    case Evict(_) => OtherStepKeepsInv(cfg, w, e);
    case CountRequest(_, _, _) => OtherStepKeepsInv(cfg, w, e);
  }
}
