/** How long the caches can hide a commit when its invalidation, or every invalidation, fails. */
module CacheStaleness {
  import opened Domain
  import opened TicketQuery
  import opened CacheKey
  import opened RedisModel
  import opened DashboardStats
  import opened CacheService
  import opened CacheProtocol
  import opened CacheTheorems

  /******* Ticket lists *******/

  /** A computation under way has already read a state without commit `i`. */
  predicate OldPage(w: World, id: nat, i: nat) {
    id in w.lists && var r := w.lists[id];
    ((r.pc.Fetching? || r.pc.Storing?) && r.countAt < i) || (r.pc.Storing? && r.rowsAt < i)
  }

  ghost predicate OldPageUnderWay(w: World, i: nat) {
    exists id :: OldPage(w, id, i)
  }

  /** A stored page holds commit `i`, or expires by `until`. */
  predicate PageAges(c: Cell<Entry>, i: nat, until: nat) {
    match c.value
    case Document(PageEntry(_, o)) =>
      (i <= o.countAt && i <= o.rowsAt) || (c.expireAt.Some? && c.expireAt.value <= until)
    case _ => true
  }

  ghost predicate PagesAge(w: World, i: nat, until: nat) {
    i <= w.Last() && !OldPageUnderWay(w, i) && forall k :: k in w.store ==> PageAges(w.store[k], i, until)
  }

  /** Only the storing steps write documents. */
  lemma OldDocuments(cfg: Config, w: World, e: Event)
    requires Enabled(w, e) && !e.ListStore? && !e.DashboardStore?
    ensures var x := After(cfg, w, e);
      forall k :: k in x.store && x.store[k].value.Document? ==> k in w.store && x.store[k] == w.store[k]
  {
    hide PageFrom, ListKey, StatsFrom;
    match e
    case ListSeed(id, fate) => assert After(cfg, w, e) == AfterSeed(w, id, fate);
    case ListVersion(id, fate) => assert After(cfg, w, e) == AfterVersion(cfg, w, id, fate);
    case ListLookup(id, fate) => assert After(cfg, w, e) == AfterLookup(w, id, fate);
    case DashboardLookup(id, fate) => assert After(cfg, w, e) == AfterDashboardLookup(w, id, fate);
    case DashboardQuery(id) => assert After(cfg, w, e) == AfterDashboardQuery(w, id);
    case Invalidate(c, fate) => assert After(cfg, w, e) == AfterInvalidate(w, c, fate);
    case _ =>
  }

  lemma StepKeepsPageCells(cfg: Config, w: World, e: Event, i: nat, until: nat)
    requires Enabled(w, e) && PagesAge(w, i, until)
    ensures var x := After(cfg, w, e); forall k :: k in x.store ==> PageAges(x.store[k], i, until)
  {
    hide PageFrom, ListKey, StatsFrom;
    if e.ListStore? {
      assert !OldPage(w, e.id, i);
      assert After(cfg, w, e) == AfterStore(cfg, w, e.id, e.fate);
    } else if e.DashboardStore? {
      assert After(cfg, w, e) == AfterDashboardStore(cfg, w, e.id, e.fate);
    } else {
      hide After;
      OldDocuments(cfg, w, e);
    }
  }

  lemma StepReadsNew(cfg: Config, w: World, e: Event, i: nat, id: nat)
    requires Enabled(w, e) && i <= w.Last() && !OldPage(w, id, i)
    ensures i <= After(cfg, w, e).Last() && !OldPage(After(cfg, w, e), id, i)
  {
    hide PageFrom, ListKey, StatsFrom;
    if !OfList(e) {
      OthersKeepLists(cfg, w, e);
      if OfDashboard(e) { DashboardStepFrame(cfg, w, e); } else { OtherStepFrame(w, e); }
    } else {
      ListStepFrame(cfg, w, e);
      match e
      case ListSeed(j, fate) => assert After(cfg, w, e) == AfterSeed(w, j, fate);
      case ListVersion(j, fate) => assert After(cfg, w, e) == AfterVersion(cfg, w, j, fate);
      case ListLookup(j, fate) => assert After(cfg, w, e) == AfterLookup(w, j, fate);
      case ListStore(j, fate) => assert After(cfg, w, e) == AfterStore(cfg, w, j, fate);
      case _ =>
    }
  }

  lemma StepKeepsPagesAge(cfg: Config, w: World, e: Event, i: nat, until: nat)
    requires Enabled(w, e) && PagesAge(w, i, until)
    ensures PagesAge(After(cfg, w, e), i, until)
  {
    StepKeepsPageCells(cfg, w, e, i, until);
    forall id ensures i <= After(cfg, w, e).Last() && !OldPage(After(cfg, w, e), id, i) {
      assert !OldPage(w, id, i);
      StepReadsNew(cfg, w, e, i, id);
    }
  }

  lemma {:induction false} RunKeepsPagesAge(cfg: Config, w: World, es: seq<Event>, i: nat, until: nat)
    requires ValidRun(cfg, w, es) && PagesAge(w, i, until)
    ensures PagesAge(End(cfg, w, es), i, until)
    decreases |es|
  {
    if es != [] {
      StepKeepsPagesAge(cfg, w, es[0], i, until);
      RunKeepsPagesAge(cfg, After(cfg, w, es[0]), es[1..], i, until);
    }
  }

  /** If the request has been answered, both its queries saw commit `i`. */
  predicate AnsweredWith(w: World, id: nat, i: nat) {
    id in w.lists && w.lists[id].answer.Some? ==>
      i <= w.lists[id].answer.value.countAt && i <= w.lists[id].answer.value.rowsAt
  }

  lemma StepAnswersNew(cfg: Config, w: World, e: Event, i: nat, until: nat, id: nat)
    requires Enabled(w, e) && PagesAge(w, i, until) && until <= w.now && AnsweredWith(w, id, i)
    ensures AnsweredWith(After(cfg, w, e), id, i) && until <= After(cfg, w, e).now
  {
    hide PageFrom, ListKey, StatsFrom;
    if !OfList(e) {
      OthersKeepLists(cfg, w, e);
    } else {
      match e
      case ListSeed(j, fate) => assert After(cfg, w, e) == AfterSeed(w, j, fate);
      case ListVersion(j, fate) => assert After(cfg, w, e) == AfterVersion(cfg, w, j, fate);
      case ListLookup(j, fate) => assert After(cfg, w, e) == AfterLookup(w, j, fate);
      case ListStore(j, fate) =>
        assert !OldPage(w, j, i);
        assert After(cfg, w, e) == AfterStore(cfg, w, j, fate);
      case _ =>
    }
    TimePasses(cfg, w, e);
  }

  lemma TimePasses(cfg: Config, w: World, e: Event)
    requires Enabled(w, e)
    ensures w.now <= After(cfg, w, e).now
  {
    hide PageFrom, ListKey, StatsFrom;
  }

  lemma {:induction false} RunAnswersNew(cfg: Config, w: World, es: seq<Event>, i: nat, until: nat, id: nat)
    requires ValidRun(cfg, w, es) && PagesAge(w, i, until) && until <= w.now && AnsweredWith(w, id, i)
    ensures AnsweredWith(End(cfg, w, es), id, i)
    decreases |es|
  {
    if es != [] {
      StepAnswersNew(cfg, w, es[0], i, until, id);
      StepKeepsPagesAge(cfg, w, es[0], i, until);
      RunAnswersNew(cfg, After(cfg, w, es[0]), es[1..], i, until, id);
    }
  }

  /** Every page stored by now expires within one time to live. */
  lemma PagesBeginToAge(cfg: Config, w: World, i: nat)
    requires Inv(cfg, w) && i <= w.Last() && !OldPageUnderWay(w, i)
    ensures PagesAge(w, i, w.now + cfg.listTtl)
  {
    hide PageFrom, ListKey, StatsFrom;
    forall k | k in w.store ensures PageAges(w.store[k], i, w.now + cfg.listTtl) {
      assert CellOk(cfg, w, k, w.store[k]);
    }
  }

  /** Bounded staleness, though every invalidation fail. Take a state with commit `i` in which no
      computation under way has read an older one. A request not answered until one time to live later
      is then answered, cached or not, a page counted and read in states that contain commit `i`. */
  lemma ListStalenessBounded(cfg: Config, w: World, early: seq<Event>, y: World, late: seq<Event>, x: World,
                             id: nat, i: nat)
    requires CollisionFree(cfg.hash) && Reachable(cfg, w) && i <= w.Last() && !OldPageUnderWay(w, i)
    requires ValidRun(cfg, w, early) && y == End(cfg, w, early) && w.now + cfg.listTtl <= y.now
    requires id in y.lists ==> y.lists[id].answer.None?
    requires ValidRun(cfg, y, late) && x == End(cfg, y, late) && id in x.lists && x.lists[id].answer.Some?
    ensures var r, a := x.lists[id], x.lists[id].answer.value;
      && i <= a.countAt < |x.history| && i <= a.rowsAt < |x.history| && r.filters.Valid()
      && a.page == PageFrom(cfg.fold, x.history[a.countAt], x.history[a.rowsAt], r.user, r.filters)
  {
    hide PageFrom;
    ReachableInv(cfg, w);
    PagesBeginToAge(cfg, w, i);
    RunKeepsPagesAge(cfg, w, early, i, w.now + cfg.listTtl);
    RunAnswersNew(cfg, y, late, i, w.now + cfg.listTtl, id);
    RunKeepsInv(cfg, w, early);
    AnswersAreOk(cfg, y, late, x, id);
  }

  /******* Dashboard statistics *******/

  predicate StatsAge(c: Cell<Entry>, i: nat, until: nat) {
    match c.value
    case Document(StatsEntry(_, o)) => !Misses(o.seen, i) || (c.expireAt.Some? && c.expireAt.value <= until)
    case _ => true
  }

  ghost predicate CountsAge(w: World, i: nat, until: nat) {
    i <= w.Last() && !OldFillUnderWay(w, i) && forall k :: k in w.store ==> StatsAge(w.store[k], i, until)
  }

  lemma StepKeepsStatsCells(cfg: Config, w: World, e: Event, i: nat, until: nat)
    requires Enabled(w, e) && CountsAge(w, i, until)
    ensures var x := After(cfg, w, e); forall k :: k in x.store ==> StatsAge(x.store[k], i, until)
  {
    hide PageFrom, ListKey, StatsFrom, Misses;
    if e.ListStore? {
      assert After(cfg, w, e) == AfterStore(cfg, w, e.id, e.fate);
    } else if e.DashboardStore? {
      assert !OldFill(w, e.id, i);
      assert After(cfg, w, e) == AfterDashboardStore(cfg, w, e.id, e.fate);
    } else {
      hide After;
      OldDocuments(cfg, w, e);
    }
  }

  lemma StepCountsNew(cfg: Config, w: World, e: Event, i: nat, id: nat)
    requires Inv(cfg, w) && Enabled(w, e) && i <= w.Last() && !OldFill(w, id, i)
    ensures i <= After(cfg, w, e).Last() && !OldFill(After(cfg, w, e), id, i)
  {
    hide PageFrom, ListKey, StatsFrom;
    if !OfDashboard(e) {
      OthersKeepDashboards(cfg, w, e);
    } else {
      DashboardStepFrame(cfg, w, e);
      assert e.DashboardStart? || DashboardOk(cfg, w, w.dashboards[e.id]);
      match e
      case DashboardStart(_) =>
      case DashboardLookup(j, fate) => assert After(cfg, w, e) == AfterDashboardLookup(w, j, fate);
      case DashboardQuery(j) => assert After(cfg, w, e) == AfterDashboardQuery(w, j);
      case DashboardStore(j, fate) => assert After(cfg, w, e) == AfterDashboardStore(cfg, w, j, fate);
    }
  }

  lemma StepKeepsCountsAge(cfg: Config, w: World, e: Event, i: nat, until: nat)
    requires Inv(cfg, w) && Enabled(w, e) && CountsAge(w, i, until)
    ensures CountsAge(After(cfg, w, e), i, until)
  {
    StepKeepsStatsCells(cfg, w, e, i, until);
    forall id ensures i <= After(cfg, w, e).Last() && !OldFill(After(cfg, w, e), id, i) {
      assert !OldFill(w, id, i);
      StepCountsNew(cfg, w, e, i, id);
    }
  }

  lemma {:induction false} RunKeepsCountsAge(cfg: Config, w: World, es: seq<Event>, i: nat, until: nat)
    requires CollisionFree(cfg.hash) && Inv(cfg, w) && ValidRun(cfg, w, es) && CountsAge(w, i, until)
    ensures CountsAge(End(cfg, w, es), i, until)
    decreases |es|
  {
    if es != [] {
      StepKeepsCountsAge(cfg, w, es[0], i, until);
      StepKeepsInv(cfg, w, es[0]);
      RunKeepsCountsAge(cfg, After(cfg, w, es[0]), es[1..], i, until);
    }
  }

  /** If the request has been answered, all four queries saw commit `i`. */
  ghost predicate ReportedWith(w: World, id: nat, i: nat) {
    id in w.dashboards && w.dashboards[id].answer.Some? ==> !Misses(w.dashboards[id].answer.value.seen, i)
  }

  lemma StepReportsNew(cfg: Config, w: World, e: Event, i: nat, until: nat, id: nat)
    requires Enabled(w, e) && CountsAge(w, i, until) && until <= w.now && ReportedWith(w, id, i)
    ensures ReportedWith(After(cfg, w, e), id, i) && until <= After(cfg, w, e).now
  {
    hide PageFrom, ListKey, StatsFrom, Misses;
    TimePasses(cfg, w, e);
    if !OfDashboard(e) {
      OthersKeepDashboards(cfg, w, e);
    } else {
      match e
      case DashboardStart(_) =>
      case DashboardLookup(j, fate) => assert After(cfg, w, e) == AfterDashboardLookup(w, j, fate);
      case DashboardQuery(j) => assert After(cfg, w, e) == AfterDashboardQuery(w, j);
      case DashboardStore(j, fate) =>
        assert !OldFill(w, j, i);
        assert After(cfg, w, e) == AfterDashboardStore(cfg, w, j, fate);
    }
  }

  lemma {:induction false} RunReportsNew(cfg: Config, w: World, es: seq<Event>, i: nat, until: nat, id: nat)
    requires CollisionFree(cfg.hash) && Inv(cfg, w) && ValidRun(cfg, w, es)
    requires CountsAge(w, i, until) && until <= w.now && ReportedWith(w, id, i)
    ensures ReportedWith(End(cfg, w, es), id, i)
    decreases |es|
  {
    if es != [] {
      StepReportsNew(cfg, w, es[0], i, until, id);
      StepKeepsCountsAge(cfg, w, es[0], i, until);
      StepKeepsInv(cfg, w, es[0]);
      RunReportsNew(cfg, After(cfg, w, es[0]), es[1..], i, until, id);
    }
  }

  lemma CountsBeginToAge(cfg: Config, w: World, i: nat)
    requires Inv(cfg, w) && i <= w.Last() && !OldFillUnderWay(w, i)
    ensures CountsAge(w, i, w.now + cfg.statsTtl)
  {
    hide PageFrom, ListKey, StatsFrom;
    forall k | k in w.store ensures StatsAge(w.store[k], i, w.now + cfg.statsTtl) {
      assert CellOk(cfg, w, k, w.store[k]);
    }
  }

  /** The same for the dashboard. Its fixed key has no stronger guarantee that needs no knowledge of
      the store: see DashboardFreshExactly. */
  lemma DashboardStalenessBounded(cfg: Config, w: World, early: seq<Event>, y: World, late: seq<Event>, x: World,
                                  id: nat, i: nat)
    requires CollisionFree(cfg.hash) && Reachable(cfg, w) && i <= w.Last() && !OldFillUnderWay(w, i)
    requires ValidRun(cfg, w, early) && y == End(cfg, w, early) && w.now + cfg.statsTtl <= y.now
    requires id in y.dashboards ==> y.dashboards[id].answer.None?
    requires ValidRun(cfg, y, late) && x == End(cfg, y, late) && id in x.dashboards && x.dashboards[id].answer.Some?
    ensures var a := x.dashboards[id].answer.value;
      Snapshots(x, a.seen) && (forall k :: 0 <= k < 4 ==> i <= a.seen[k]) && a.stats == StatsSeen(x, a.seen)
  {
    hide StatsFrom;
    ReachableInv(cfg, w);
    CountsBeginToAge(cfg, w, i);
    RunKeepsInv(cfg, w, early);
    RunKeepsCountsAge(cfg, w, early, i, w.now + cfg.statsTtl);
    RunReportsNew(cfg, y, late, i, w.now + cfg.statsTtl, id);
    RunKeepsInv(cfg, y, late);
    assert DashboardOk(cfg, x, x.dashboards[id]);
  }

  /******* Every cached answer was computed by some request *******/

  /** Request `j` computed this page itself, from these states, at `storedAt`. */
  predicate Computes(w: World, j: nat, page: TicketPage, o: PageOrigin) {
    && j in w.lists && w.lists[j].user == o.user && w.lists[j].filters == o.filters && w.lists[j].begun == o.begun
    && w.lists[j].answer == Some(ListAnswer(page, o.countAt, o.rowsAt, o.begun, None, o.storedAt))
  }

  ghost predicate PageSourced(w: World, page: TicketPage, o: PageOrigin) {
    exists j :: Computes(w, j, page, o)
  }

  /** Request `j` computed these statistics itself, from these states, at `storedAt`. */
  predicate Reports(w: World, j: nat, stats: Stats, o: StatsOrigin) {
    && j in w.dashboards && w.dashboards[j].begun == o.begun
    && w.dashboards[j].answer == Some(StatsAnswer(stats, o.seen, o.begun, None, o.storedAt))
  }

  ghost predicate StatsSourced(w: World, stats: Stats, o: StatsOrigin) {
    exists j :: Reports(w, j, stats, o)
  }

  ghost predicate CellSourced(w: World, c: Cell<Entry>) {
    match c.value
    case Number(_) => true
    case Document(PageEntry(page, o)) => PageSourced(w, page, o)
    case Document(StatsEntry(stats, o)) => StatsSourced(w, stats, o)
  }

  /** The answer of request `id` came from the cache, where request `j` had put it less than one time
      to live before; or it is the request's own. */
  predicate TakenFrom(cfg: Config, w: World, id: nat, j: nat)
    requires id in w.lists && w.lists[id].answer.Some?
  {
    var a := w.lists[id].answer.value;
    && j in w.lists && w.lists[j].answer.Some?
    && var b := w.lists[j].answer.value;
       && b.storedAt.None? && b.page == a.page && b.countAt == a.countAt && b.rowsAt == a.rowsAt
       && b.begun == w.lists[j].begun
       && (if a.storedAt.None? then j == id else b.readAt <= a.readAt < b.readAt + cfg.listTtl)
  }

  ghost predicate AnswerSourced(cfg: Config, w: World, id: nat) {
    id in w.lists && w.lists[id].answer.Some? ==> exists j :: TakenFrom(cfg, w, id, j)
  }

  /** The same for statistics. */
  predicate CountsTakenFrom(cfg: Config, w: World, id: nat, j: nat)
    requires id in w.dashboards && w.dashboards[id].answer.Some?
  {
    var a := w.dashboards[id].answer.value;
    && j in w.dashboards && w.dashboards[j].answer.Some?
    && var b := w.dashboards[j].answer.value;
       && b.storedAt.None? && b.stats == a.stats && b.seen == a.seen && b.begun == w.dashboards[j].begun
       && (if a.storedAt.None? then j == id else b.readAt <= a.readAt < b.readAt + cfg.statsTtl)
  }

  ghost predicate ReportSourced(cfg: Config, w: World, id: nat) {
    id in w.dashboards && w.dashboards[id].answer.Some? ==> exists j :: CountsTakenFrom(cfg, w, id, j)
  }

  ghost predicate Sourced(cfg: Config, w: World) {
    && (forall k :: k in w.store ==> CellSourced(w, w.store[k]))
    && (forall id :: AnswerSourced(cfg, w, id))
    && (forall id :: ReportSourced(cfg, w, id))
  }

  /** A list step moves its own request only. */
  lemma OtherAnswersStay(cfg: Config, w: World, e: Event, id: nat)
    requires Enabled(w, e) && !(OfList(e) && id == e.id)
    ensures var x := After(cfg, w, e);
      (id in x.lists <==> id in w.lists) && (id in w.lists ==> x.lists[id] == w.lists[id])
  {
    hide PageFrom, ListKey, StatsFrom;
    if !OfList(e) {
      OthersKeepLists(cfg, w, e);
    } else {
      match e
      case ListSeed(j, fate) => assert After(cfg, w, e) == AfterSeed(w, j, fate);
      case ListVersion(j, fate) => assert After(cfg, w, e) == AfterVersion(cfg, w, j, fate);
      case ListLookup(j, fate) => assert After(cfg, w, e) == AfterLookup(w, j, fate);
      case ListStore(j, fate) => assert After(cfg, w, e) == AfterStore(cfg, w, j, fate);
      case _ =>
    }
  }

  /** A request that has been answered never changes again. */
  lemma AnsweredStays(cfg: Config, w: World, e: Event, j: nat)
    requires Inv(cfg, w) && Enabled(w, e) && j in w.lists && w.lists[j].answer.Some?
    ensures j in After(cfg, w, e).lists && After(cfg, w, e).lists[j] == w.lists[j]
  {
    hide PageFrom, ListKey, StatsFrom, AnswerOk, After;
    assert ListOk(cfg, w, w.lists[j]);
    OtherAnswersStay(cfg, w, e, j);
  }

  lemma OtherReportsStay(cfg: Config, w: World, e: Event, id: nat)
    requires Enabled(w, e) && !(OfDashboard(e) && id == e.id)
    ensures var x := After(cfg, w, e);
      (id in x.dashboards <==> id in w.dashboards) && (id in w.dashboards ==> x.dashboards[id] == w.dashboards[id])
  {
    hide PageFrom, ListKey, StatsFrom;
    if OfDashboard(e) { DashboardStepFrame(cfg, w, e); } else { OthersKeepDashboards(cfg, w, e); }
  }

  lemma ReportedStays(cfg: Config, w: World, e: Event, j: nat)
    requires Inv(cfg, w) && Enabled(w, e) && j in w.dashboards && w.dashboards[j].answer.Some?
    ensures j in After(cfg, w, e).dashboards && After(cfg, w, e).dashboards[j] == w.dashboards[j]
  {
    hide PageFrom, ListKey, StatsFrom, StatsAnswerOk, After;
    assert DashboardOk(cfg, w, w.dashboards[j]);
    OtherReportsStay(cfg, w, e, j);
  }

  lemma SourceStays(cfg: Config, w: World, e: Event, page: TicketPage, o: PageOrigin)
    requires Inv(cfg, w) && Enabled(w, e) && PageSourced(w, page, o)
    ensures PageSourced(After(cfg, w, e), page, o)
  {
    var j :| Computes(w, j, page, o);
    AnsweredStays(cfg, w, e, j);
    assert Computes(After(cfg, w, e), j, page, o);
  }

  lemma StatsSourceStays(cfg: Config, w: World, e: Event, stats: Stats, o: StatsOrigin)
    requires Inv(cfg, w) && Enabled(w, e) && StatsSourced(w, stats, o)
    ensures StatsSourced(After(cfg, w, e), stats, o)
  {
    var j :| Reports(w, j, stats, o);
    ReportedStays(cfg, w, e, j);
    assert Reports(After(cfg, w, e), j, stats, o);
  }

  /** The document a step stores, if any, is what its request has just computed. */
  lemma NewPage(cfg: Config, w: World, e: Event, k: string)
    requires Enabled(w, e) && e.ListStore?
    requires k in After(cfg, w, e).store && !(k in w.store && After(cfg, w, e).store[k] == w.store[k])
    ensures var x := After(cfg, w, e);
      && x.store[k].value.Document? && x.store[k].value.doc.PageEntry?
      && Computes(x, e.id, x.store[k].value.doc.page, x.store[k].value.doc.of)
  {
    hide PageFrom, ListKey;
    assert After(cfg, w, e) == AfterStore(cfg, w, e.id, e.fate);
  }

  lemma NewStats(cfg: Config, w: World, e: Event, k: string)
    requires Enabled(w, e) && e.DashboardStore?
    requires k in After(cfg, w, e).store && !(k in w.store && After(cfg, w, e).store[k] == w.store[k])
    ensures var x := After(cfg, w, e);
      && x.store[k].value.Document? && x.store[k].value.doc.StatsEntry?
      && Reports(x, e.id, x.store[k].value.doc.stats, x.store[k].value.doc.from)
  {
    hide StatsFrom;
    assert After(cfg, w, e) == AfterDashboardStore(cfg, w, e.id, e.fate);
  }

  lemma CellStaysSourced(cfg: Config, w: World, e: Event, k: string)
    requires Inv(cfg, w) && Enabled(w, e) && Sourced(cfg, w) && k in After(cfg, w, e).store
    ensures CellSourced(After(cfg, w, e), After(cfg, w, e).store[k])
  {
    hide PageFrom, ListKey, StatsFrom, Inv;
    var x := After(cfg, w, e);
    if k in w.store && x.store[k] == w.store[k] {
      assert CellSourced(w, w.store[k]);
      match x.store[k].value
      case Number(_) =>
      case Document(PageEntry(page, o)) => SourceStays(cfg, w, e, page, o);
      case Document(StatsEntry(stats, o)) => StatsSourceStays(cfg, w, e, stats, o);
    } else if e.ListStore? {
      NewPage(cfg, w, e, k);
    } else if e.DashboardStore? {
      NewStats(cfg, w, e, k);
    } else {
      OldDocuments(cfg, w, e);
    }
  }

  lemma NoAnswerYet(cfg: Config, w: World, e: Event)
    requires Inv(cfg, w) && Enabled(w, e) && OfList(e) && !e.ListLookup? && !e.ListStore?
    ensures e.id in After(cfg, w, e).lists && After(cfg, w, e).lists[e.id].answer.None?
  {
    hide PageFrom, ListKey, AnswerOk;
    assert e.ListStart? || ListOk(cfg, w, w.lists[e.id]);
    match e
    case ListSeed(j, fate) => assert After(cfg, w, e) == AfterSeed(w, j, fate);
    case ListVersion(j, fate) => assert After(cfg, w, e) == AfterVersion(cfg, w, j, fate);
    case _ =>
  }

  /** An answer given just now was computed just now or found in the store. */
  lemma NewAnswer(cfg: Config, w: World, e: Event)
    requires Inv(cfg, w) && Enabled(w, e) && Sourced(cfg, w) && OfList(e)
    ensures AnswerSourced(cfg, After(cfg, w, e), e.id)
  {
    hide PageFrom, ListKey, StatsFrom, Inv, Sourced;
    if e.ListLookup? {
      HitIsTaken(cfg, w, e);
    } else if e.ListStore? {
      assert After(cfg, w, e) == AfterStore(cfg, w, e.id, e.fate);
      assert TakenFrom(cfg, After(cfg, w, e), e.id, e.id);
    } else {
      NoAnswerYet(cfg, w, e);
    }
  }

  lemma HitIsTaken(cfg: Config, w: World, e: Event)
    requires Inv(cfg, w) && Enabled(w, e) && Sourced(cfg, w) && e.ListLookup?
    ensures AnswerSourced(cfg, After(cfg, w, e), e.id)
  {
    hide PageFrom, ListKey, StatsFrom, AnswerOk;
    var x := After(cfg, w, e);
    var r := w.lists[e.id];
    assert x == AfterLookup(w, e.id, e.fate) && ListOk(cfg, w, r);
    match CachedPage(w.store, r.key.value.text, w.now)
    case Some(PageEntry(page, o)) =>
      if e.fate.Answered? {
        var c := w.store[r.key.value.text];
        assert CellSourced(w, c) && CellOk(cfg, w, r.key.value.text, c);
        var j :| Computes(w, j, page, o);
        AnsweredStays(cfg, w, e, j);
        assert TakenFrom(cfg, x, e.id, j);
      }
    case _ =>
  }

  lemma AnswerStaysSourced(cfg: Config, w: World, e: Event, id: nat)
    requires Inv(cfg, w) && Enabled(w, e) && Sourced(cfg, w)
    ensures AnswerSourced(cfg, After(cfg, w, e), id)
  {
    hide PageFrom, ListKey, StatsFrom, Inv, After;
    var x := After(cfg, w, e);
    if OfList(e) && id == e.id {
      NewAnswer(cfg, w, e);
    } else if id in x.lists && x.lists[id].answer.Some? {
      OtherAnswersStay(cfg, w, e, id);
      assert AnswerSourced(cfg, w, id);
      var j :| TakenFrom(cfg, w, id, j);
      AnsweredStays(cfg, w, e, j);
      assert TakenFrom(cfg, x, id, j);
    }
  }

  lemma CountsAreTaken(cfg: Config, w: World, e: Event)
    requires Inv(cfg, w) && Enabled(w, e) && Sourced(cfg, w) && e.DashboardLookup?
    ensures ReportSourced(cfg, After(cfg, w, e), e.id)
  {
    hide PageFrom, ListKey, StatsFrom, StatsAnswerOk;
    var x := After(cfg, w, e);
    assert x == AfterDashboardLookup(w, e.id, e.fate) && DashboardOk(cfg, w, w.dashboards[e.id]);
    match CachedStats(w.store, w.now)
    case Some(StatsEntry(stats, o)) =>
      if e.fate.Answered? {
        var c := w.store[DashboardKey];
        assert CellSourced(w, c) && CellOk(cfg, w, DashboardKey, c);
        var j :| Reports(w, j, stats, o);
        ReportedStays(cfg, w, e, j);
        assert CountsTakenFrom(cfg, x, e.id, j);
      }
    case _ =>
  }

  lemma NewReport(cfg: Config, w: World, e: Event)
    requires Inv(cfg, w) && Enabled(w, e) && Sourced(cfg, w) && OfDashboard(e)
    ensures ReportSourced(cfg, After(cfg, w, e), e.id)
  {
    hide PageFrom, ListKey, StatsFrom;
    var x := After(cfg, w, e);
    match e
    case DashboardStart(_) =>
    case DashboardLookup(_, _) => CountsAreTaken(cfg, w, e);
    case DashboardQuery(j) => assert x == AfterDashboardQuery(w, j) && DashboardOk(cfg, w, w.dashboards[j]);
    case DashboardStore(j, fate) =>
      assert x == AfterDashboardStore(cfg, w, j, fate);
      assert CountsTakenFrom(cfg, x, j, j);
  }

  lemma ReportStaysSourced(cfg: Config, w: World, e: Event, id: nat)
    requires Inv(cfg, w) && Enabled(w, e) && Sourced(cfg, w)
    ensures ReportSourced(cfg, After(cfg, w, e), id)
  {
    hide PageFrom, ListKey, StatsFrom, Inv, After;
    var x := After(cfg, w, e);
    if OfDashboard(e) && id == e.id {
      NewReport(cfg, w, e);
    } else if id in x.dashboards && x.dashboards[id].answer.Some? {
      OtherReportsStay(cfg, w, e, id);
      assert ReportSourced(cfg, w, id);
      var j :| CountsTakenFrom(cfg, w, id, j);
      ReportedStays(cfg, w, e, j);
      assert CountsTakenFrom(cfg, x, id, j);
    }
  }

  lemma StepKeepsSources(cfg: Config, w: World, e: Event)
    requires Inv(cfg, w) && Enabled(w, e) && Sourced(cfg, w)
    ensures Sourced(cfg, After(cfg, w, e))
  {
    hide PageFrom, ListKey, StatsFrom, Inv, After;
    var x := After(cfg, w, e);
    forall k | k in x.store ensures CellSourced(x, x.store[k]) { CellStaysSourced(cfg, w, e, k); }
    forall id ensures AnswerSourced(cfg, x, id) { AnswerStaysSourced(cfg, w, e, id); }
    forall id ensures ReportSourced(cfg, x, id) { ReportStaysSourced(cfg, w, e, id); }
  }

  lemma {:induction false} RunKeepsSources(cfg: Config, w: World, es: seq<Event>)
    requires CollisionFree(cfg.hash) && Inv(cfg, w) && ValidRun(cfg, w, es) && Sourced(cfg, w)
    ensures Sourced(cfg, End(cfg, w, es))
    decreases |es|
  {
    if es != [] {
      StepKeepsSources(cfg, w, es[0]);
      StepKeepsInv(cfg, w, es[0]);
      RunKeepsSources(cfg, After(cfg, w, es[0]), es[1..]);
    }
  }

  lemma ReachableSources(cfg: Config, x: World)
    requires CollisionFree(cfg.hash) && Reachable(cfg, x)
    ensures Inv(cfg, x) && Sourced(cfg, x)
  {
    hide PageFrom, ListKey, StatsFrom;
    var db, es :| ValidRun(cfg, Start(db), es) && x == End(cfg, Start(db), es);
    ReachableInv(cfg, x);
    assert Inv(cfg, Start(db)) && Sourced(cfg, Start(db));
    RunKeepsSources(cfg, Start(db), es);
  }

  /** Request `j` began with the state that it recorded then, and read no older one. */
  ghost predicate ReadSinceBegun(w: World, j: nat)
    requires j in w.lists && w.lists[j].answer.Some?
  {
    w.lists[j].begun <= w.lists[j].answer.value.countAt && w.lists[j].begun <= w.lists[j].answer.value.rowsAt
  }

  /** Every page answered, cached or not, is the one that some request computed for itself, from states
      no older than its beginning; a cached one less than one time to live before it was read. */
  lemma EveryPageIsComputed(cfg: Config, x: World, id: nat) returns (j: nat)
    requires CollisionFree(cfg.hash) && Reachable(cfg, x) && id in x.lists && x.lists[id].answer.Some?
    ensures TakenFrom(cfg, x, id, j) && ReadSinceBegun(x, j)
  {
    hide PageFrom, ListKey, StatsFrom;
    ReachableSources(cfg, x);
    assert AnswerSourced(cfg, x, id);
    j :| TakenFrom(cfg, x, id, j);
    assert ListOk(cfg, x, x.lists[j]);
  }

  /** And so are all statistics. */
  lemma AllCountsAreComputed(cfg: Config, x: World, id: nat) returns (j: nat)
    requires CollisionFree(cfg.hash) && Reachable(cfg, x) && id in x.dashboards && x.dashboards[id].answer.Some?
    ensures CountsTakenFrom(cfg, x, id, j)
    ensures forall k :: 0 <= k < |x.dashboards[j].answer.value.seen| ==>
      x.dashboards[j].begun <= x.dashboards[j].answer.value.seen[k]
  {
    hide PageFrom, ListKey, StatsFrom;
    ReachableSources(cfg, x);
    assert ReportSourced(cfg, x, id);
    j :| CountsTakenFrom(cfg, x, id, j);
    assert DashboardOk(cfg, x, x.dashboards[j]);
  }

  /** What `begun` means: at the request's first step it was the newest commit, and it stays that. */
  lemma ListBeginsWithNewest(cfg: Config, w: World, e: Event, id: nat)
    requires Enabled(w, e) && id in After(cfg, w, e).lists
    ensures After(cfg, w, e).lists[id].begun == if id in w.lists then w.lists[id].begun else w.Last()
  {
    hide PageFrom, ListKey, StatsFrom;
    if OfList(e) && id == e.id {
      match e
      case ListSeed(j, fate) => assert After(cfg, w, e) == AfterSeed(w, j, fate);
      case ListVersion(j, fate) => assert After(cfg, w, e) == AfterVersion(cfg, w, j, fate);
      case ListLookup(j, fate) => assert After(cfg, w, e) == AfterLookup(w, j, fate);
      case ListStore(j, fate) => assert After(cfg, w, e) == AfterStore(cfg, w, j, fate);
      case _ =>
    } else {
      OtherAnswersStay(cfg, w, e, id);
    }
  }

  lemma DashboardBeginsWithNewest(cfg: Config, w: World, e: Event, id: nat)
    requires Enabled(w, e) && id in After(cfg, w, e).dashboards
    ensures After(cfg, w, e).dashboards[id].begun == if id in w.dashboards then w.dashboards[id].begun else w.Last()
  {
    hide PageFrom, ListKey, StatsFrom;
    if OfDashboard(e) && id == e.id {
      match e
      case DashboardStart(_) =>
      case DashboardLookup(j, fate) => assert After(cfg, w, e) == AfterDashboardLookup(w, j, fate);
      case DashboardQuery(j) => assert After(cfg, w, e) == AfterDashboardQuery(w, j);
      case DashboardStore(j, fate) => assert After(cfg, w, e) == AfterDashboardStore(cfg, w, j, fate);
    } else {
      OtherReportsStay(cfg, w, e, id);
    }
  }
}
