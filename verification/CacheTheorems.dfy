/** What the caches promise over every run. */
module CacheTheorems {
  import opened Domain
  import opened TicketQuery
  import opened CacheKey
  import opened RedisModel
  import opened DashboardStats
  import opened CacheService
  import opened CacheProtocol

  lemma {:induction false} RunKeepsInv(cfg: Config, w: World, es: seq<Event>)
    requires CollisionFree(cfg.hash) && Inv(cfg, w) && ValidRun(cfg, w, es)
    ensures Inv(cfg, End(cfg, w, es))
    decreases |es|
  {
    if es != [] {
      StepKeepsInv(cfg, w, es[0]);
      RunKeepsInv(cfg, After(cfg, w, es[0]), es[1..]);
    }
  }

  ghost predicate Reachable(cfg: Config, w: World) {
    exists db, es :: ValidRun(cfg, Start(db), es) && w == End(cfg, Start(db), es)
  }

  lemma ReachableInv(cfg: Config, w: World)
    requires CollisionFree(cfg.hash) && Reachable(cfg, w)
    ensures Inv(cfg, w)
  {
    var db, es :| ValidRun(cfg, Start(db), es) && w == End(cfg, Start(db), es);
    assert Inv(cfg, Start(db));
    RunKeepsInv(cfg, Start(db), es);
  }

  /******* Ticket lists *******/

  /** The request has not read the version yet. */
  predicate ToResolve(w: World, id: nat) {
    id in w.lists ==> w.lists[id].pc.Seeding? || w.lists[id].pc.Versioning?
  }

  predicate Due(w: World, id: nat, i: nat) {
    i in w.invalidated && (ToResolve(w, id) || i in w.lists[id].due)
  }

  lemma OthersKeepLists(cfg: Config, w: World, e: Event)
    requires Enabled(w, e) && !OfList(e)
    ensures After(cfg, w, e).lists == w.lists && w.invalidated <= After(cfg, w, e).invalidated
  {
    if OfDashboard(e) { DashboardStepFrame(cfg, w, e); } else { OtherStepFrame(w, e); }
  }

  lemma DashboardStepFrame(cfg: Config, w: World, e: Event)
    requires Enabled(w, e) && OfDashboard(e)
    ensures var x := AfterOfDashboard(cfg, w, e);
      && x.lists == w.lists && x.invalidated == w.invalidated && x.history == w.history
      && e.id in x.dashboards && x.dashboards == w.dashboards[e.id := x.dashboards[e.id]]
  {
    hide StatsFrom;
    match e
    case DashboardStart(_) =>
    case DashboardLookup(id, fate) => assert AfterOfDashboard(cfg, w, e) == AfterDashboardLookup(w, id, fate);
    case DashboardQuery(id) => assert AfterOfDashboard(cfg, w, e) == AfterDashboardQuery(w, id);
    case DashboardStore(id, fate) => assert AfterOfDashboard(cfg, w, e) == AfterDashboardStore(cfg, w, id, fate);
  }

  lemma OtherStepFrame(w: World, e: Event)
    requires Enabled(w, e) && !OfList(e) && !OfDashboard(e)
    ensures var x := AfterOther(w, e);
      x.lists == w.lists && x.dashboards == w.dashboards && w.invalidated <= x.invalidated && w.history <= x.history
  {
  }

  lemma ListStepFrame(cfg: Config, w: World, e: Event)
    requires Enabled(w, e) && OfList(e)
    ensures var x := AfterOfList(cfg, w, e);
      x.dashboards == w.dashboards && x.invalidated == w.invalidated && x.history == w.history
  {
    hide PageFrom, ListKey;
    match e
    case ListSeed(j, fate) => assert AfterOfList(cfg, w, e) == AfterSeed(w, j, fate);
    case ListVersion(j, fate) => assert AfterOfList(cfg, w, e) == AfterVersion(cfg, w, j, fate);
    case ListLookup(j, fate) => assert AfterOfList(cfg, w, e) == AfterLookup(w, j, fate);
    case ListStore(j, fate) => assert AfterOfList(cfg, w, e) == AfterStore(cfg, w, j, fate);
    case _ =>
  }

  /** A request's due commits are settled when it reads the version... */
  lemma ResolvingStep(cfg: Config, w: World, e: Event, id: nat, i: nat)
    requires Enabled(w, e) && (e.ListStart? || e.ListSeed? || e.ListVersion?) && Due(w, id, i)
    ensures Due(After(cfg, w, e), id, i)
  {
    hide PageFrom, ListKey;
    match e
    case ListStart(j, _, _) =>
    case ListSeed(j, fate) => assert After(cfg, w, e) == AfterSeed(w, j, fate);
    case ListVersion(j, fate) => assert After(cfg, w, e) == AfterVersion(cfg, w, j, fate);
  }

  /** ... and stay the same afterwards. */
  lemma ResolvedStep(cfg: Config, w: World, e: Event)
    requires Enabled(w, e) && (e.ListLookup? || e.ListCount? || e.ListFetch? || e.ListStore?)
    ensures var x := After(cfg, w, e);
      && x.invalidated == w.invalidated && e.id in x.lists && x.lists == w.lists[e.id := x.lists[e.id]]
      && x.lists[e.id].due == w.lists[e.id].due
  {
    hide PageFrom, ListKey;
    match e
    case ListLookup(j, fate) => assert After(cfg, w, e) == AfterLookup(w, j, fate);
    case ListCount(j) =>
    case ListFetch(j) =>
    case ListStore(j, fate) => assert After(cfg, w, e) == AfterStore(cfg, w, j, fate);
  }

  lemma StepKeepsDue(cfg: Config, w: World, e: Event, id: nat, i: nat)
    requires Enabled(w, e) && Due(w, id, i)
    ensures Due(After(cfg, w, e), id, i)
  {
    if e.ListStart? || e.ListSeed? || e.ListVersion? {
      ResolvingStep(cfg, w, e, id, i);
    } else if OfList(e) {
      ResolvedStep(cfg, w, e);
    } else {
      OthersKeepLists(cfg, w, e);
    }
  }

  lemma {:induction false} RunKeepsDue(cfg: Config, w: World, es: seq<Event>, id: nat, i: nat)
    requires CollisionFree(cfg.hash) && Inv(cfg, w) && ValidRun(cfg, w, es) && Due(w, id, i)
    ensures Due(End(cfg, w, es), id, i)
    decreases |es|
  {
    if es != [] {
      StepKeepsDue(cfg, w, es[0], id, i);
      StepKeepsInv(cfg, w, es[0]);
      RunKeepsDue(cfg, After(cfg, w, es[0]), es[1..], id, i);
    }
  }

  /** List freshness. Whatever runs in between and whichever Redis calls fail: when a request reads
      the list version after the invalidation of commit `i` ran, the page it answers, cached or not,
      was counted and read in states that contain commit `i`, and is the page of just those states. */
  lemma ListFreshness(cfg: Config, w: World, es: seq<Event>, x: World, id: nat, i: nat)
    requires CollisionFree(cfg.hash) && Reachable(cfg, w) && ValidRun(cfg, w, es) && x == End(cfg, w, es)
    requires i in w.invalidated && ToResolve(w, id)
    requires id in x.lists && x.lists[id].answer.Some?
    ensures var r, a := x.lists[id], x.lists[id].answer.value;
      && i <= a.countAt < |x.history| && i <= a.rowsAt < |x.history| && r.filters.Valid()
      && a.page == PageFrom(cfg.fold, x.history[a.countAt], x.history[a.rowsAt], r.user, r.filters)
  {
    ReachableInv(cfg, w);
    RunKeepsDue(cfg, w, es, id, i);
    RunKeepsInv(cfg, w, es);
    assert ListOk(cfg, x, x.lists[id]);
  }

  /** The newest commit's invalidation has run; those of earlier commits may have failed. */
  predicate NewestInvalidated(w: World) {
    w.Last() > 0 ==> w.Last() in w.invalidated
  }

  lemma {:induction false} WithoutCommits(cfg: Config, w: World, es: seq<Event>)
    requires ValidRun(cfg, w, es) && forall k :: 0 <= k < |es| ==> !es[k].Commit?
    ensures End(cfg, w, es).history == w.history
    decreases |es|
  {
    if es != [] { WithoutCommits(cfg, After(cfg, w, es[0]), es[1..]); }
  }

  /** Quiescence. Once the newest commit has been invalidated, whatever became of earlier invalidations,
      and while nothing new commits, a request that starts now answers exactly the page of the current
      database, even if slow readers of earlier versions are still storing theirs. */
  lemma QuiescentListIsCurrent(cfg: Config, w: World, es: seq<Event>, x: World, id: nat)
    requires CollisionFree(cfg.hash) && Reachable(cfg, w) && ValidRun(cfg, w, es) && x == End(cfg, w, es)
    requires NewestInvalidated(w) && ToResolve(w, id) && forall k :: 0 <= k < |es| ==> !es[k].Commit?
    requires id in x.lists && x.lists[id].answer.Some?
    ensures var r := x.lists[id];
      && |w.history| > 0 && r.filters.Valid()
      && r.answer.value.page == PageFrom(cfg.fold, w.history[w.Last()], w.history[w.Last()], r.user, r.filters)
  {
    QuiescentSeesLast(cfg, w, es, x, id);
  }

  lemma QuiescentSeesLast(cfg: Config, w: World, es: seq<Event>, x: World, id: nat)
    requires CollisionFree(cfg.hash) && Reachable(cfg, w) && ValidRun(cfg, w, es) && x == End(cfg, w, es)
    requires NewestInvalidated(w) && ToResolve(w, id) && forall k :: 0 <= k < |es| ==> !es[k].Commit?
    requires id in x.lists && x.lists[id].answer.Some?
    ensures |w.history| > 0 && x.history == w.history
    ensures AnswerOk(cfg, x, x.lists[id], x.lists[id].answer.value)
    ensures x.lists[id].answer.value.countAt == w.Last() && x.lists[id].answer.value.rowsAt == w.Last()
  {
    ReachableInv(cfg, w);
    WithoutCommits(cfg, w, es);
    AnswersAreOk(cfg, w, es, x, id);
    if w.Last() > 0 {
      ListFreshness(cfg, w, es, x, id, w.Last());
    }
  }

  lemma AnswersAreOk(cfg: Config, w: World, es: seq<Event>, x: World, id: nat)
    requires CollisionFree(cfg.hash) && Inv(cfg, w) && ValidRun(cfg, w, es) && x == End(cfg, w, es)
    requires id in x.lists && x.lists[id].answer.Some?
    ensures AnswerOk(cfg, x, x.lists[id], x.lists[id].answer.value)
  {
    RunKeepsInv(cfg, w, es);
    assert ListOk(cfg, x, x.lists[id]);
  }

  /******* Dashboard statistics *******/

  predicate Misses(seen: seq<nat>, i: nat) {
    exists k :: 0 <= k < |seen| && seen[k] < i
  }

  /** A computation under way has already read a state without commit `i`. */
  ghost predicate OldFillUnderWay(w: World, i: nat) {
    exists id :: OldFill(w, id, i)
  }

  ghost predicate OldFill(w: World, id: nat, i: nat) {
    id in w.dashboards && (w.dashboards[id].pc.Querying? || w.dashboards[id].pc.Saving?)
        && Misses(w.dashboards[id].seen, i)
  }

  predicate OldEntryCached(w: World, i: nat) {
    var e := CachedStats(w.store, w.now);
    e.Some? && Misses(e.value.from.seen, i)
  }

  /** A request not yet seen answers, at the end of the run, statistics without commit `i`. */
  ghost predicate ServesOld(cfg: Config, w: World, es: seq<Event>, id: nat, i: nat) {
    && ValidRun(cfg, w, es) && id !in w.dashboards && id in End(cfg, w, es).dashboards
    && var r := End(cfg, w, es).dashboards[id]; r.answer.Some? && Misses(r.answer.value.seen, i)
  }

  ghost predicate Safe(w: World, id: nat, i: nat) {
    && i <= w.Last() && !OldFillUnderWay(w, i) && !OldEntryCached(w, i)
    && (id in w.dashboards ==>
          !Misses(w.dashboards[id].seen, i) && (w.dashboards[id].answer.Some? ==>
              !Misses(w.dashboards[id].answer.value.seen, i)))
  }

  lemma OthersKeepDashboards(cfg: Config, w: World, e: Event)
    requires Enabled(w, e) && !OfDashboard(e)
    ensures After(cfg, w, e).dashboards == w.dashboards && w.Last() <= After(cfg, w, e).Last()
  {
    if OfList(e) { ListStepFrame(cfg, w, e); } else { OtherStepFrame(w, e); }
  }

  /** What a request has read so far and what it answers stem from the entry, or from the newest
      state. */
  lemma DashboardStepSees(cfg: Config, w: World, e: Event)
    requires Enabled(w, e) && OfDashboard(e)
    requires !e.DashboardStart? && !e.DashboardStore? ==> w.dashboards[e.id].answer.None?
    ensures e.id in AfterOfDashboard(cfg, w, e).dashboards
    ensures var r := AfterOfDashboard(cfg, w, e).dashboards[e.id];
      && r.seen == (if e.DashboardStart? then [] else w.dashboards[e.id].seen)
          + (if e.DashboardQuery? then [w.Last()] else [])
      && (r.answer.Some? ==>
            || (e.DashboardLookup? && CachedStats(w.store, w.now).Some?
                && r.answer.value.seen == CachedStats(w.store, w.now).value.from.seen)
            || (e.DashboardStore? && r.answer.value.seen == r.seen))
  {
    match e
    case DashboardStart(_) =>
    case DashboardLookup(id, fate) => assert AfterOfDashboard(cfg, w, e) == AfterDashboardLookup(w, id, fate);
    case DashboardQuery(id) => assert AfterOfDashboard(cfg, w, e) == AfterDashboardQuery(w, id);
    case DashboardStore(id, fate) => assert AfterOfDashboard(cfg, w, e) == AfterDashboardStore(cfg, w, id, fate);
  }

  lemma DashboardStepKeepsSafe(cfg: Config, w: World, e: Event, id: nat, i: nat)
    requires Inv(cfg, w) && Enabled(w, e) && OfDashboard(e) && Safe(w, id, i)
    ensures var x := After(cfg, w, e);
      && !OldFillUnderWay(x, i)
      && (id in x.dashboards ==>
            !Misses(x.dashboards[id].seen, i) && (x.dashboards[id].answer.Some? ==>
                !Misses(x.dashboards[id].answer.value.seen, i)))
  {
    if !e.DashboardStart? {
      assert DashboardOk(cfg, w, w.dashboards[e.id]);
      assert !OldFill(w, e.id, i);
    }
    DashboardStepSees(cfg, w, e);
    DashboardStepFrame(cfg, w, e);
    var x := After(cfg, w, e);
    assert !Misses(x.dashboards[e.id].seen, i);
    forall j ensures !OldFill(x, j, i) {
      assert !OldFill(w, j, i);
    }
  }

  lemma EntryFrame(cfg: Config, w: World, e: Event)
    requires Enabled(w, e)
    requires e.ListStore? && w.lists[e.id].key.Some? ==> w.lists[e.id].key.value.text != DashboardKey
    ensures var x := After(cfg, w, e);
      CachedStats(x.store, x.now).Some? ==>
        || CachedStats(x.store, x.now) == CachedStats(w.store, w.now)
        || (e.DashboardStore? && CachedStats(x.store, x.now).value.from.seen == w.dashboards[e.id].seen)
  {
  }

  lemma StepKeepsSafe(cfg: Config, w: World, e: Event, id: nat, i: nat)
    requires Inv(cfg, w) && Enabled(w, e) && Safe(w, id, i)
    ensures Safe(After(cfg, w, e), id, i)
  {
    if e.ListStore? && w.lists[e.id].key.Some? {
      var r := w.lists[e.id];
      assert ListOk(cfg, w, r);
      ListKeyIsNotFixed(cfg.hash, r.key.value.version, r.user, r.filters);
    }
    if e.DashboardStore? { assert !OldFill(w, e.id, i); }
    EntryFrame(cfg, w, e);
    if OfDashboard(e) {
      DashboardStepKeepsSafe(cfg, w, e, id, i);
      DashboardStepFrame(cfg, w, e);
    } else {
      OthersKeepDashboards(cfg, w, e);
      forall j ensures !OldFill(After(cfg, w, e), j, i) { assert !OldFill(w, j, i); }
    }
  }

  lemma {:induction false} RunKeepsSafe(cfg: Config, w: World, es: seq<Event>, id: nat, i: nat)
    requires CollisionFree(cfg.hash) && Inv(cfg, w) && ValidRun(cfg, w, es) && Safe(w, id, i)
    ensures Safe(End(cfg, w, es), id, i)
    decreases |es|
  {
    if es != [] {
      StepKeepsSafe(cfg, w, es[0], id, i);
      StepKeepsInv(cfg, w, es[0]);
      RunKeepsSafe(cfg, After(cfg, w, es[0]), es[1..], id, i);
    }
  }

  lemma {:induction false} FreshId(ids: set<nat>) returns (n: nat)
    ensures forall m :: m in ids ==> m < n
  {
    if ids == {} {
      n := 0;
    } else {
      var m :| m in ids;
      var k := FreshId(ids - {m});
      n := if k > m then k else m + 1;
      assert forall x :: x in ids ==> x == m || x in ids - {m};
    }
  }

  /** An old entry is served to the next request. */
  lemma EntryIsServed(cfg: Config, w: World, i: nat) returns (es: seq<Event>, id: nat)
    requires Inv(cfg, w) && OldEntryCached(w, i)
    ensures ServesOld(cfg, w, es, id, i)
  {
    id := FreshId(w.dashboards.Keys);
    var start, look := DashboardStart(id), DashboardLookup(id, Answered);
    es := [start, look];
    var x := After(cfg, w, start);
    assert es[1..] == [look] && [look][1..] == [];
    assert CachedStats(x.store, x.now) == CachedStats(w.store, w.now);
    var y := After(cfg, x, look);
    assert ValidRun(cfg, y, []) && ValidRun(cfg, x, [look]);
    assert End(cfg, w, es) == End(cfg, x, [look]) == End(cfg, y, []) == y;
  }

  lemma Prepend(cfg: Config, w: World, e: Event, es: seq<Event>, id: nat, i: nat)
    requires Enabled(w, e) && After(cfg, w, e).dashboards.Keys == w.dashboards.Keys
    requires ServesOld(cfg, After(cfg, w, e), es, id, i)
    ensures ServesOld(cfg, w, [e] + es, id, i)
  {
    assert ([e] + es)[1..] == es;
  }

  lemma OldFillQueries(cfg: Config, w: World, fill: nat, i: nat)
    requires Inv(cfg, w) && OldFill(w, fill, i) && w.dashboards[fill].pc.Querying?
    ensures Enabled(w, DashboardQuery(fill))
    ensures var x := After(cfg, w, DashboardQuery(fill));
      OldFill(x, fill, i) && x.dashboards.Keys == w.dashboards.Keys
          && |x.dashboards[fill].seen| == |w.dashboards[fill].seen| + 1
  {
    var r := w.dashboards[fill];
    var k :| 0 <= k < |r.seen| && r.seen[k] < i;
    assert (r.seen + [w.Last()])[k] < i;
  }

  lemma OldFillStores(cfg: Config, w: World, fill: nat, i: nat)
    requires cfg.statsTtl > 0 && Inv(cfg, w) && OldFill(w, fill, i) && w.dashboards[fill].pc.Saving?
    ensures Enabled(w, DashboardStore(fill, Answered))
    ensures var x := After(cfg, w, DashboardStore(fill, Answered));
      OldEntryCached(x, i) && x.dashboards.Keys == w.dashboards.Keys
  {
    assert DashboardOk(cfg, w, w.dashboards[fill]);
    assert Snapshots(w, w.dashboards[fill].seen);
    var x := AfterDashboardStore(cfg, w, fill, Answered);
    assert CachedStats(x.store, x.now).value.from.seen == w.dashboards[fill].seen;
  }

  /** A computation with an old snapshot may finish, store its result and have it served. */
  lemma {:induction false} FillIsServed(cfg: Config, w: World, fill: nat, i: nat) returns (es: seq<Event>, id: nat)
    requires CollisionFree(cfg.hash) && cfg.statsTtl > 0 && Inv(cfg, w) && OldFill(w, fill, i)
    ensures ServesOld(cfg, w, es, id, i)
    decreases 4 - |w.dashboards[fill].seen|
  {
    assert DashboardOk(cfg, w, w.dashboards[fill]);
    var querying := w.dashboards[fill].pc.Querying?;
    var e := if querying then DashboardQuery(fill) else DashboardStore(fill, Answered);
    if querying { OldFillQueries(cfg, w, fill, i); } else { OldFillStores(cfg, w, fill, i); }
    StepKeepsInv(cfg, w, e);
    if querying {
      es, id := FillIsServed(cfg, After(cfg, w, e), fill, i);
    } else {
      es, id := EntryIsServed(cfg, After(cfg, w, e), i);
    }
    Prepend(cfg, w, e, es, id, i);
    es := [e] + es;
  }

  /** The dashboard's exact guarantee. From any state reached, some later request can still be served
      statistics without commit `i` if and only if the cached entry, or a computation under way, has
      read a state without it. */
  lemma DashboardFreshExactly(cfg: Config, w: World, i: nat)
    requires cfg.Valid() && Reachable(cfg, w) && i <= w.Last()
    ensures (exists es, id :: ServesOld(cfg, w, es, id, i)) <==> (OldEntryCached(w, i) || OldFillUnderWay(w, i))
  {
    ReachableInv(cfg, w);
    if OldEntryCached(w, i) {
      var es, id := EntryIsServed(cfg, w, i);
    } else if OldFillUnderWay(w, i) {
      var fill :| OldFill(w, fill, i);
      var es, id := FillIsServed(cfg, w, fill, i);
    } else {
      forall es, id ensures !ServesOld(cfg, w, es, id, i) {
        if ValidRun(cfg, w, es) && id !in w.dashboards { RunKeepsSafe(cfg, w, es, id, i); }
      }
    }
  }

  /** Right after an invalidation ran, only a computation under way can bring an old answer back. */
  lemma InvalidationForgetsEntry(cfg: Config, w: World, i: nat, fate: Fate)
    requires i in w.pending && !fate.Refused?
    ensures var x := After(cfg, w, Invalidate(i, fate));
      CachedStats(x.store, x.now) == None && x.dashboards == w.dashboards
      && (OldFillUnderWay(x, i) <==> OldFillUnderWay(w, i))
  {
    var x := After(cfg, w, Invalidate(i, fate));
    forall id ensures OldFill(x, id, i) <==> OldFill(w, id, i) {}
  }

  predicate AllInvalidated(w: World) {
    forall i :: 1 <= i < |w.history| ==> i in w.invalidated
  }

  /** That does happen: a request reads the empty table, a ticket is committed and its invalidation
      runs, and the request stores its counts afterwards. The list guarantee does not carry over. */
  lemma DelayedFillOutlivesInvalidation(cfg: Config, t: Ticket) returns (w: World)
    requires cfg.Valid()
    ensures Reachable(cfg, w) && AllInvalidated(w) && |w.history| == 2
    ensures exists es, id :: ServesOld(cfg, w, es, id, 1)
  {
    var early := HalfFilled(cfg);
    w := CommitAndInvalidate(cfg, early, map[t.id := t]);
    assert w.dashboards[0].seen[0] < 1;
    assert OldFill(w, 0, 1);
    DashboardFreshExactly(cfg, w, 1);
  }

  lemma CommitAndInvalidate(cfg: Config, w: World, db: Tickets) returns (x: World)
    requires Reachable(cfg, w) && |w.history| == 1
    ensures Reachable(cfg, x) && x.dashboards == w.dashboards && |x.history| == 2 && 1 in x.invalidated
  {
    var commit, invalidate := Commit(db), Invalidate(1, Answered);
    Extend(cfg, w, commit);
    var y := w.(history := w.history + [db], pending := w.pending + {1});
    assert y == After(cfg, w, commit);
    Extend(cfg, y, invalidate);
    x := AfterInvalidate(y, 1, Answered);
  }

  lemma HalfFilled(cfg: Config) returns (w: World)
    ensures Reachable(cfg, w) && |w.history| == 1 && w.pending == {}
    ensures 0 in w.dashboards && w.dashboards[0] == StatsRequest(Querying, 0, [0], None)
  {
    hide PageFrom, ListKey;
    var w0 := Start(map[]);
    assert ValidRun(cfg, w0, []) && w0 == End(cfg, w0, []);
    Extend(cfg, w0, DashboardStart(0));
    var w1 := After(cfg, w0, DashboardStart(0));
    Extend(cfg, w1, DashboardLookup(0, Answered));
    var w2 := After(cfg, w1, DashboardLookup(0, Answered));
    Extend(cfg, w2, DashboardQuery(0));
    w := After(cfg, w2, DashboardQuery(0));
  }

  /** One more step from a state reached. */
  lemma Extend(cfg: Config, w: World, e: Event)
    requires Reachable(cfg, w) && Enabled(w, e)
    ensures Reachable(cfg, After(cfg, w, e))
  {
    var db, es :| ValidRun(cfg, Start(db), es) && w == End(cfg, Start(db), es);
    ExtendRun(cfg, Start(db), es, e);
  }

  lemma {:induction false} ExtendRun(cfg: Config, w: World, es: seq<Event>, e: Event)
    requires ValidRun(cfg, w, es) && Enabled(End(cfg, w, es), e)
    ensures ValidRun(cfg, w, es + [e]) && End(cfg, w, es + [e]) == After(cfg, End(cfg, w, es), e)
    decreases |es|
  {
    if es == [] {
      assert [e][1..] == [];
      assert ValidRun(cfg, After(cfg, w, e), []);
    } else {
      assert (es + [e])[1..] == es[1..] + [e];
      ExtendRun(cfg, After(cfg, w, es[0]), es[1..], e);
    }
  }

  /******* What answers show, from the cache or not *******/

  /** Whoever is answered a page sees rows asked for only, a customer no other customer's; and the total
      is the number of tickets asked for. */
  lemma AnswersShowAskedFor(cfg: Config, x: World, id: nat)
    requires CollisionFree(cfg.hash) && Reachable(cfg, x) && id in x.lists && x.lists[id].answer.Some?
    ensures var r, a := x.lists[id], x.lists[id].answer.value;
      && r.filters.Valid() && a.countAt < |x.history| && a.rowsAt < |x.history|
      && a.page.page == r.filters.page && a.page.pageSize == r.filters.pageSize
      && a.page.total == |AskedFor(cfg.fold, x.history[a.countAt], r.user, r.filters)|
      && forall t :: t in a.page.items ==>
           t.id in AskedFor(cfg.fold, x.history[a.rowsAt], r.user, r.filters)
           && x.history[a.rowsAt][t.id] == t && (r.user.role == Customer ==> t.customerId == r.user.id)
  {
    ReachableInv(cfg, x);
    assert ListOk(cfg, x, x.lists[id]);
    hide PageFrom, AskedFor, Inv;
    var r, a := x.lists[id], x.lists[id].answer.value;
    var counted, listed := x.history[a.countAt], x.history[a.rowsAt];
    AnswerIsInShape(cfg.fold, counted, listed, r.user, r.filters);
    TotalCountsAskedFor(cfg.fold, counted, listed, r.user, r.filters);
    forall t | t in a.page.items
      ensures t.id in AskedFor(cfg.fold, listed, r.user, r.filters)
      ensures listed[t.id] == t && (r.user.role == Customer ==> t.customerId == r.user.id)
    {
      RowsAreAskedFor(cfg.fold, counted, listed, r.user, r.filters, t);
    }
  }

  /** Whoever is answered statistics gets the true counts of the states that the four queries saw. */
  lemma ReportsShowCounts(cfg: Config, x: World, id: nat)
    requires CollisionFree(cfg.hash) && Reachable(cfg, x) && id in x.dashboards && x.dashboards[id].answer.Some?
    ensures var a := x.dashboards[id].answer.value;
      && |a.seen| == 4 && (forall k :: 0 <= k < 4 ==> a.seen[k] < |x.history|)
      && Counts(a.stats, x.history[a.seen[0]], x.history[a.seen[1]], x.history[a.seen[2]], x.history[a.seen[3]])
  {
    ReachableInv(cfg, x);
    assert DashboardOk(cfg, x, x.dashboards[id]);
    hide StatsFrom, Counts, Inv;
    var a := x.dashboards[id].answer.value;
    StatsCount(x.history[a.seen[0]], x.history[a.seen[1]], x.history[a.seen[2]], x.history[a.seen[3]]);
  }

  /******* What is stored is served *******/

  /** A live page under the version that is current answers the next equal request, without a query. */
  lemma StoredPageIsServed(cfg: Config, w: World, v: int, user: User, f: Filters, id: nat, asker: User, g: Filters)
    returns (es: seq<Event>)
    requires CollisionFree(cfg.hash) && id !in w.lists && g.Valid() && w.Last() >= 0
    requires VersionOf(w.store, w.now) == Some(v) && CachedPage(w.store, ListKey(cfg.hash, v, user, f), w.now).Some?
    requires SameScope(user, asker) && SameFilters(f, g)
    ensures ValidRun(cfg, w, es) && forall k :: 0 <= k < |es| ==> !es[k].ListCount? && !es[k].ListFetch?
    ensures var x := End(cfg, w, es);
      && id in x.lists && x.lists[id].answer.Some?
      && x.lists[id].answer.value.page == CachedPage(w.store, ListKey(cfg.hash, v, user, f), w.now).value.page
  {
    hide ListKey, PageFrom;
    KeyIdentifiesRequest(cfg.hash, v, user, f, v, asker, g);
    var a, b := ListStart(id, asker, g), ListSeed(id, Answered);
    var c, d := ListVersion(id, Answered), ListLookup(id, Answered);
    var w1 := After(cfg, w, a);
    var w2 := AfterSeed(w1, id, Answered);
    var w3 := AfterVersion(cfg, w2, id, Answered);
    var w4 := AfterLookup(w3, id, Answered);
    assert w2.store == w.store && w2.now == w.now;
    es := [a, b, c, d];
    FourSteps(cfg, w, w1, w2, w3, w4, a, b, c, d);
  }

  lemma FourSteps(cfg: Config, w: World, w1: World, w2: World, w3: World, w4: World,
                  a: Event, b: Event, c: Event, d: Event)
    requires Enabled(w, a) && After(cfg, w, a) == w1 && Enabled(w1, b) && After(cfg, w1, b) == w2
    requires Enabled(w2, c) && After(cfg, w2, c) == w3 && Enabled(w3, d) && After(cfg, w3, d) == w4
    ensures ValidRun(cfg, w, [a, b, c, d]) && End(cfg, w, [a, b, c, d]) == w4
  {
    hide After, Enabled;
    assert [a, b, c, d][1..] == [b, c, d] && [b, c, d][1..] == [c, d] && [c, d][1..] == [d] && [d][1..] == [];
    assert ValidRun(cfg, w4, []) && ValidRun(cfg, w3, [d]) && ValidRun(cfg, w2, [c, d]) && ValidRun(cfg, w1, [b, c, d]);
    assert End(cfg, w3, [d]) == w4 && End(cfg, w2, [c, d]) == w4 && End(cfg, w1, [b, c, d]) == w4;
  }

  /** A page computed with a key is in the cache for one time to live, unless Redis refuses. */
  lemma ComputedPageIsStored(cfg: Config, w: World, id: nat, fate: Fate, later: nat)
    requires Inv(cfg, w) && Enabled(w, ListStore(id, fate)) && w.lists[id].key.Some?
    requires !fate.Refused? && later < cfg.listTtl
    ensures var x := After(cfg, w, ListStore(id, fate));
      var r := w.lists[id];
      && x.lists[id].answer.Some?
      && var entry := CachedPage(x.store, ListKey(cfg.hash, r.key.value.version, r.user, r.filters), w.now + later);
         entry.Some? && entry.value.page == x.lists[id].answer.value.page
  {
    hide PageFrom, ListKey;
    assert ListOk(cfg, w, w.lists[id]);
    assert After(cfg, w, ListStore(id, fate)) == AfterStore(cfg, w, id, fate);
  }

}
