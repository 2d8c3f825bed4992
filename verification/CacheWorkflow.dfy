/** The list cache over a database that the ticket workflow writes. */
module CacheWorkflow {
  import opened Domain
  import opened TicketOps
  import opened TicketQuery
  import opened CacheKey
  import opened CacheService
  import opened CacheProtocol
  import opened CacheTheorems
  import Workflow
  import WorkflowTheorems

  ghost predicate LeadsTo(w: Workflow.Flow, x: Workflow.Flow) {
    exists es :: Workflow.ValidRun(w, es) && Workflow.End(w, es) == x
  }

  /** The committed tables are those of successive states of one run of the workflow. */
  ghost predicate MadeBy(history: seq<Tickets>, flows: seq<Workflow.Flow>) {
    && |flows| == |history|
    && (forall i :: 0 <= i < |flows| ==> Workflow.Reachable(flows[i]) && flows[i].db.tickets == history[i])
    && (forall i :: 0 < i < |flows| ==> LeadsTo(flows[i - 1], flows[i]))
  }

  lemma ProgressBy(w: Workflow.Flow, x: Workflow.Flow, id: Uuid)
    requires Workflow.Reachable(w) && LeadsTo(w, x) && id in w.db.tickets && !w.db.tickets[id].status.Open?
    ensures id in x.db.tickets
    ensures var t := x.db.tickets[id]; t == w.db.tickets[id].(status := t.status, updatedAt := t.updatedAt)
    ensures Rank(x.db.tickets[id].status) >= Rank(w.db.tickets[id].status)
  {
    var es :| Workflow.ValidRun(w, es) && Workflow.End(w, es) == x;
    Workflow.ReachableIsSerialisable(w);
    WorkflowTheorems.StartedTicketsAreFrozen(w, es, id);
  }

  lemma {:induction false} ProgressAlong(history: seq<Tickets>, flows: seq<Workflow.Flow>, i: nat, k: nat, id: Uuid)
    requires MadeBy(history, flows) && i <= k < |history| && id in history[i] && !history[i][id].status.Open?
    ensures id in history[k]
    ensures var t := history[k][id]; t == history[i][id].(status := t.status, updatedAt := t.updatedAt)
    ensures Rank(history[k][id].status) >= Rank(history[i][id].status)
    decreases k
  {
    if i < k {
      ProgressAlong(history, flows, i, k - 1, id);
      assert LeadsTo(flows[k - 1], flows[k]);
      ProgressBy(flows[k - 1], flows[k], id);
    }
  }

  /** Nobody who asks after a status change was invalidated is shown that ticket with an earlier status,
      be it from the cache, nor with a content other than the one it had then. */
  lemma ListNeverGoesBack(cfg: Config, w: World, es: seq<Event>, x: World, id: nat, i: nat,
                          flows: seq<Workflow.Flow>, t: Ticket)
    requires CollisionFree(cfg.hash) && Reachable(cfg, w) && ValidRun(cfg, w, es) && x == End(cfg, w, es)
    requires i in w.invalidated && ToResolve(w, id) && id in x.lists && x.lists[id].answer.Some?
    requires MadeBy(x.history, flows) && t in x.lists[id].answer.value.page.items
    ensures i < |x.history|
    ensures t.id in x.history[i] && !x.history[i][t.id].status.Open? ==>
      && Rank(t.status) >= Rank(x.history[i][t.id].status)
      && t == x.history[i][t.id].(status := t.status, updatedAt := t.updatedAt)
  {
    ListFreshness(cfg, w, es, x, id, i);
    var r, a := x.lists[id], x.lists[id].answer.value;
    RowsAreAskedFor(cfg.fold, x.history[a.countAt], x.history[a.rowsAt], r.user, r.filters, t);
    if t.id in x.history[i] && !x.history[i][t.id].status.Open? {
      ProgressAlong(x.history, flows, i, a.rowsAt, t.id);
    }
  }
}
