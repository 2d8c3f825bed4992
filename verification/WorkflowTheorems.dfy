/** What the ticket workflow promises over every run. */
module WorkflowTheorems {
  import opened Domain
  import opened TicketOps
  import opened Workflow

  /******* Once work has started *******/

  /** A ticket that has left OPEN is never deleted, its content never changes again and its status
      never goes back, whatever edits and deletes were waiting for its lock. */
  lemma {:induction false} StartedTicketsAreFrozen(w: Flow, es: seq<Event>, id: Uuid)
    requires LocksOk(w) && ValidRun(w, es)
    requires id in w.db.tickets && !w.db.tickets[id].status.Open?
    ensures var x := End(w, es);
      && id in x.db.tickets
      && var t := x.db.tickets[id];
         t == w.db.tickets[id].(status := t.status, updatedAt := t.updatedAt)
         && Rank(t.status) >= Rank(w.db.tickets[id].status)
    decreases |es|
  {
    if es != [] {
      StepKeepsLocks(w, es[0]);
      StepRefinesAtomic(w, es[0]);
      if es[0].tx in w.txs { AtomicKeepsStarted(w.db, w.txs[es[0].tx].op, id); }
      StartedTicketsAreFrozen(After(w, es[0]), es[1..], id);
    }
  }

  /** The tickets whose status is at or past a given rank. */
  function AtOrPast(tickets: Tickets, rank: nat): set<Uuid> {
    set id | id in tickets && Rank(tickets[id].status) >= rank
  }

  /** The numbers of tickets at or past IN_PROGRESS, RESOLVED and CLOSED never decrease. */
  lemma ProgressNeverDecreases(w: Flow, es: seq<Event>, rank: nat)
    requires LocksOk(w) && ValidRun(w, es) && rank >= 1
    ensures AtOrPast(w.db.tickets, rank) <= AtOrPast(End(w, es).db.tickets, rank)
    ensures |AtOrPast(w.db.tickets, rank)| <= |AtOrPast(End(w, es).db.tickets, rank)|
  {
    var a, b := AtOrPast(w.db.tickets, rank), AtOrPast(End(w, es).db.tickets, rank);
    forall id | id in a ensures id in b { StartedTicketsAreFrozen(w, es, id); }
    assert b == a + (b - a);
  }

  /******* The log *******/

  predicate IsChange(e: Entry, id: Uuid) {
    e.op.ChangeStatus? && e.op.id == id && e.outcome.Changed?
  }

  /** How many status changes of a ticket the log records at positions from..to. */
  function Changes(log: seq<Entry>, from: nat, to: nat, id: Uuid): nat
    requires to <= |log|
  {
    if to <= from then 0 else Changes(log, from, to - 1, id) + if IsChange(log[to - 1], id) then 1 else 0
  }

  lemma {:induction false} ChangesStay(log: seq<Entry>, e: Entry, from: nat, to: nat, id: Uuid)
    requires to <= |log|
    ensures Changes(log + [e], from, to, id) == Changes(log, from, to, id)
  {
    if to > from { ChangesStay(log, e, from, to - 1, id); }
  }

  lemma ChangesOneMore(log: seq<Entry>, e: Entry, from: nat, id: Uuid)
    requires from <= |log|
    ensures Changes(log + [e], from, |log| + 1, id) == Changes(log, from, |log|, id) + if IsChange(e, id) then 1 else 0
  {
    ChangesStay(log, e, from, |log|, id);
  }

  const Path := [Open, InProgress, Resolved, Closed]

  /** The committed status history of a ticket. */
  function Trail(log: seq<Entry>, id: Uuid): seq<TicketStatus> {
    if log == [] then [] else
      Trail(log[..|log| - 1], id) + TrailStep(log[|log| - 1], id)
  }

  function Net(log: seq<Entry>): int {
    if log == [] then 0 else
      var e := log[|log| - 1];
      Net(log[..|log| - 1]) +
        if e.outcome != Succeeded then 0 else if e.op.Create? then 1 else if e.op.Delete? then -1 else 0
  }

  /** The history a ticket's row stands for. */
  function TrailOf(w: Flow, id: Uuid): seq<TicketStatus> {
    if id in w.db.tickets then Path[..Rank(w.db.tickets[id].status) + 1] else if id in w.used then [Open] else []
  }

  ghost predicate TrailOk(w: Flow, id: Uuid) {
    && Trail(w.log, id) == TrailOf(w, id)
    && |Trail(w.log, id)| == Changes(w.log, 0, |w.log|, id) + if id in w.used then 1 else 0
  }

  lemma UsedGrows(w: Flow, e: Event)
    requires Enabled(w, e)
    ensures After(w, e).used == w.used + if e.Commit? && w.txs[e.tx].op.Create? then {w.txs[e.tx].op.id} else {}
  {
  }

  /** A creation is decided by a commit only. */
  lemma CreationsCommit(w: Flow, e: Event)
    requires LocksOk(w) && Enabled(w, e) && Decides(w, After(w, e), e)
    ensures w.txs[e.tx].op.Create? <==> e.Commit? && w.txs[e.tx].op.Create?
  {
    assert TxOk(w, e.tx, w.txs[e.tx]);
    assert |After(w, e).log| > |w.log|;
  }

  function TrailStep(e: Entry, id: Uuid): seq<TicketStatus> {
    if e.op.id != id then []
    else if e.op.Create? && e.outcome == Succeeded then [Open]
    else if IsChange(e, id) then [e.op.newStatus] else []
  }

  lemma PathGrows(from: TicketStatus, to: TicketStatus)
    requires NextStatus(from) == Some(to)
    ensures Path[..Rank(from) + 1] + [to] == Path[..Rank(to) + 1]
  {
  }

  /** One decided mutation moves the row's history by the step its entry records. */
  lemma DecisionMovesTrail(w: Flow, e: Event, id: Uuid)
    requires LocksOk(w) && Enabled(w, e) && Decides(w, After(w, e), e)
    ensures TrailOf(After(w, e), id) == TrailOf(w, id)
        + TrailStep(Entry(e.tx, w.txs[e.tx].op, Atomic(w.db, w.txs[e.tx].op).1), id)
  {
    var op := w.txs[e.tx].op;
    AtomicStatus(w.db, op, id);
    UsedGrows(w, e);
    CreationsCommit(w, e);
    if Atomic(w.db, op).1.Changed? { PathGrows(Atomic(w.db, op).1.from, op.newStatus); }
  }

  lemma DecisionKeepsTrail(w: Flow, e: Event, id: Uuid)
    requires LocksOk(w) && Enabled(w, e) && Decides(w, After(w, e), e) && TrailOk(w, id)
    ensures TrailOk(After(w, e), id)
  {
    var x := After(w, e);
    var op := w.txs[e.tx].op;
    var entry := Entry(e.tx, op, Atomic(w.db, op).1);
    assert x.log[..|x.log| - 1] == w.log;
    DecisionMovesTrail(w, e, id);
    UsedGrows(w, e);
    CreationsCommit(w, e);
    ChangesOneMore(w.log, entry, 0, id);
    AtomicStatus(w.db, op, id);
  }

  lemma StepKeepsTrail(w: Flow, e: Event, id: Uuid)
    requires LocksOk(w) && Enabled(w, e) && TrailOk(w, id)
    ensures TrailOk(After(w, e), id)
  {
    StepRefinesAtomic(w, e);
    if Decides(w, After(w, e), e) { DecisionKeepsTrail(w, e, id); } else { UsedGrows(w, e); }
  }

  lemma {:induction false} RunKeepsTrail(w: Flow, es: seq<Event>, id: Uuid)
    requires LocksOk(w) && ValidRun(w, es) && TrailOk(w, id)
    ensures TrailOk(End(w, es), id)
    decreases |es|
  {
    if es != [] {
      StepKeepsTrail(w, es[0], id);
      StepKeepsLocks(w, es[0]);
      RunKeepsTrail(After(w, es[0]), es[1..], id);
    }
  }

  /** Whole-run safety. However many agents race, a ticket's committed history is a prefix of OPEN,
      IN_PROGRESS, RESOLVED, CLOSED, ends with its status, has each transition at most once, and so at
      most three status changes ever succeed. */
  lemma StatusHistory(w: Flow, id: Uuid)
    requires Reachable(w)
    ensures Trail(w.log, id) <= Path && Changes(w.log, 0, |w.log|, id) <= 3
    ensures id in w.db.tickets ==> |Trail(w.log, id)| == Rank(w.db.tickets[id].status) + 1
    ensures id !in w.db.tickets ==> |Trail(w.log, id)| <= 1
  {
    ReachableTrail(w, id);
    ReachableIsSerialisable(w);
    TrailOfIsPrefix(w, id);
  }

  lemma TrailOfIsPrefix(w: Flow, id: Uuid)
    ensures TrailOf(w, id) <= Path
    ensures |TrailOf(w, id)| == if id in w.db.tickets then Rank(w.db.tickets[id].status) + 1
        else if id in w.used then 1 else 0
  {
    assert Path[..1] == [Open];
  }

  lemma ReachableTrail(w: Flow, id: Uuid)
    requires Reachable(w)
    ensures TrailOk(w, id)
  {
    var es :| ValidRun(Empty, es) && w == End(Empty, es);
    assert LocksOk(Empty) && TrailOk(Empty, id);
    RunKeepsTrail(Empty, es, id);
  }

  lemma AtomicKeys(db: Database, op: Op)
    ensures var (r, o) := Atomic(db, op);
      && r.tickets.Keys == (if o != Succeeded then db.tickets.Keys
           else if op.Create? then db.tickets.Keys + {op.id}
           else if op.Delete? then db.tickets.Keys - {op.id}
           else db.tickets.Keys)
      && (o == Succeeded && op.Create? ==> op.id !in db.tickets)
      && (o == Succeeded && op.Delete? ==> op.id in db.tickets)
  {
  }

  lemma AtomicNet(db: Database, op: Op)
    ensures var (r, o) := Atomic(db, op);
      |r.tickets.Keys| == |db.tickets.Keys|
        + if o != Succeeded then 0 else if op.Create? then 1 else if op.Delete? then -1 else 0
  {
    AtomicKeys(db, op);
  }

  lemma StepKeepsNet(w: Flow, e: Event)
    requires LocksOk(w) && Enabled(w, e) && Net(w.log) == |w.db.tickets|
    ensures Net(After(w, e).log) == |After(w, e).db.tickets|
  {
    StepRefinesAtomic(w, e);
    var x := After(w, e);
    if Decides(w, x, e) {
      assert x.log[..|x.log| - 1] == w.log;
      AtomicNet(w.db, w.txs[e.tx].op);
      assert |x.db.tickets| == |x.db.tickets.Keys| && |w.db.tickets| == |w.db.tickets.Keys|;
    }
  }

  lemma {:induction false} RunKeepsNet(w: Flow, es: seq<Event>)
    requires LocksOk(w) && ValidRun(w, es) && Net(w.log) == |w.db.tickets|
    ensures Net(End(w, es).log) == |End(w, es).db.tickets|
    decreases |es|
  {
    if es != [] {
      StepKeepsNet(w, es[0]);
      StepKeepsLocks(w, es[0]);
      RunKeepsNet(After(w, es[0]), es[1..]);
    }
  }

  /** The number of tickets is that of committed creations less that of committed deletions. */
  lemma TotalIsConserved(w: Flow)
    requires Reachable(w)
    ensures Net(w.log) == |w.db.tickets|
  {
    var es :| ValidRun(Empty, es) && w == End(Empty, es);
    assert LocksOk(Empty);
    RunKeepsNet(Empty, es);
  }

  /******* Notices *******/

  /** The request's own entry in the log. */
  ghost predicate EntryOk(w: Flow, t: nat, x: Tx) {
    && (x.entry.Some? ==> x.entry.value < |w.log|)
    && (x.entry.Some? ==> w.log[x.entry.value].tx == t && w.log[x.entry.value].op == x.op)
    && (x.entry.Some? && w.log[x.entry.value].outcome.Changed? ==> x.op.ChangeStatus?)
    && (x.pc.Waiting? || x.pc.Holding? || x.pc.Checked? ==> x.entry.None?)
    && (x.pc.Committed? || x.pc.Refreshed? || x.pc.ToldTicket? || x.pc.Finished? ==> x.entry.Some?)
  }

  /** A status change that committed as entry `k`. */
  ghost predicate ChangedAt(w: Flow, x: Tx, k: nat) {
    && x.entry == Some(k) && k < |w.log| && x.op.ChangeStatus? && w.log[k].outcome.Changed?
    && NextStatus(w.log[k].outcome.from) == Some(x.op.newStatus)
  }

  /** How far the status has moved since the change: once for every change logged since. */
  ghost predicate DriftOk(w: Flow, t: nat, x: Tx) {
    && (x.pc.Committed? && x.op.ChangeStatus? ==> x.entry.Some? && CommittedOk(w, x, x.entry.value))
    && (x.pc.Refreshed? || x.pc.ToldTicket? ==>
          x.entry.Some? && ChangedAt(w, x, x.entry.value) && SeenOk(w, t, x, x.pc.seen))
  }

  ghost predicate CommittedOk(w: Flow, x: Tx, k: nat) {
    && ChangedAt(w, x, k) && x.op.id in w.db.tickets
    && Rank(w.db.tickets[x.op.id].status) == Rank(x.op.newStatus) + Changes(w.log, k + 1, |w.log|, x.op.id)
  }

  /** The status that was read back is the committed one moved on by the changes in between. */
  ghost predicate SeenOk(w: Flow, t: nat, x: Tx, seen: TicketStatus)
    requires x.entry.Some?
  {
    && t in w.readBack && x.entry.value < w.readBack[t] <= |w.log| && x.op.ChangeStatus?
    && Rank(seen) == Rank(x.op.newStatus) + Changes(w.log, x.entry.value + 1, w.readBack[t], x.op.id)
  }

  ghost predicate NoticeOk(w: Flow, n: Notice) {
    && n.tx in w.txs && w.txs[n.tx].entry.Some?
    && var x := w.txs[n.tx];
       ChangedAt(w, x, x.entry.value) && w.log[x.entry.value] == Entry(n.tx, x.op, Changed(n.from))
       && x.op.id == n.ticket && SeenOk(w, n.tx, x, n.to)
       && (x.pc.ToldTicket? || x.pc.Finished? || x.pc.Gone?)
  }

  function Notices(ns: seq<Notice>, t: nat): nat {
    if ns == [] then 0 else Notices(ns[..|ns| - 1], t) + if ns[|ns| - 1].tx == t then 1 else 0
  }

  /** One notice per channel and change once the request has got that far, never two. */
  ghost predicate CountsOk(w: Flow, t: nat) {
    var onTicket, onDashboard := Notices(w.ticketNotices, t), Notices(w.dashboardNotices, t);
    && onDashboard <= onTicket <= 1
    && (t !in w.txs || !(w.txs[t].pc.ToldTicket? || w.txs[t].pc.Finished? || w.txs[t].pc.Gone?) ==> onTicket == 0)
    && (t in w.txs && w.txs[t].pc.ToldTicket? ==> onTicket == 1 && onDashboard == 0)
    && (t in w.txs && w.txs[t].pc.Finished? && Changer(w, t) ==> onDashboard == 1)
  }

  /** Every entry in the log is its request's own. */
  ghost predicate LinksOk(w: Flow) {
    forall k :: 0 <= k < |w.log| ==> w.log[k].tx in w.txs && w.txs[w.log[k].tx].entry == Some(k)
  }

  ghost predicate NewsOk(w: Flow) {
    && LocksOk(w)
    && (forall t :: t in w.txs ==> EntryOk(w, t, w.txs[t]) && DriftOk(w, t, w.txs[t]))
    && LinksOk(w)
    && (forall t :: t in w.readBack ==> w.readBack[t] <= |w.log|)
    && (forall i :: 0 <= i < |w.ticketNotices| ==> NoticeOk(w, w.ticketNotices[i]))
    && (forall i :: 0 <= i < |w.dashboardNotices| ==> NoticeOk(w, w.dashboardNotices[i]))
    && (forall t :: CountsOk(w, t))
  }

  ghost predicate Extends(w: Flow, x: Flow) {
    x.log == w.log || exists e :: x.log == w.log + [e]
  }

  lemma ChangesExtend(w: Flow, x: Flow, from: nat, to: nat, id: Uuid)
    requires Extends(w, x) && to <= |w.log|
    ensures Changes(x.log, from, to, id) == Changes(w.log, from, to, id)
  {
    if x.log != w.log {
      var e :| x.log == w.log + [e];
      ChangesStay(w.log, e, from, to, id);
    }
  }

  /** What was read back stays what it was. */
  lemma SeenStays(w: Flow, x: Flow, t: nat, tx: Tx, seen: TicketStatus)
    requires Extends(w, x) && t in x.readBack && t in w.readBack && x.readBack[t] == w.readBack[t]
    requires tx.entry.Some? && ChangedAt(w, tx, tx.entry.value) && SeenOk(w, t, tx, seen)
    ensures ChangedAt(x, tx, tx.entry.value) && SeenOk(x, t, tx, seen)
    ensures x.log[tx.entry.value] == w.log[tx.entry.value]
  {
    ChangesExtend(w, x, tx.entry.value + 1, w.readBack[t], tx.op.id);
  }

  /** A decision moves the status of a started ticket on exactly when its entry is a change. */
  lemma DecisionDrifts(db: Database, id: Uuid, log: seq<Entry>, e: Entry, from: nat)
    requires id in db.tickets && !db.tickets[id].status.Open? && from <= |log| && e.outcome == Atomic(db, e.op).1
    ensures var (r, _) := Atomic(db, e.op);
      && id in r.tickets
      && Rank(r.tickets[id].status) - Changes(log + [e], from, |log| + 1, id)
          == Rank(db.tickets[id].status) - Changes(log, from, |log|, id)
  {
    AtomicKeepsStarted(db, e.op, id);
    AtomicStatus(db, e.op, id);
    ChangesOneMore(log, e, from, id);
  }

  /** A committed change that is not read back yet drifts on with every later change. */
  lemma CommittedStays(w: Flow, e: Event, x: Flow, tx: Tx, k: nat)
    requires LocksOk(w) && Enabled(w, e) && x == After(w, e) && CommittedOk(w, tx, k)
    ensures CommittedOk(x, tx, k)
  {
    StepRefinesAtomic(w, e);
    if Decides(w, x, e) {
      var op := w.txs[e.tx].op;
      DecisionDrifts(w.db, tx.op.id, w.log, Entry(e.tx, op, Atomic(w.db, op).1), k + 1);
    }
  }

  lemma StepExtends(w: Flow, e: Event)
    requires Enabled(w, e)
    ensures Extends(w, After(w, e))
    ensures forall u :: u in w.txs && u != e.tx ==> u in After(w, e).txs && After(w, e).txs[u] == w.txs[u]
    ensures forall u :: u != e.tx ==>
      (u in After(w, e).txs <==> u in w.txs) && (u in After(w, e).readBack <==> u in w.readBack)
    ensures forall u :: u in w.readBack && (u != e.tx || !e.Refresh?) ==>
        u in After(w, e).readBack && After(w, e).readBack[u] == w.readBack[u]
    ensures !e.TellTicket? ==> After(w, e).ticketNotices == w.ticketNotices
    ensures !e.TellDashboard? ==> After(w, e).dashboardNotices == w.dashboardNotices
  {
  }

  lemma OthersStay(w: Flow, e: Event, u: nat)
    requires NewsOk(w) && Enabled(w, e) && u in w.txs && u != e.tx
    ensures EntryOk(After(w, e), u, w.txs[u]) && DriftOk(After(w, e), u, w.txs[u])
  {
    var tx := w.txs[u];
    assert EntryOk(w, u, tx) && DriftOk(w, u, tx);
    StepExtends(w, e);
    if tx.pc.Committed? && tx.op.ChangeStatus? {
      CommittedStays(w, e, After(w, e), tx, tx.entry.value);
    } else if tx.pc.Refreshed? || tx.pc.ToldTicket? {
      SeenStays(w, After(w, e), u, tx, tx.pc.seen);
    }
  }

  /** A change that is committed just now has not drifted. */
  lemma CommitStartsDrift(w: Flow, t: nat)
    requires LocksOk(w) && Enabled(w, Commit(t)) && w.txs[t].op.ChangeStatus?
    ensures var x := AfterCommit(w, t); CommittedOk(x, x.txs[t], |w.log|)
  {
    assert TxOk(w, t, w.txs[t]);
    CommitIsAtomic(w, t);
    AtomicStatus(w.db, w.txs[t].op, w.txs[t].op.id);
  }

  lemma OwnEntryStays(w: Flow, e: Event)
    requires NewsOk(w) && Enabled(w, e)
    ensures var x := After(w, e); e.tx in x.txs && EntryOk(x, e.tx, x.txs[e.tx])
  {
    if e.tx in w.txs { assert EntryOk(w, e.tx, w.txs[e.tx]); }
  }

  lemma RefreshKeepsDrift(w: Flow, t: nat)
    requires NewsOk(w) && Enabled(w, Refresh(t))
    ensures var x := AfterRefresh(w, t); DriftOk(x, t, x.txs[t])
  {
    assert EntryOk(w, t, w.txs[t]) && DriftOk(w, t, w.txs[t]);
  }

  lemma TellKeepsDrift(w: Flow, t: nat)
    requires NewsOk(w) && Enabled(w, TellTicket(t))
    ensures var x := After(w, TellTicket(t)); DriftOk(x, t, x.txs[t])
  {
    var tx := w.txs[t];
    assert EntryOk(w, t, tx) && DriftOk(w, t, tx);
    SeenStays(w, After(w, TellTicket(t)), t, tx, tx.pc.seen);
  }

  lemma OwnDriftStays(w: Flow, e: Event)
    requires NewsOk(w) && Enabled(w, e)
    ensures var x := After(w, e); e.tx in x.txs && DriftOk(x, e.tx, x.txs[e.tx])
  {
    match e
    case Commit(t) => if w.txs[t].op.ChangeStatus? { CommitStartsDrift(w, t); }
    case Refresh(t) => RefreshKeepsDrift(w, t);
    case TellTicket(t) => TellKeepsDrift(w, t);
    case _ =>
  }

  /** A step gives its request an entry only when it logs one. */
  lemma StepEntry(w: Flow, e: Event)
    requires Enabled(w, e) && e.tx in w.txs
    ensures var x := After(w, e);
      || (x.log == w.log && x.txs[e.tx].entry == w.txs[e.tx].entry)
      || (|x.log| == |w.log| + 1 && x.log[..|w.log|] == w.log && x.log[|w.log|].tx == e.tx
          && x.txs[e.tx].entry == Some(|w.log|)
          && (w.txs[e.tx].pc.Waiting? || w.txs[e.tx].pc.Holding? || w.txs[e.tx].pc.Checked?))
  {
  }

  /** No request is decided twice. */
  lemma LinksStay(w: Flow, e: Event)
    requires LinksOk(w) && Enabled(w, e) && (e.tx in w.txs ==> EntryOk(w, e.tx, w.txs[e.tx]))
    ensures LinksOk(After(w, e))
  {
    var x := After(w, e);
    StepExtends(w, e);
    if e.tx in w.txs { StepEntry(w, e); } else { assert x.log == w.log; }
    forall k: nat | k < |x.log| ensures x.log[k].tx in x.txs && x.txs[x.log[k].tx].entry == Some(k) {
      if k < |w.log| { assert x.log[k] == x.log[..|w.log|][k] == w.log[k]; }
    }
  }

  lemma NoticeStays(w: Flow, e: Event, n: Notice)
    requires NewsOk(w) && Enabled(w, e) && NoticeOk(w, n)
    ensures NoticeOk(After(w, e), n)
  {
    StepExtends(w, e);
    var tx := w.txs[n.tx];
    assert EntryOk(w, n.tx, tx);
    assert e.tx == n.tx ==> e.TellDashboard? || e.Abort?;
    SeenStays(w, After(w, e), n.tx, tx, n.to);
  }

  lemma NewNotice(w: Flow, e: Event)
    requires NewsOk(w) && Enabled(w, e) && (e.TellTicket? || e.TellDashboard?)
    ensures NoticeOk(After(w, e), NoticeOf(w, e.tx, w.txs[e.tx].pc.seen))
  {
    var tx := w.txs[e.tx];
    assert EntryOk(w, e.tx, tx) && DriftOk(w, e.tx, tx);
    SeenStays(w, After(w, e), e.tx, tx, tx.pc.seen);
  }

  lemma NoticesOneMore(ns: seq<Notice>, n: Notice, t: nat)
    ensures Notices(ns + [n], t) == Notices(ns, t) + if n.tx == t then 1 else 0
  {
    assert (ns + [n])[..|ns|] == ns;
  }

  lemma OthersCounts(w: Flow, e: Event, t: nat)
    requires NewsOk(w) && Enabled(w, e) && t != e.tx
    ensures CountsOk(After(w, e), t)
  {
    assert CountsOk(w, t);
    StepExtends(w, e);
    if e.TellTicket? { NoticesOneMore(w.ticketNotices, NoticeOf(w, e.tx, w.txs[e.tx].pc.seen), t); }
    if e.TellDashboard? { NoticesOneMore(w.dashboardNotices, NoticeOf(w, e.tx, w.txs[e.tx].pc.seen), t); }
    if t in w.txs { assert EntryOk(w, t, w.txs[t]); }
  }

  lemma TellCounts(w: Flow, e: Event)
    requires NewsOk(w) && Enabled(w, e) && (e.TellTicket? || e.TellDashboard?)
    ensures CountsOk(After(w, e), e.tx)
  {
    var t := e.tx;
    assert CountsOk(w, t);
    if e.TellTicket? { NoticesOneMore(w.ticketNotices, NoticeOf(w, t, w.txs[t].pc.seen), t); }
    if e.TellDashboard? { NoticesOneMore(w.dashboardNotices, NoticeOf(w, t, w.txs[t].pc.seen), t); }
  }

  lemma OwnCountsStay(w: Flow, e: Event)
    requires NewsOk(w) && Enabled(w, e) && !e.TellTicket? && !e.TellDashboard?
    ensures CountsOk(After(w, e), e.tx)
  {
    var t := e.tx;
    assert CountsOk(w, t);
    StepExtends(w, e);
    if t in w.txs {
      assert EntryOk(w, t, w.txs[t]);
      OwnCounts(w, e);
    }
  }

  lemma CountsStay(w: Flow, e: Event, t: nat)
    requires NewsOk(w) && Enabled(w, e)
    ensures CountsOk(After(w, e), t)
  {
    if t != e.tx { OthersCounts(w, e, t); }
    else if e.TellTicket? || e.TellDashboard? { TellCounts(w, e); }
    else { OwnCountsStay(w, e); }
  }

  /** A request finishes without telling the dashboard only when it changed no status. */
  lemma OwnCounts(w: Flow, e: Event)
    requires NewsOk(w) && Enabled(w, e) && e.tx in w.txs
    ensures var x := After(w, e);
      x.txs[e.tx].pc.Finished? && !e.TellDashboard? ==> !Changer(x, e.tx)
  {
    var tx := w.txs[e.tx];
    assert EntryOk(w, e.tx, tx) && DriftOk(w, e.tx, tx);
    OwnEntryStays(w, e);
  }

  lemma NoticesStay(w: Flow, e: Event)
    requires NewsOk(w) && Enabled(w, e)
    ensures var x := After(w, e);
      && (forall i :: 0 <= i < |x.ticketNotices| ==> NoticeOk(x, x.ticketNotices[i]))
      && (forall i :: 0 <= i < |x.dashboardNotices| ==> NoticeOk(x, x.dashboardNotices[i]))
  {
    var x := After(w, e);
    StepExtends(w, e);
    if e.TellTicket? || e.TellDashboard? { NewNotice(w, e); }
    forall i | 0 <= i < |x.ticketNotices| ensures NoticeOk(x, x.ticketNotices[i]) {
      if i < |w.ticketNotices| { NoticeStays(w, e, w.ticketNotices[i]); }
    }
    forall i | 0 <= i < |x.dashboardNotices| ensures NoticeOk(x, x.dashboardNotices[i]) {
      if i < |w.dashboardNotices| { NoticeStays(w, e, w.dashboardNotices[i]); }
    }
  }

  lemma StepKeepsNews(w: Flow, e: Event)
    requires NewsOk(w) && Enabled(w, e)
    ensures NewsOk(After(w, e))
  {
    var x := After(w, e);
    StepKeepsLocks(w, e);
    StepExtends(w, e);
    forall t | t in x.txs ensures EntryOk(x, t, x.txs[t]) && DriftOk(x, t, x.txs[t]) {
      if t == e.tx { OwnEntryStays(w, e); OwnDriftStays(w, e); } else { OthersStay(w, e, t); }
    }
    LinksStay(w, e);
    NoticesStay(w, e);
    forall t ensures CountsOk(x, t) { CountsStay(w, e, t); }
  }

  lemma {:induction false} RunKeepsNews(w: Flow, es: seq<Event>)
    requires NewsOk(w) && ValidRun(w, es)
    ensures NewsOk(End(w, es))
    decreases |es|
  {
    if es != [] {
      StepKeepsNews(w, es[0]);
      RunKeepsNews(After(w, es[0]), es[1..]);
    }
  }

  lemma ReachableNews(w: Flow)
    requires Reachable(w)
    ensures NewsOk(w)
  {
    var es :| ValidRun(Empty, es) && w == End(Empty, es);
    assert NewsOk(Empty);
    RunKeepsNews(Empty, es);
  }

  /** The committed change a notice is about. */
  ghost predicate Tells(w: Flow, n: Notice, k: nat) {
    k < |w.log| && w.log[k].tx == n.tx && IsChange(w.log[k], n.ticket) && w.log[k].outcome == Changed(n.from)
  }

  /** Every notice, on either channel, is about one committed status change and carries its old status.
      Its new status is the one found when the row was read back after the commit, without the lock:
      further along by every change committed in between. So it names the next status if and only if
      no other change of the ticket came in between. */
  lemma NoticesTellChanges(w: Flow, n: Notice)
    requires Reachable(w) && (n in w.ticketNotices || n in w.dashboardNotices)
    ensures n.tx in w.txs && w.txs[n.tx].entry.Some? && n.tx in w.readBack && w.readBack[n.tx] <= |w.log|
    ensures var k := w.txs[n.tx].entry.value;
      && Tells(w, n, k)
      && Rank(n.to) == Rank(n.from) + 1 + Changes(w.log, k + 1, w.readBack[n.tx], n.ticket)
      && (NextStatus(n.from) == Some(n.to) <==> Changes(w.log, k + 1, w.readBack[n.tx], n.ticket) == 0)
  {
    ReachableNews(w);
    assert NoticeOk(w, n);
  }

  /** Accounting: a request appears in the log once at most; each committed change is announced at most
      once per channel, on the dashboard only after the ticket's channel, and exactly once on both when
      its request has finished. */
  lemma NoticesAreAccounted(w: Flow, k: nat)
    requires Reachable(w) && k < |w.log|
    ensures var t := w.log[k].tx;
      && t in w.txs && w.txs[t].entry == Some(k) && w.txs[t].op == w.log[k].op
      && Notices(w.dashboardNotices, t) <= Notices(w.ticketNotices, t) <= 1
      && (w.log[k].outcome.Changed? && w.txs[t].pc.Finished? ==>
            Notices(w.dashboardNotices, t) == 1 && Notices(w.ticketNotices, t) == 1)
  {
    ReachableNews(w);
    var t := w.log[k].tx;
    assert CountsOk(w, t) && EntryOk(w, t, w.txs[t]);
  }

  /** Reading a status change back always finds the ticket: it can no longer be deleted. */
  lemma ChangesAreReadBack(w: Flow, t: nat)
    requires Reachable(w) && Enabled(w, Refresh(t)) && w.txs[t].op.ChangeStatus?
    ensures After(w, Refresh(t)).txs[t].pc.Refreshed?
  {
    ReachableNews(w);
    assert DriftOk(w, t, w.txs[t]);
  }

  /** A request that has read its status change back is always free to announce it: the guard on
      announcing keeps nobody from it. */
  lemma AnnouncementsAreNotHeldBack(w: Flow, t: nat)
    requires Reachable(w) && t in w.txs
    ensures w.txs[t].pc.Refreshed? ==> Changer(w, t) && Enabled(w, TellTicket(t))
    ensures w.txs[t].pc.ToldTicket? ==> Changer(w, t) && Enabled(w, TellDashboard(t))
  {
    ReachableNews(w);
    assert DriftOk(w, t, w.txs[t]);
  }

  /** A request whose mutation was refused announces nothing. */
  lemma RefusalsAreSilent(w: Flow, t: nat)
    requires Reachable(w) && t in w.txs && !Changer(w, t)
    ensures forall n :: n in w.ticketNotices || n in w.dashboardNotices ==> n.tx != t
  {
    forall n | n in w.ticketNotices || n in w.dashboardNotices ensures n.tx != t { NoticesTellChanges(w, n); }
  }

  /******* An announced pair need not be adjacent *******/

  lemma Extend(w: Flow, e: Event)
    requires Reachable(w) && Enabled(w, e)
    ensures Reachable(After(w, e))
  {
    var es :| ValidRun(Empty, es) && w == End(Empty, es);
    ExtendRun(Empty, es, e);
  }

  lemma {:induction false} ExtendRun(w: Flow, es: seq<Event>, e: Event)
    requires ValidRun(w, es) && Enabled(End(w, es), e)
    ensures ValidRun(w, es + [e]) && End(w, es + [e]) == After(End(w, es), e)
    decreases |es|
  {
    if es == [] {
      assert [e][1..] == [];
      assert ValidRun(After(w, e), []);
    } else {
      assert (es + [e])[1..] == es[1..] + [e];
      ExtendRun(After(w, es[0]), es[1..], e);
    }
  }

  lemma LockUndisturbed(w: Flow, t: nat, op: Op) returns (x: Flow)
    requires Reachable(w) && t !in w.txs && op.ChangeStatus? && op.id in w.db.tickets && op.id !in w.locks
    ensures Reachable(x) && x == w.(txs := w.txs[t := Tx(op, Holding(w.db.tickets[op.id]), None)],
      locks := w.locks[op.id := t])
  {
    Extend(w, Begin(t, op));
    var y := w.(txs := w.txs[t := Tx(op, Waiting, None)]);
    assert y == After(w, Begin(t, op));
    Extend(y, Lock(t));
    x := AfterLock(y, t);
    assert x.txs == w.txs[t := Tx(op, Holding(w.db.tickets[op.id]), None)];
  }

  lemma CommitUndisturbed(w: Flow, t: nat, op: Op, row: Ticket) returns (x: Flow)
    requires Reachable(w) && t in w.txs && w.txs[t] == Tx(op, Holding(row), None) && op.ChangeStatus?
    requires op.id in w.db.tickets && w.db.tickets[op.id] == row && NextStatus(row.status) == Some(op.newStatus)
    ensures Reachable(x) && x.locks == Released(w.locks, t)
    ensures x.db.tickets == w.db.tickets[op.id := row.(status := op.newStatus, updatedAt := op.at)]
    ensures x.txs == w.txs[t := Tx(op, Committed, Some(|w.log|))]
    ensures x.log == w.log + [Entry(t, op, Changed(row.status))] && x.ticketNotices == w.ticketNotices
  {
    Extend(w, Check(t));
    var y := w.(txs := w.txs[t := Tx(op, Checked(row), None)]);
    assert y == After(w, Check(t));
    Extend(y, Commit(t));
    x := AfterCommit(y, t);
  }

  /** A fresh request locks, checks and commits a status change without being disturbed. */
  lemma ChangeUndisturbed(w: Flow, t: nat, op: Op) returns (x: Flow)
    requires Reachable(w) && t !in w.txs && op.ChangeStatus? && op.id in w.db.tickets && op.id !in w.locks
    requires NextStatus(w.db.tickets[op.id].status) == Some(op.newStatus)
    ensures Reachable(x) && op.id !in x.locks
    ensures x.db.tickets == w.db.tickets[op.id := w.db.tickets[op.id].(status := op.newStatus, updatedAt := op.at)]
    ensures x.txs == w.txs[t := Tx(op, Committed, Some(|w.log|))]
    ensures x.log == w.log + [Entry(t, op, Changed(w.db.tickets[op.id].status))] && x.ticketNotices == w.ticketNotices
  {
    var y := LockUndisturbed(w, t, op);
    x := CommitUndisturbed(y, t, op, w.db.tickets[op.id]);
  }

  lemma CreateUndisturbed(op: Op) returns (w: Flow)
    requires op.Create?
    ensures Reachable(w) && w.db.tickets == map[op.id := NewTicket(op)] && w.locks == map[]
    ensures w.txs.Keys == {0} && w.log == [Entry(0, op, Succeeded)] && w.ticketNotices == []
  {
    assert ValidRun(Empty, []) && Empty == End(Empty, []);
    Extend(Empty, Begin(0, op));
    var y := After(Empty, Begin(0, op));
    Extend(y, Commit(0));
    w := AfterCommit(y, 0);
  }

  /** A committed change is read back and announced on the ticket's channel. */
  lemma Announce(w: Flow, t: nat, k: nat) returns (x: Flow)
    requires Reachable(w) && t in w.txs && w.txs[t].pc.Committed? && w.txs[t].op.ChangeStatus?
        && w.txs[t].op.id in w.db.tickets
    requires w.txs[t].entry == Some(k) && k < |w.log| && w.log[k].outcome.Changed?
    ensures Reachable(x)
    ensures Notice(t, w.txs[t].op.id, w.log[k].outcome.from, w.db.tickets[w.txs[t].op.id].status) in x.ticketNotices
  {
    Extend(w, Refresh(t));
    var y := AfterRefresh(w, t);
    assert y == After(w, Refresh(t));
    Extend(y, TellTicket(t));
    x := After(y, TellTicket(t));
    assert x.ticketNotices[|x.ticketNotices| - 1]
        == Notice(t, w.txs[t].op.id, w.log[k].outcome.from, w.db.tickets[w.txs[t].op.id].status);
  }

  /** One agent starts work and commits; before the status is read back another agent resolves the
      ticket; the first agent's notice then says OPEN to RESOLVED, which no request ever did. */
  lemma NoticeMaySkip(ticket: Op, first: Op, second: Op) returns (w: Flow)
    requires ticket.Create? && first.ChangeStatus? && second.ChangeStatus? && first.id == second.id == ticket.id
    requires first.newStatus == InProgress && second.newStatus == Resolved
    ensures Reachable(w) && Notice(1, ticket.id, Open, Resolved) in w.ticketNotices
    ensures NextStatus(Open) != Some(Resolved)
  {
    var w2 := CreateUndisturbed(ticket);
    var w3 := ChangeUndisturbed(w2, 1, first);
    var w4 := ChangeUndisturbed(w3, 2, second);
    w := Announce(w4, 1, 1);
  }

  /******* A committed mutation may fail when it is read back *******/

  predicate IsDeletion(e: Entry, id: Uuid) {
    e.op.Delete? && e.op.id == id && e.outcome == Succeeded
  }

  /** The log records a deletion of the ticket at or after position `from`. */
  predicate DeletedSince(log: seq<Entry>, from: nat, id: Uuid) {
    exists k :: from <= k < |log| && IsDeletion(log[k], id)
  }

  lemma DeletedOneMore(log: seq<Entry>, e: Entry, from: nat, id: Uuid)
    requires from <= |log|
    ensures DeletedSince(log + [e], from, id) <==> DeletedSince(log, from, id) || IsDeletion(e, id)
  {
    var more := log + [e];
    if DeletedSince(log, from, id) {
      var k :| from <= k < |log| && IsDeletion(log[k], id);
      assert more[k] == log[k];
    }
    if IsDeletion(e, id) { assert more[|log|] == e; }
    if DeletedSince(more, from, id) && !IsDeletion(e, id) {
      var k :| from <= k < |more| && IsDeletion(more[k], id);
      assert log[k] == more[k];
    }
  }

  /** The ticket of a committed mutation is there exactly as long as nobody has deleted it since. */
  ghost predicate RowOk(w: Flow, x: Tx) {
    x.pc.Committed? ==>
      && x.entry.Some? && x.entry.value < |w.log| && x.op.id in w.used
      && (x.op.id in w.db.tickets <==> !DeletedSince(w.log, x.entry.value + 1, x.op.id))
  }

  ghost predicate RowsOk(w: Flow) {
    LocksOk(w) && forall t :: t in w.txs ==> RowOk(w, w.txs[t])
  }

  /** A decision takes a known ticket away exactly when it is its deletion, and never brings it back. */
  lemma DecisionKeepsRow(w: Flow, e: Event, x: Tx)
    requires LocksOk(w) && Enabled(w, e) && Decides(w, After(w, e), e) && RowOk(w, x)
    ensures RowOk(After(w, e), x)
  {
    if x.pc.Committed? {
      var op := w.txs[e.tx].op;
      AtomicKeys(w.db, op);
      DeletedOneMore(w.log, Entry(e.tx, op, Atomic(w.db, op).1), x.entry.value + 1, x.op.id);
      UsedGrows(w, e);
    }
  }

  lemma OtherRowStays(w: Flow, e: Event, x: Tx)
    requires LocksOk(w) && Enabled(w, e) && RowOk(w, x)
    ensures RowOk(After(w, e), x)
  {
    StepRefinesAtomic(w, e);
    if Decides(w, After(w, e), e) { DecisionKeepsRow(w, e, x); } else { UsedGrows(w, e); }
  }

  lemma OwnRowStays(w: Flow, e: Event)
    requires LocksOk(w) && Enabled(w, e) && e.tx in After(w, e).txs && After(w, e).txs[e.tx].pc.Committed?
    ensures RowOk(After(w, e), After(w, e).txs[e.tx])
  {
    if e.Commit? {
      assert TxOk(w, e.tx, w.txs[e.tx]);
      CommitIsAtomic(w, e.tx);
      AtomicKeys(w.db, w.txs[e.tx].op);
    }
  }

  lemma StepKeepsRows(w: Flow, e: Event)
    requires RowsOk(w) && Enabled(w, e)
    ensures RowsOk(After(w, e))
  {
    var x := After(w, e);
    StepKeepsLocks(w, e);
    StepExtends(w, e);
    forall t | t in x.txs ensures RowOk(x, x.txs[t]) {
      if t == e.tx {
        if x.txs[t].pc.Committed? { OwnRowStays(w, e); }
      } else {
        OtherRowStays(w, e, w.txs[t]);
      }
    }
  }

  lemma {:induction false} RunKeepsRows(w: Flow, es: seq<Event>)
    requires RowsOk(w) && ValidRun(w, es)
    ensures RowsOk(End(w, es))
    decreases |es|
  {
    if es != [] {
      StepKeepsRows(w, es[0]);
      RunKeepsRows(After(w, es[0]), es[1..]);
    }
  }

  /** Reading a committed mutation back fails, and the request ends before it reaches the caches, if
      and only if the ticket's deletion was committed after it. */
  lemma ReadBackFailsExactly(w: Flow, t: nat)
    requires Reachable(w) && Enabled(w, Refresh(t))
    ensures w.txs[t].entry.Some?
    ensures After(w, Refresh(t)).txs[t].pc.Failed? <==>
      DeletedSince(w.log, w.txs[t].entry.value + 1, w.txs[t].op.id)
  {
    var es :| ValidRun(Empty, es) && w == End(Empty, es);
    assert RowsOk(Empty);
    RunKeepsRows(Empty, es);
    assert RowOk(w, w.txs[t]);
  }

  /** A fresh request locks, checks and commits an edit or a deletion without being disturbed. */
  lemma OwnerUndisturbed(w: Flow, t: nat, op: Op) returns (x: Flow)
    requires Reachable(w) && t !in w.txs && w.locks == map[] && (op.Edit? || op.Delete?)
    requires Accessible(w.db.tickets, op) && w.db.tickets[op.id].status.Open?
    ensures Reachable(x) && x.locks == map[] && x.log == w.log + [Entry(t, op, Succeeded)]
    ensures x.txs == w.txs[t := Tx(op, if op.Delete? then Finished else Committed, Some(|w.log|))]
    ensures x.db == Effect(w.db, op)
  {
    var row := w.db.tickets[op.id];
    var held := w.txs[t := Tx(op, Holding(row), None)];
    Extend(w, Begin(t, op));
    var a := w.(txs := w.txs[t := Tx(op, Waiting, None)]);
    assert a == After(w, Begin(t, op));
    Extend(a, Lock(t));
    var b := w.(txs := held, locks := map[op.id := t]);
    assert a.txs[t := Tx(op, Holding(row), None)] == held;
    assert b == AfterLock(a, t) == After(a, Lock(t));
    x := CheckAndCommit(b, t, op, row);
    assert held[t := Tx(op, if op.Delete? then Finished else Committed, Some(|w.log|))]
        == w.txs[t := Tx(op, if op.Delete? then Finished else Committed, Some(|w.log|))];
  }

  lemma CheckAndCommit(w: Flow, t: nat, op: Op, row: Ticket) returns (x: Flow)
    requires Reachable(w) && t in w.txs && w.txs[t] == Tx(op, Holding(row), None) && (op.Edit? || op.Delete?)
    requires op.id in w.db.tickets && w.db.tickets[op.id] == row && row.status.Open? && w.locks == map[op.id := t]
    ensures Reachable(x) && x.locks == map[] && x.log == w.log + [Entry(t, op, Succeeded)]
    ensures x.txs == w.txs[t := Tx(op, if op.Delete? then Finished else Committed, Some(|w.log|))]
    ensures x.db == Effect(w.db, op)
  {
    hide Write, Effect;
    Extend(w, Check(t));
    var y := w.(txs := w.txs[t := Tx(op, Checked(row), None)]);
    assert y == After(w, Check(t));
    Extend(y, Commit(t));
    x := AfterCommit(y, t);
    WriteIsEffect(w.db, op);
  }

  lemma WriteIsEffect(db: Database, op: Op)
    requires op.Create? || op.id in db.tickets
    ensures Write(db, op, if op.Create? then NewTicket(op) else db.tickets[op.id]) == Effect(db, op)
  {
    if op.Edit? { assert db.tickets[op.id := db.tickets[op.id]] == db.tickets; }
  }

  /** It does happen: an owner's edit commits, the owner's deletion of the ticket commits, and the edit
      is read back too late. */
  lemma EditMayFailAfterCommit(ticket: Op, edit: Op, delete: Op) returns (w: Flow)
    requires ticket.Create? && edit.Edit? && delete.Delete? && edit.id == delete.id == ticket.id
    requires edit.customer == delete.customer == ticket.customer
    ensures Reachable(w) && 1 in w.txs && w.txs[1].op == edit && w.txs[1].pc.Failed?
    ensures Entry(1, edit, Succeeded) in w.log
  {
    var a := CreateUndisturbed(ticket);
    var b := OwnerUndisturbed(a, 1, edit);
    var c := OwnerUndisturbed(b, 2, delete);
    Extend(c, Refresh(1));
    w := AfterRefresh(c, 1);
    assert w == After(c, Refresh(1));
    assert w.log[1] == Entry(1, edit, Succeeded);
  }
}
