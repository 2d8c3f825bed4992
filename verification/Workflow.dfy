/** Ticket mutations under row locks: requests that lock, check, commit, read back and notify, in any
    interleaving. */
module Workflow {
  import opened Domain
  import opened TicketOps

  /******* States *******/

  /** `Holding` and `Checked` carry the row as it was read when the lock was granted. After a status
      change is committed the row is read again, without lock, and `seen` is the status found then. */
  datatype Pc =
    | Waiting
    | Holding(row: Ticket)
    | Checked(row: Ticket)
    | Committed
    | Refreshed(seen: TicketStatus)
    | ToldTicket(seen: TicketStatus)
    | Finished
    | Failed
    | Gone

  /** `entry` is where the request's outcome stands in the log. */
  datatype Tx = Tx(op: Op, pc: Pc, entry: Option<nat>)

  datatype Entry = Entry(tx: nat, op: Op, outcome: Outcome)

  /** A ticket.status_changed message, on the ticket's channel or on the dashboard's. */
  datatype Notice = Notice(tx: nat, ticket: Uuid, from: TicketStatus, to: TicketStatus)

  /** `log` lists the outcomes in the order in which they were decided, `used` all ids ever given to
      tickets, `readBack` for every request that read its row back the length of the log then. */
  datatype Flow = Flow(
    db: Database,
    locks: map<Uuid, nat>,
    txs: map<nat, Tx>,
    log: seq<Entry>,
    used: set<Uuid>,
    readBack: map<nat, nat>,
    ticketNotices: seq<Notice>,
    dashboardNotices: seq<Notice>)

  const Empty := Flow(Database(map[], map[]), map[], map[], [], {}, map[], [], [])

  datatype Event =
    | Begin(tx: nat, op: Op)
    | Lock(tx: nat)
    | Check(tx: nat)
    | Commit(tx: nat)
    | Refresh(tx: nat)
    | TellTicket(tx: nat)
    | TellDashboard(tx: nat)
    | Abort(tx: nat)

  /** A row lock makes others wait, but only for rows they may access; new tickets get fresh ids. */
  predicate Enabled(w: Flow, e: Event) {
    match e
    case Begin(t, _) => t !in w.txs
    case Lock(t) => t in w.txs && w.txs[t].pc.Waiting? && !w.txs[t].op.Create?
      && (Accessible(w.db.tickets, w.txs[t].op) ==> w.txs[t].op.id !in w.locks)
    case Check(t) => t in w.txs && w.txs[t].pc.Holding?
    case Commit(t) => t in w.txs &&
      if w.txs[t].op.Create? then w.txs[t].pc.Waiting? && w.txs[t].op.id !in w.used
      else w.txs[t].pc.Checked? && w.txs[t].op.id in w.db.tickets
    case Refresh(t) => t in w.txs && w.txs[t].pc.Committed?
    case TellTicket(t) => t in w.txs && w.txs[t].pc.Refreshed? && Changer(w, t)
    case TellDashboard(t) => t in w.txs && w.txs[t].pc.ToldTicket? && Changer(w, t)
    case Abort(t) => t in w.txs && !w.txs[t].pc.Finished? && !w.txs[t].pc.Failed?
  }

  /** The request's logged outcome is a status change. */
  predicate Changer(w: Flow, t: nat)
    requires t in w.txs
  {
    w.txs[t].entry.Some? && w.txs[t].entry.value < |w.log| && w.log[w.txs[t].entry.value].outcome.Changed?
  }

  /******* Steps *******/

  function To(w: Flow, t: nat, pc: Pc): Flow
    requires t in w.txs
  {
    w.(txs := w.txs[t := w.txs[t].(pc := pc)])
  }

  /** Logs the outcome of a request and lets its lock go. */
  function Settle(w: Flow, t: nat, pc: Pc, outcome: Outcome): Flow
    requires t in w.txs
  {
    var op := w.txs[t].op;
    w.(txs := w.txs[t := Tx(op, pc, Some(|w.log|))],
       log := w.log + [Entry(t, op, outcome)],
       locks := Released(w.locks, t))
  }

  function Released(locks: map<Uuid, nat>, t: nat): map<Uuid, nat> {
    map id | id in locks && locks[id] != t :: locks[id]
  }

  function AfterLock(w: Flow, t: nat): Flow
    requires t in w.txs
  {
    var op := w.txs[t].op;
    if !Accessible(w.db.tickets, op) then Settle(w, t, Finished, NotFound)
    else To(w, t, Holding(w.db.tickets[op.id])).(locks := w.locks[op.id := t])
  }

  function AfterCheck(w: Flow, t: nat): Flow
    requires t in w.txs && w.txs[t].pc.Holding?
  {
    match Refusal(w.txs[t].op, w.txs[t].pc.row)
    case Some(refused) => Settle(w, t, Finished, refused)
    case None => To(w, t, Checked(w.txs[t].pc.row))
  }

  /** The statements a commit makes permanent: the columns the request changed in the row it had read,
      written over the row as it is. */
  function Write(db: Database, op: Op, row: Ticket): Database
    requires op.Create? || op.id in db.tickets
  {
    match op
    case Create(id, _, _, _, _, _, _) => Database(db.tickets[id := NewTicket(op)], db.comments[id := []])
    case Edit(id, _, us, at) =>
      if Updated(row, us) == row then db
      else db.(tickets := db.tickets[id := Updated(db.tickets[id], us).(updatedAt := at)])
    case Delete(id, _) => Database(db.tickets - {id}, db.comments - {id})
    case ChangeStatus(id, _, s, at) => db.(tickets := db.tickets[id := db.tickets[id].(status := s, updatedAt := at)])
    case AddComment(id, _, _) => db.(comments := db.comments[id := CommentsOf(db, id) + [NewComment(op)]])
  }

  function AfterCommit(w: Flow, t: nat): Flow
    requires Enabled(w, Commit(t))
  {
    var op := w.txs[t].op;
    var row := if op.Create? then NewTicket(op) else w.txs[t].pc.row;
    var outcome := if op.ChangeStatus? then Changed(row.status) else Succeeded;
    Settle(w, t, if op.Delete? then Finished else Committed, outcome).(
      db := Write(w.db, op, row),
      used := if op.Create? then w.used + {op.id} else w.used)
  }

  /** Reading a row back that is gone is an error; the request then ends without notifying. */
  function AfterRefresh(w: Flow, t: nat): Flow
    requires t in w.txs
  {
    var op := w.txs[t].op;
    if op.id !in w.db.tickets then To(w, t, Failed)
    else To(w, t, if op.ChangeStatus? then Refreshed(w.db.tickets[op.id].status) else Finished)
           .(readBack := w.readBack[t := |w.log|])
  }

  function NoticeOf(w: Flow, t: nat, seen: TicketStatus): Notice
    requires t in w.txs && Changer(w, t)
  {
    Notice(t, w.txs[t].op.id, w.log[w.txs[t].entry.value].outcome.from, seen)
  }

  function After(w: Flow, e: Event): Flow
    requires Enabled(w, e)
  {
    match e
    case Begin(t, op) => w.(txs := w.txs[t := Tx(op, Waiting, None)])
    case Lock(t) => AfterLock(w, t)
    case Check(t) => AfterCheck(w, t)
    case Commit(t) => AfterCommit(w, t)
    case Refresh(t) => AfterRefresh(w, t)
    case TellTicket(t) =>
      To(w, t, ToldTicket(w.txs[t].pc.seen)).(ticketNotices := w.ticketNotices + [NoticeOf(w, t, w.txs[t].pc.seen)])
    case TellDashboard(t) =>
      To(w, t, Finished).(dashboardNotices := w.dashboardNotices + [NoticeOf(w, t, w.txs[t].pc.seen)])
    case Abort(t) => To(w, t, Gone).(locks := Released(w.locks, t))
  }

  ghost predicate ValidRun(w: Flow, es: seq<Event>)
    decreases |es|
  {
    es == [] || (Enabled(w, es[0]) && ValidRun(After(w, es[0]), es[1..]))
  }

  ghost function End(w: Flow, es: seq<Event>): Flow
    requires ValidRun(w, es)
    decreases |es|
  {
    if es == [] then w else End(After(w, es[0]), es[1..])
  }

  ghost predicate Reachable(w: Flow) {
    exists es :: ValidRun(Empty, es) && w == End(Empty, es)
  }

  /******* Locks *******/

  /** A request past its lock holds the row's lock, and the row is still as it read it. */
  ghost predicate TxOk(w: Flow, t: nat, x: Tx) {
    x.pc.Holding? || x.pc.Checked? ==>
      && !x.op.Create? && x.op.id in w.locks && w.locks[x.op.id] == t
      && Accessible(w.db.tickets, x.op) && w.db.tickets[x.op.id] == x.pc.row
      && (x.pc.Checked? ==> Refusal(x.op, x.pc.row).None?)
  }

  ghost predicate LocksOk(w: Flow) {
    && (forall id :: id in w.locks ==>
          w.locks[id] in w.txs && w.txs[w.locks[id]].op.id == id
              && (w.txs[w.locks[id]].pc.Holding? || w.txs[w.locks[id]].pc.Checked?))
    && (forall t :: t in w.txs ==> TxOk(w, t, w.txs[t]))
    && w.db.tickets.Keys <= w.used && w.db.comments.Keys == w.db.tickets.Keys
  }

  lemma SettleKeepsLocks(w: Flow, t: nat, pc: Pc, outcome: Outcome)
    requires LocksOk(w) && t in w.txs && !pc.Holding? && !pc.Checked?
    ensures LocksOk(Settle(w, t, pc, outcome))
  {
    var x := Settle(w, t, pc, outcome);
    forall u | u in x.txs ensures TxOk(x, u, x.txs[u]) {
      if u != t { assert TxOk(w, u, w.txs[u]); }
    }
  }

  lemma WriteChangesOneRow(db: Database, op: Op, row: Ticket)
    requires op.Create? || op.id in db.tickets
    requires db.comments.Keys == db.tickets.Keys
    ensures var r := Write(db, op, row);
      && r.comments.Keys == r.tickets.Keys && r.tickets.Keys <= db.tickets.Keys + {op.id}
      && (op.Create? || r.tickets.Keys <= db.tickets.Keys)
      && forall id :: id != op.id && id in db.tickets ==> id in r.tickets && r.tickets[id] == db.tickets[id]
  {
  }

  /** Only the row that is committed changes, and nobody else has read it. */
  lemma CommitKeepsOthers(w: Flow, t: nat, db: Database, u: nat)
    requires LocksOk(w) && t in w.txs && u in w.txs && u != t
    requires w.txs[t].pc.Checked? || w.txs[t].op.id !in w.db.tickets
    requires forall id :: id != w.txs[t].op.id && id in w.db.tickets ==>
        id in db.tickets && db.tickets[id] == w.db.tickets[id]
    ensures TxOk(w.(db := db, locks := Released(w.locks, t)), u, w.txs[u])
  {
    assert TxOk(w, u, w.txs[u]) && TxOk(w, t, w.txs[t]);
  }

  lemma CommitKeepsLocks(w: Flow, t: nat)
    requires LocksOk(w) && Enabled(w, Commit(t))
    ensures LocksOk(AfterCommit(w, t))
  {
    var x := AfterCommit(w, t);
    var op := w.txs[t].op;
    var row := if op.Create? then NewTicket(op) else w.txs[t].pc.row;
    WriteChangesOneRow(w.db, op, row);
    assert x.db == Write(w.db, op, row) && x.locks == Released(w.locks, t);
    forall u | u in x.txs ensures TxOk(x, u, x.txs[u]) {
      if u != t { CommitKeepsOthers(w, t, x.db, u); }
    }
  }

  lemma GrantKeepsLocks(w: Flow, t: nat)
    requires LocksOk(w) && Enabled(w, Lock(t)) && Accessible(w.db.tickets, w.txs[t].op)
    ensures LocksOk(AfterLock(w, t))
  {
    var x := AfterLock(w, t);
    forall u | u in x.txs ensures TxOk(x, u, x.txs[u]) { assert TxOk(w, u, w.txs[u]); }
  }

  /** Moving on without touching rows or other requests' locks. */
  lemma MoveKeepsLocks(w: Flow, t: nat, pc: Pc, locks: map<Uuid, nat>)
    requires LocksOk(w) && t in w.txs && TxOk(w, t, w.txs[t].(pc := pc))
    requires if pc.Holding? || pc.Checked? then w.txs[t].pc.Holding? && locks == w.locks
        else locks == Released(w.locks, t)
    ensures LocksOk(To(w, t, pc).(locks := locks))
  {
    var x := To(w, t, pc).(locks := locks);
    forall u | u in x.txs ensures TxOk(x, u, x.txs[u]) { assert TxOk(w, u, w.txs[u]); }
  }

  lemma NothingToRelease(w: Flow, t: nat)
    requires LocksOk(w) && (t in w.txs ==> !w.txs[t].pc.Holding? && !w.txs[t].pc.Checked?)
    ensures Released(w.locks, t) == w.locks
  {
  }

  lemma SameTablesKeepLocks(w: Flow, x: Flow)
    requires LocksOk(w) && x.db == w.db && x.locks == w.locks && x.txs == w.txs && x.used == w.used
    ensures LocksOk(x)
  {
    forall t | t in x.txs ensures TxOk(x, t, x.txs[t]) { assert TxOk(w, t, w.txs[t]); }
  }

  lemma StepKeepsLocks(w: Flow, e: Event)
    requires LocksOk(w) && Enabled(w, e)
    ensures LocksOk(After(w, e))
  {
    var t := e.tx;
    assert t in w.txs ==> TxOk(w, t, w.txs[t]);
    match e
    case Begin(_, op) =>
      var x := After(w, e);
      forall u | u in x.txs ensures TxOk(x, u, x.txs[u]) { if u in w.txs { assert TxOk(w, u, w.txs[u]); } }
    case Lock(_) =>
      if Accessible(w.db.tickets, w.txs[t].op) {
        GrantKeepsLocks(w, t);
      } else {
        SettleKeepsLocks(w, t, Finished, NotFound);
      }
    case Check(_) =>
      match Refusal(w.txs[t].op, w.txs[t].pc.row) {
        case Some(refused) => SettleKeepsLocks(w, t, Finished, refused);
        case None => MoveKeepsLocks(w, t, Checked(w.txs[t].pc.row), w.locks);
      }
    case Commit(_) => CommitKeepsLocks(w, t);
    case Abort(_) => MoveKeepsLocks(w, t, Gone, Released(w.locks, t));
    case Refresh(_) =>
      NothingToRelease(w, t);
      MoveKeepsLocks(w, t, After(w, e).txs[t].pc, w.locks);
      SameTablesKeepLocks(To(w, t, After(w, e).txs[t].pc), After(w, e));
    case TellTicket(_) =>
      NothingToRelease(w, t);
      MoveKeepsLocks(w, t, ToldTicket(w.txs[t].pc.seen), w.locks);
      SameTablesKeepLocks(To(w, t, ToldTicket(w.txs[t].pc.seen)), After(w, e));
    case TellDashboard(_) =>
      NothingToRelease(w, t);
      MoveKeepsLocks(w, t, Finished, w.locks);
      SameTablesKeepLocks(To(w, t, Finished), After(w, e));
  }

  /******* Every step is a stutter or one atomic mutation *******/

  /** The request's mutation happened at once, with the outcome that is logged. */
  ghost predicate Decides(w: Flow, x: Flow, e: Event) {
    && e.tx in w.txs
    && var op := w.txs[e.tx].op;
       var (db, outcome) := Atomic(w.db, op);
       x.db == db && x.log == w.log + [Entry(e.tx, op, outcome)] && (op.Create? ==> op.id !in w.used)
  }

  ghost predicate Stutters(w: Flow, x: Flow) {
    x.db == w.db && x.log == w.log
  }

  lemma CommitIsAtomic(w: Flow, t: nat)
    requires LocksOk(w) && Enabled(w, Commit(t))
    ensures Decides(w, AfterCommit(w, t), Commit(t))
  {
    assert TxOk(w, t, w.txs[t]);
    var op := w.txs[t].op;
    if op.Edit? {
      var row := w.db.tickets[op.id];
      assert w.db.tickets[op.id := row] == w.db.tickets;
    }
  }

  /** Refinement: a locked mutation takes effect where it is decided, and nowhere else. */
  lemma StepRefinesAtomic(w: Flow, e: Event)
    requires LocksOk(w) && Enabled(w, e)
    ensures Decides(w, After(w, e), e) || Stutters(w, After(w, e))
    ensures e.Commit? ==> Decides(w, After(w, e), e)
    ensures e.Begin? || e.Refresh? || e.TellTicket? || e.TellDashboard? || e.Abort? ==> Stutters(w, After(w, e))
  {
    if e.Commit? { CommitIsAtomic(w, e.tx); }
    if e.Check? { assert TxOk(w, e.tx, w.txs[e.tx]); }
  }

  /** The log, read as mutations run one after the other, leads from `db` to `end` with the outcomes
      it records. */
  ghost predicate Explains(db: Database, log: seq<Entry>, end: Database)
    decreases |log|
  {
    if log == [] then db == end
    else Atomic(db, log[0].op).1 == log[0].outcome && Explains(Atomic(db, log[0].op).0, log[1..], end)
  }

  lemma {:induction false} ExplainsOneMore(db: Database, log: seq<Entry>, mid: Database, e: Entry)
    requires Explains(db, log, mid) && Atomic(mid, e.op).1 == e.outcome
    ensures Explains(db, log + [e], Atomic(mid, e.op).0)
    decreases |log|
  {
    if log == [] {
      assert (log + [e])[1..] == [];
      assert Explains(Atomic(mid, e.op).0, [], Atomic(mid, e.op).0);
    } else {
      assert (log + [e])[1..] == log[1..] + [e];
      ExplainsOneMore(Atomic(db, log[0].op).0, log[1..], mid, e);
    }
  }

  /** Serialisability: after any run the database and all outcomes are those of running the decided
      mutations one at a time, in the order in which they were decided. */
  lemma {:induction false} RunsAreSerialisable(w: Flow, es: seq<Event>, start: Database)
    requires LocksOk(w) && Explains(start, w.log, w.db) && ValidRun(w, es)
    ensures LocksOk(End(w, es)) && Explains(start, End(w, es).log, End(w, es).db)
    decreases |es|
  {
    if es != [] {
      StepKeepsLocks(w, es[0]);
      StepRefinesAtomic(w, es[0]);
      var x := After(w, es[0]);
      if Decides(w, x, es[0]) {
        ExplainsOneMore(start, w.log, w.db, x.log[|w.log|]);
      }
      RunsAreSerialisable(x, es[1..], start);
    }
  }

  /** Every outcome a request was given is the logged one. */
  lemma ReachableIsSerialisable(w: Flow)
    requires Reachable(w)
    ensures LocksOk(w) && Explains(Empty.db, w.log, w.db)
  {
    var es :| ValidRun(Empty, es) && w == End(Empty, es);
    RunsAreSerialisable(Empty, es, Empty.db);
  }
}
