/** Who may do what over every run of the ticket workflow, and that it can be done. */
module WorkflowAccess {
  import opened Domain
  import opened TicketOps
  import opened Workflow
  import opened WorkflowTheorems

  /******* Ownership *******/

  predicate Creates(e: Entry, id: Uuid) {
    e.op.Create? && e.op.id == id && e.outcome == Succeeded
  }

  /** An edit or deletion by a customer other than `owner`, or such a customer's comment. */
  predicate Foreign(op: Op, owner: Uuid) {
    || ((op.Edit? || op.Delete?) && op.customer != owner)
    || (op.AddComment? && op.user.role == Customer && op.user.id != owner)
  }

  /** A ticket belongs to the customer who created it, and only known tickets are ever found. */
  ghost predicate OwnersOk(w: Flow) {
    && LocksOk(w)
    && (forall j :: 0 <= j < |w.log| && w.log[j].op.Create? && w.log[j].outcome == Succeeded ==>
          w.log[j].op.id in w.used
          && (w.log[j].op.id in w.db.tickets ==> w.db.tickets[w.log[j].op.id].customerId == w.log[j].op.customer))
    && (forall k :: 0 <= k < |w.log| ==> w.log[k].op.id in w.used || w.log[k].outcome == NotFound)
    && (forall j, k :: 0 <= j < |w.log| && 0 <= k < |w.log| ==>
          Creates(w.log[j], w.log[k].op.id) ==> Foreign(w.log[k].op, w.log[j].op.customer) ==>
            w.log[k].outcome == NotFound)
  }

  /** No mutation changes hands: only a creation says whose a ticket is. */
  lemma OwnerStays(db: Database, op: Op, id: Uuid)
    requires id in Atomic(db, op).0.tickets
    ensures if id in db.tickets then Atomic(db, op).0.tickets[id].customerId == db.tickets[id].customerId
      else op.Create? && op.id == id && Atomic(db, op).0.tickets[id].customerId == op.customer
  {
  }

  lemma ForeignIsNotFound(db: Database, op: Op, owner: Uuid)
    requires Foreign(op, owner) && (op.id in db.tickets ==> db.tickets[op.id].customerId == owner)
    ensures Atomic(db, op).1 == NotFound
  {
    if op.id in db.tickets { OwnershipDecides(db, op); }
  }

  lemma DecidedEntry(w: Flow, e: Event) returns (n: Entry)
    requires OwnersOk(w) && Enabled(w, e) && Decides(w, After(w, e), e)
    ensures n == Entry(e.tx, w.txs[e.tx].op, Atomic(w.db, w.txs[e.tx].op).1) && After(w, e).log == w.log + [n]
    ensures After(w, e).db == Atomic(w.db, n.op).0 && (n.op.Create? ==> n.op.id !in w.used && n.outcome == Succeeded)
    ensures After(w, e).used == w.used + if n.op.Create? then {n.op.id} else {}
    ensures n.op.id in After(w, e).used || n.outcome == NotFound
  {
    n := Entry(e.tx, w.txs[e.tx].op, Atomic(w.db, w.txs[e.tx].op).1);
    UsedGrows(w, e);
    CreationsCommit(w, e);
  }

  lemma DecisionKeepsOwners(w: Flow, e: Event)
    requires OwnersOk(w) && Enabled(w, e) && Decides(w, After(w, e), e)
    ensures OwnersOk(After(w, e))
  {
    StepKeepsLocks(w, e);
    var n := DecidedEntry(w, e);
    hide After, Atomic, LocksOk;
    var x := After(w, e);
    forall j | 0 <= j < |x.log| && x.log[j].op.Create? && x.log[j].outcome == Succeeded
      ensures x.log[j].op.id in x.used
      ensures x.log[j].op.id in x.db.tickets ==> x.db.tickets[x.log[j].op.id].customerId == x.log[j].op.customer
    {
      CreatorOwns(w, x, n, j);
    }
    forall k | 0 <= k < |x.log| ensures x.log[k].op.id in x.used || x.log[k].outcome == NotFound {
      if k < |w.log| { assert x.log[k] == w.log[k]; }
    }
    forall j, k | 0 <= j < |x.log| && 0 <= k < |x.log| && Creates(x.log[j], x.log[k].op.id)
                  && Foreign(x.log[k].op, x.log[j].op.customer)
      ensures x.log[k].outcome == NotFound
    {
      ForeignersFindNothingYet(w, x, n, j, k);
    }
  }

  ghost predicate Extended(w: Flow, x: Flow, n: Entry) {
    && OwnersOk(w) && x.log == w.log + [n] && x.db == Atomic(w.db, n.op).0 && n.outcome == Atomic(w.db, n.op).1
    && x.used == w.used + (if n.op.Create? then {n.op.id} else {}) && (n.op.Create? ==> n.op.id !in w.used)
  }

  lemma CreatorOwns(w: Flow, x: Flow, n: Entry, j: nat)
    requires Extended(w, x, n) && j < |x.log| && x.log[j].op.Create? && x.log[j].outcome == Succeeded
    ensures x.log[j].op.id in x.used
    ensures x.log[j].op.id in x.db.tickets ==> x.db.tickets[x.log[j].op.id].customerId == x.log[j].op.customer
  {
    if j < |w.log| { assert x.log[j] == w.log[j]; }
    if x.log[j].op.id in x.db.tickets { OwnerStays(w.db, n.op, x.log[j].op.id); }
  }

  lemma ForeignersFindNothingYet(w: Flow, x: Flow, n: Entry, j: nat, k: nat)
    requires Extended(w, x, n) && j < |x.log| && k < |x.log|
    requires Creates(x.log[j], x.log[k].op.id) && Foreign(x.log[k].op, x.log[j].op.customer)
    ensures x.log[k].outcome == NotFound
  {
    if k < |w.log| { assert x.log[k] == w.log[k]; }
    if j < |w.log| {
      assert x.log[j] == w.log[j];
      if k == |w.log| { ForeignIsNotFound(w.db, n.op, x.log[j].op.customer); }
    }
  }

  lemma StepKeepsOwners(w: Flow, e: Event)
    requires OwnersOk(w) && Enabled(w, e)
    ensures OwnersOk(After(w, e))
  {
    StepRefinesAtomic(w, e);
    if Decides(w, After(w, e), e) {
      DecisionKeepsOwners(w, e);
    } else {
      StepKeepsLocks(w, e);
      UsedGrows(w, e);
    }
  }

  lemma {:induction false} RunKeepsOwners(w: Flow, es: seq<Event>)
    requires OwnersOk(w) && ValidRun(w, es)
    ensures OwnersOk(End(w, es))
    decreases |es|
  {
    if es != [] {
      StepKeepsOwners(w, es[0]);
      RunKeepsOwners(After(w, es[0]), es[1..]);
    }
  }

  /** In every run: of a ticket that customer c created, no other customer's edit, deletion or comment is
      ever answered anything but not-found, before, while or after it exists. */
  lemma ForeignersFindNothing(w: Flow, j: nat, k: nat)
    requires Reachable(w) && j < |w.log| && k < |w.log|
    requires w.log[j].op.Create? && w.log[j].outcome == Succeeded && w.log[k].op.id == w.log[j].op.id
    requires var (op, owner) := (w.log[k].op, w.log[j].op.customer);
      || ((op.Edit? || op.Delete?) && op.customer != owner)
      || (op.AddComment? && op.user.role == Customer && op.user.id != owner)
    ensures w.log[k].outcome == NotFound
    ensures w.log[j].op.id in w.db.tickets ==> w.db.tickets[w.log[j].op.id].customerId == w.log[j].op.customer
  {
    var es :| ValidRun(Empty, es) && w == End(Empty, es);
    assert OwnersOk(Empty);
    RunKeepsOwners(Empty, es);
    assert Creates(w.log[j], w.log[k].op.id);
  }

  /******* Progress *******/

  /** A fresh request's mutation can always be decided while nobody holds its row, with the effect and
      the outcome it has on its own. */
  lemma EveryMutationCanBeDecided(w: Flow, t: nat, op: Op) returns (es: seq<Event>)
    requires LocksOk(w) && t !in w.txs && op.id !in w.locks && (op.Create? ==> op.id !in w.used)
    ensures ValidRun(w, es)
    ensures End(w, es).db == Atomic(w.db, op).0
    ensures End(w, es).log == w.log + [Entry(t, op, Atomic(w.db, op).1)]
  {
    hide ValidRun, End, Atomic;
    var x := After(w, Begin(t, op));
    StepKeepsLocks(w, Begin(t, op));
    var rest;
    if op.Create? { rest := DecideAtOnce(x, t, Commit(t)); } else { rest := LockAndDecide(x, t); }
    Before(w, Begin(t, op), rest);
    es := [Begin(t, op)] + rest;
  }

  lemma Before(w: Flow, e: Event, es: seq<Event>)
    requires Enabled(w, e) && ValidRun(After(w, e), es)
    ensures ValidRun(w, [e] + es) && End(w, [e] + es) == End(After(w, e), es)
  {
    assert ([e] + es)[1..] == es;
  }

  /** A step that logs decides. */
  lemma DecideAtOnce(w: Flow, t: nat, e: Event) returns (es: seq<Event>)
    requires LocksOk(w) && t in w.txs && e.tx == t && Enabled(w, e) && After(w, e).log != w.log
    ensures ValidRun(w, es) && End(w, es).db == Atomic(w.db, w.txs[t].op).0
    ensures End(w, es).log == w.log + [Entry(t, w.txs[t].op, Atomic(w.db, w.txs[t].op).1)]
  {
    StepRefinesAtomic(w, e);
    es := [e];
    assert es[1..] == [];
    assert ValidRun(After(w, e), []);
  }

  lemma LockAndDecide(w: Flow, t: nat) returns (es: seq<Event>)
    requires LocksOk(w) && t in w.txs && w.txs[t].pc.Waiting? && !w.txs[t].op.Create? && w.txs[t].op.id !in w.locks
    ensures ValidRun(w, es) && End(w, es).db == Atomic(w.db, w.txs[t].op).0
    ensures End(w, es).log == w.log + [Entry(t, w.txs[t].op, Atomic(w.db, w.txs[t].op).1)]
  {
    hide ValidRun, End, Atomic;
    if Accessible(w.db.tickets, w.txs[t].op) {
      var x := After(w, Lock(t));
      StepKeepsLocks(w, Lock(t));
      var rest := CheckAndDecide(x, t);
      Before(w, Lock(t), rest);
      es := [Lock(t)] + rest;
    } else {
      es := DecideAtOnce(w, t, Lock(t));
    }
  }

  lemma CheckAndDecide(w: Flow, t: nat) returns (es: seq<Event>)
    requires LocksOk(w) && t in w.txs && w.txs[t].pc.Holding?
    ensures ValidRun(w, es) && End(w, es).db == Atomic(w.db, w.txs[t].op).0
    ensures End(w, es).log == w.log + [Entry(t, w.txs[t].op, Atomic(w.db, w.txs[t].op).1)]
  {
    hide ValidRun, End, Atomic;
    assert TxOk(w, t, w.txs[t]);
    if Refusal(w.txs[t].op, w.txs[t].pc.row).Some? {
      es := DecideAtOnce(w, t, Check(t));
    } else {
      var x := After(w, Check(t));
      StepKeepsLocks(w, Check(t));
      var rest := DecideAtOnce(x, t, Commit(t));
      Before(w, Check(t), rest);
      es := [Check(t)] + rest;
    }
  }

  /** A ticket can be taken through the whole workflow. */
  lemma TicketsCanBeClosed(ticket: Op, start: Op, resolve: Op, close: Op) returns (w: Flow)
    requires ticket.Create? && start.ChangeStatus? && resolve.ChangeStatus? && close.ChangeStatus?
    requires start.id == resolve.id == close.id == ticket.id
    requires start.newStatus == InProgress && resolve.newStatus == Resolved && close.newStatus == Closed
    ensures Reachable(w) && ticket.id in w.db.tickets && w.db.tickets[ticket.id].status == Closed
  {
    var a := CreateUndisturbed(ticket);
    var b := ChangeUndisturbed(a, 1, start);
    var c := ChangeUndisturbed(b, 2, resolve);
    w := ChangeUndisturbed(c, 3, close);
  }
}
