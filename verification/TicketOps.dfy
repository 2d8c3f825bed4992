/** The ticket mutations: access rules, state rules, effects, and the service that performs them. */
module TicketOps {
  import opened Domain

  datatype FieldUpdate =
    | SetTitle(title: string)
    | SetDescription(description: string)
    | SetCategory(category: TicketCategory)
    | SetPriority(priority: TicketPriority)

  datatype Comment = Comment(authorId: Uuid, authorRole: Role, body: string)

  /** The committed tables. Every ticket has its comments; deleting it deletes them. */
  datatype Database = Database(tickets: Tickets, comments: map<Uuid, seq<Comment>>)

  /** A mutation with the data of its request; `at` is the database's clock for the transaction. */
  datatype Op =
    | Create(id: Uuid, customer: Uuid, title: string, description: string, category: TicketCategory,
        priority: TicketPriority, at: int)
    | Edit(id: Uuid, customer: Uuid, updates: seq<FieldUpdate>, at: int)
    | Delete(id: Uuid, customer: Uuid)
    | ChangeStatus(id: Uuid, agent: Uuid, newStatus: TicketStatus, at: int)
    | AddComment(id: Uuid, user: User, body: string)

  datatype Outcome =
    | Succeeded
    | Changed(from: TicketStatus)
    | NotFound
    | NotEditable
    | NotDeletable
    | InvalidTransition
    | Conflict

  function NextStatus(s: TicketStatus): Option<TicketStatus> {
    match s
    case Open => Some(InProgress)
    case InProgress => Some(Resolved)
    case Resolved => Some(Closed)
    case Closed => None
  }

  /** The place of a status in the workflow. */
  function Rank(s: TicketStatus): (r: nat)
    ensures r < 4 && [Open, InProgress, Resolved, Closed][r] == s
  {
    match s case Open => 0 case InProgress => 1 case Resolved => 2 case Closed => 3
  }

  function Update(t: Ticket, u: FieldUpdate): Ticket {
    match u
    case SetTitle(v) => t.(title := v)
    case SetDescription(v) => t.(description := v)
    case SetCategory(v) => t.(category := v)
    case SetPriority(v) => t.(priority := v)
  }

  function Updated(t: Ticket, us: seq<FieldUpdate>): (r: Ticket)
    ensures r.id == t.id && r.customerId == t.customerId && r.status == t.status && r.createdAt == t.createdAt
    decreases |us|
  {
    if us == [] then t else Updated(Update(t, us[0]), us[1..])
  }

  /** An update that changes nothing is not written, so the modification time stays. */
  function Touched(row: Ticket, edited: Ticket, at: int): Ticket {
    if edited == row then row else edited.(updatedAt := at)
  }

  /** The row exists and the caller's scope includes it; agents see every ticket. */
  predicate Accessible(tickets: Tickets, op: Op) {
    op.id in tickets && match op
      case Edit(id, customer, _, _) => tickets[id].customerId == customer
      case Delete(id, customer) => tickets[id].customerId == customer
      case AddComment(id, user, _) => user.role.Customer? ==> tickets[id].customerId == user.id
      case _ => true
  }

  /** What the row's status forbids. */
  function Refusal(op: Op, row: Ticket): Option<Outcome> {
    match op
    case Edit(_, _, _, _) => if row.status.Open? then None else Some(NotEditable)
    case Delete(_, _) => if row.status.Open? then None else Some(NotDeletable)
    case ChangeStatus(_, _, s, _) => if NextStatus(row.status) == Some(s) then None else Some(InvalidTransition)
    case _ => None
  }

  /** What a mutation that is allowed does to the tables. */
  function Effect(db: Database, op: Op): Database
    requires op.Create? || op.id in db.tickets
  {
    match op
    case Create(id, _, _, _, _, _, _) => Database(db.tickets[id := NewTicket(op)], db.comments[id := []])
    case Edit(id, _, us, at) =>
      db.(tickets := db.tickets[id := Touched(db.tickets[id], Updated(db.tickets[id], us), at)])
    case Delete(id, _) => Database(db.tickets - {id}, db.comments - {id})
    case ChangeStatus(id, _, s, at) => db.(tickets := db.tickets[id := db.tickets[id].(status := s, updatedAt := at)])
    case AddComment(id, _, _) => db.(comments := db.comments[id := CommentsOf(db, id) + [NewComment(op)]])
  }

  /** One mutation on its own: the specification the service and its interleavings are held to. */
  function Atomic(db: Database, op: Op): (Database, Outcome) {
    if op.Create? then
      if op.id in db.tickets then (db, Conflict) else (Effect(db, op), Succeeded)
    else if !Accessible(db.tickets, op) then (db, NotFound)
    else
      match Refusal(op, db.tickets[op.id])
      case Some(refused) => (db, refused)
      case None => (Effect(db, op), if op.ChangeStatus? then Changed(db.tickets[op.id].status) else Succeeded)
  }

  function NewTicket(op: Op): Ticket
    requires op.Create?
  {
    Ticket(op.id, op.customer, op.title, op.description, op.category, op.priority, Open, op.at, op.at)
  }

  function NewComment(op: Op): Comment
    requires op.AddComment?
  {
    Comment(op.user.id, op.user.role, op.body)
  }

  function CommentsOf(db: Database, id: Uuid): seq<Comment> {
    if id in db.comments then db.comments[id] else []
  }

  /******* The service on one session at a time *******/

  class TicketService {
    var tickets: Tickets
    var comments: map<Uuid, seq<Comment>>

    function View(): Database
      reads this
    {
      Database(tickets, comments)
    }

    constructor ()
      ensures View() == Database(map[], map[])
    {
      tickets, comments := map[], map[];
    }

    method GetAccessibleTicket(op: Op) returns (ticket: Option<Ticket>)
      ensures ticket == if Accessible(tickets, op) then Some(tickets[op.id]) else None
    {
      if op.id !in tickets {
        return None;
      }
      var row := tickets[op.id];
      match op {
      case Edit(_, customer, _, _) => if row.customerId != customer { return None; }
      case Delete(_, customer) => if row.customerId != customer { return None; }
      case AddComment(_, user, _) => if user.role.Customer? && row.customerId != user.id { return None; }
      case _ =>
      }
      ticket := Some(row);
    }

    method CreateTicket(op: Op) returns (outcome: Outcome)
      requires op.Create?
      modifies this
      ensures (View(), outcome) == Atomic(old(View()), op)
    {
      if op.id in tickets {
        return Conflict;
      }
      tickets := tickets[op.id := NewTicket(op)];
      comments := comments[op.id := []];
      outcome := Succeeded;
    }

    method UpdateOpenTicket(op: Op) returns (outcome: Outcome)
      requires op.Edit?
      modifies this
      ensures (View(), outcome) == Atomic(old(View()), op)
    {
      var found := GetAccessibleTicket(op);
      if found.None? {
        return NotFound;
      }
      var row := found.value;
      if !row.status.Open? {
        return NotEditable;
      }
      var ticket := row;
      for i := 0 to |op.updates|
        invariant Updated(row, op.updates) == Updated(ticket, op.updates[i..])
        invariant View() == old(View())
      {
        assert op.updates[i..][1..] == op.updates[i + 1..];
        match op.updates[i]
        case SetTitle(v) => ticket := ticket.(title := v);
        case SetDescription(v) => ticket := ticket.(description := v);
        case SetCategory(v) => ticket := ticket.(category := v);
        case SetPriority(v) => ticket := ticket.(priority := v);
      }
      assert Updated(row, op.updates) == ticket;
      if ticket != row {
        ticket := ticket.(updatedAt := op.at);
      }
      tickets := tickets[op.id := ticket];
      outcome := Succeeded;
    }

    method DeleteOpenTicket(op: Op) returns (outcome: Outcome)
      requires op.Delete?
      modifies this
      ensures (View(), outcome) == Atomic(old(View()), op)
    {
      var found := GetAccessibleTicket(op);
      if found.None? {
        return NotFound;
      }
      if !found.value.status.Open? {
        return NotDeletable;
      }
      tickets := tickets - {op.id};
      comments := comments - {op.id};
      outcome := Succeeded;
    }

    method ChangeTicketStatus(op: Op) returns (outcome: Outcome)
      requires op.ChangeStatus?
      modifies this
      ensures (View(), outcome) == Atomic(old(View()), op)
    {
      var found := GetAccessibleTicket(op);
      if found.None? {
        return NotFound;
      }
      var row := found.value;
      if NextStatus(row.status) != Some(op.newStatus) {
        return InvalidTransition;
      }
      tickets := tickets[op.id := row.(status := op.newStatus, updatedAt := op.at)];
      outcome := Changed(row.status);
    }

    method CreateComment(op: Op) returns (outcome: Outcome)
      requires op.AddComment?
      modifies this
      ensures (View(), outcome) == Atomic(old(View()), op)
    {
      var found := GetAccessibleTicket(op);
      if found.None? {
        return NotFound;
      }
      var thread := if op.id in comments then comments[op.id] else [];
      comments := comments[op.id := thread + [NewComment(op)]];
      outcome := Succeeded;
    }
  }

  /******* What single mutations do, field by field *******/

  /** A creation makes one OPEN ticket with the request's data and no comments. */
  lemma CreationExactly(db: Database, op: Op)
    requires op.Create?
    ensures var (r, o) := Atomic(db, op);
      if op.id in db.tickets then o == Conflict && r == db
      else
        && o == Succeeded && r.tickets.Keys == db.tickets.Keys + {op.id}
        && r.comments.Keys == db.comments.Keys + {op.id}
        && r.comments[op.id] == []
        && var t := r.tickets[op.id];
           && t.id == op.id && t.customerId == op.customer && t.title == op.title && t.description == op.description
           && t.category == op.category && t.priority == op.priority && t.status == Open
           && t.createdAt == op.at && t.updatedAt == op.at
  {
  }

  /** At most one update per field, as in a dictionary. */
  predicate OncePerField(us: seq<FieldUpdate>) {
    forall i, j :: 0 <= i < j < |us| ==>
      !(us[i].SetTitle? && us[j].SetTitle?) && !(us[i].SetDescription? && us[j].SetDescription?)
      && !(us[i].SetCategory? && us[j].SetCategory?) && !(us[i].SetPriority? && us[j].SetPriority?)
  }

  /** `r` is `t` with the given fields replaced and all others kept. */
  ghost predicate Replaces(t: Ticket, us: seq<FieldUpdate>, r: Ticket) {
    && (forall u :: u in us && u.SetTitle? ==> r.title == u.title)
    && (forall u :: u in us && u.SetDescription? ==> r.description == u.description)
    && (forall u :: u in us && u.SetCategory? ==> r.category == u.category)
    && (forall u :: u in us && u.SetPriority? ==> r.priority == u.priority)
    && ((forall u :: u in us ==> !u.SetTitle?) ==> r.title == t.title)
    && ((forall u :: u in us ==> !u.SetDescription?) ==> r.description == t.description)
    && ((forall u :: u in us ==> !u.SetCategory?) ==> r.category == t.category)
    && ((forall u :: u in us ==> !u.SetPriority?) ==> r.priority == t.priority)
    && r.id == t.id && r.customerId == t.customerId && r.status == t.status && r.createdAt == t.createdAt
  }

  lemma FirstReplaced(t: Ticket, us: seq<FieldUpdate>, r: Ticket)
    requires us != [] && OncePerField(us) && Replaces(Update(t, us[0]), us[1..], r)
    ensures Replaces(t, us, r)
  {
    assert forall u :: u in us <==> u == us[0] || u in us[1..];
    forall u | u in us[1..]
      ensures !(us[0].SetTitle? && u.SetTitle?) && !(us[0].SetDescription? && u.SetDescription?)
           && !(us[0].SetCategory? && u.SetCategory?) && !(us[0].SetPriority? && u.SetPriority?)
    {
      var k :| 0 <= k < |us[1..]| && us[1..][k] == u;
      assert us[k + 1] == u;
    }
  }

  lemma {:induction false} UpdatedReplaces(t: Ticket, us: seq<FieldUpdate>)
    requires OncePerField(us)
    ensures Replaces(t, us, Updated(t, us))
    decreases |us|
  {
    if us != [] {
      UpdatedReplaces(Update(t, us[0]), us[1..]);
      FirstReplaced(t, us, Updated(t, us));
    }
  }

  /** An edit succeeds exactly on the caller's own OPEN ticket and replaces just the given fields. */
  lemma EditExactly(db: Database, op: Op)
    requires op.Edit? && OncePerField(op.updates)
    ensures var (r, o) := Atomic(db, op);
      if op.id !in db.tickets || db.tickets[op.id].customerId != op.customer then o == NotFound && r == db
      else if db.tickets[op.id].status != Open then o == NotEditable && r == db
      else
        && o == Succeeded && r.comments == db.comments && op.id in r.tickets
        && var t := r.tickets[op.id];
           && r.tickets == db.tickets[op.id := t] && Replaces(db.tickets[op.id], op.updates, t)
           && t.updatedAt == if t.(updatedAt := 0) == db.tickets[op.id].(updatedAt := 0)
                then db.tickets[op.id].updatedAt else op.at
  {
    if op.id in db.tickets {
      UpdatedReplaces(db.tickets[op.id], op.updates);
      UpdatedKeepsTime(db.tickets[op.id], op.updates);
    }
  }

  lemma {:induction false} UpdatedKeepsTime(t: Ticket, us: seq<FieldUpdate>)
    ensures Updated(t, us).updatedAt == t.updatedAt
    decreases |us|
  {
    if us != [] { UpdatedKeepsTime(Update(t, us[0]), us[1..]); }
  }

  /** A deletion succeeds exactly on the caller's own OPEN ticket and takes its comments along. */
  lemma DeletionExactly(db: Database, op: Op)
    requires op.Delete?
    ensures var (r, o) := Atomic(db, op);
      if op.id !in db.tickets || db.tickets[op.id].customerId != op.customer then o == NotFound && r == db
      else if db.tickets[op.id].status != Open then o == NotDeletable && r == db
      else
        && o == Succeeded && op.id !in r.tickets && op.id !in r.comments
        && r.tickets.Keys == db.tickets.Keys - {op.id} && r.comments.Keys == db.comments.Keys - {op.id}
  {
  }

  /** A status change succeeds exactly when it asks for the next place in the workflow; any agent may. */
  lemma ChangeExactly(db: Database, op: Op)
    requires op.ChangeStatus?
    ensures var (r, o) := Atomic(db, op);
      if op.id !in db.tickets then o == NotFound && r == db
      else
        var row := db.tickets[op.id];
        && (o.Changed? <==> Rank(op.newStatus) == Rank(row.status) + 1)
        && (o.Changed? <==>
              || (row.status == Open && op.newStatus == InProgress)
              || (row.status == InProgress && op.newStatus == Resolved)
              || (row.status == Resolved && op.newStatus == Closed))
        && (o.Changed? ==>
              && o.from == row.status && r.comments == db.comments
              && r.tickets == db.tickets[op.id := row.(status := op.newStatus, updatedAt := op.at)])
        && (!o.Changed? ==> o == InvalidTransition && r == db)
  {
    if op.id in db.tickets {
      match db.tickets[op.id].status case Open => case InProgress => case Resolved => case Closed =>
    }
  }

  /** A comment is added to any ticket of an agent's, and to a customer's own, with its author's role;
      the comments before it stay. */
  lemma CommentExactly(db: Database, op: Op)
    requires op.AddComment?
    ensures var (r, o) := Atomic(db, op);
      if op.id !in db.tickets || (op.user.role == Customer && db.tickets[op.id].customerId != op.user.id)
      then o == NotFound && r == db
      else
          && o == Succeeded && r.tickets == db.tickets && op.id in r.comments
          && |r.comments[op.id]| == (if op.id in db.comments then |db.comments[op.id]| else 0) + 1
          && (op.id in db.comments ==> r.comments[op.id][..|db.comments[op.id]|] == db.comments[op.id])
          && var c := r.comments[op.id][|r.comments[op.id]| - 1];
             c.authorId == op.user.id && c.authorRole == op.user.role && c.body == op.body
  {
  }

  /** A mutation touches its own ticket only. */
  lemma OthersUntouched(db: Database, op: Op, id: Uuid)
    requires id != op.id
    ensures var r := Atomic(db, op).0;
      && (id in r.tickets <==> id in db.tickets) && (id in db.tickets ==> r.tickets[id] == db.tickets[id])
      && (id in r.comments <==> id in db.comments) && (id in db.comments ==> r.comments[id] == db.comments[id])
  {
  }

  /** Who owns what: a customer's edit, deletion or comment finds a ticket exactly when it is the
      customer's own; an agent finds every ticket; what is not found is left alone. */
  lemma OwnershipDecides(db: Database, op: Op)
    requires op.id in db.tickets && !op.Create?
    ensures var owner := db.tickets[op.id].customerId;
      Atomic(db, op).1 == NotFound <==>
        || ((op.Edit? || op.Delete?) && owner != op.customer)
        || (op.AddComment? && op.user.role == Customer && owner != op.user.id)
    ensures Atomic(db, op).1 == NotFound ==> Atomic(db, op).0 == db
  {
  }

  /******* What single mutations keep *******/

  /** A ticket that has left OPEN stays, with its content, and its status never goes back. */
  lemma AtomicKeepsStarted(db: Database, op: Op, id: Uuid)
    requires id in db.tickets && !db.tickets[id].status.Open?
    ensures var r := Atomic(db, op).0;
      && id in r.tickets
      && r.tickets[id] == db.tickets[id].(status := r.tickets[id].status, updatedAt := r.tickets[id].updatedAt)
      && Rank(r.tickets[id].status) >= Rank(db.tickets[id].status)
  {
  }

  /** How the status of any ticket moves: by exactly one successful change, or not at all. */
  lemma AtomicStatus(db: Database, op: Op, id: Uuid)
    ensures var (r, o) := Atomic(db, op);
      && (id in db.tickets && id in r.tickets ==>
            r.tickets[id].status ==
              if op.ChangeStatus? && op.id == id && o.Changed? then op.newStatus else db.tickets[id].status)
      && (o.Changed? ==>
            op.id in db.tickets && o.from == db.tickets[op.id].status && NextStatus(o.from) == Some(op.newStatus))
      && (id !in db.tickets && id in r.tickets ==>
          op.Create? && op.id == id && r.tickets[id].status == Open && o == Succeeded)
      && (id in db.tickets && id !in r.tickets ==>
          op.Delete? && op.id == id && db.tickets[id].status == Open && o == Succeeded)
      && (o == Succeeded && op.Create? ==> op.id !in db.tickets && op.id in r.tickets)
  {
  }
}
