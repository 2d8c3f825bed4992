/** Dashboard statistics: totals and counts per status, priority and category. */
module DashboardStats {
  import opened Domain

  datatype Stats = Stats(
    total: nat,
    byStatus: map<TicketStatus, nat>,
    byPriority: map<TicketPriority, nat>,
    byCategory: map<TicketCategory, nat>)

  const Statuses: set<TicketStatus> := {Open, InProgress, Resolved, Closed}
  const Priorities: set<TicketPriority> := {Low, Medium, High}
  const Categories: set<TicketCategory> := {Billing, Technical, General}

  function StatusOf(t: Ticket): TicketStatus { t.status }
  function PriorityOf(t: Ticket): TicketPriority { t.priority }
  function CategoryOf(t: Ticket): TicketCategory { t.category }

  /** The ids of the tickets in one group. */
  function Group<K(==)>(db: Tickets, key: Ticket -> K, k: K): set<Uuid> {
    set id | id in db && key(db[id]) == k
  }

  function CountsBy<K(==)>(db: Tickets, key: Ticket -> K, members: set<K>): map<K, nat> {
    map k | k in members :: |Group(db, key, k)|
  }

  /** The statistics whose four queries saw the four given states. */
  function StatsFrom(counted: Tickets, statuses: Tickets, priorities: Tickets, categories: Tickets): Stats {
    Stats(|counted|, CountsBy(statuses, StatusOf, Statuses), CountsBy(priorities, PriorityOf, Priorities),
      CountsBy(categories, CategoryOf, Categories))
  }

  /******* Reading the grouped rows *******/

  datatype Row<K> = Row(key: K, count: nat)

  /** What SELECT key, count(id) ... GROUP BY key answers: one row per group that is not empty. */
  ghost predicate GroupedRows<K(!new)>(db: Tickets, key: Ticket -> K, rows: seq<Row<K>>) {
    && (forall i :: 0 <= i < |rows| ==> 0 < rows[i].count == |Group(db, key, rows[i].key)|)
    && (forall i, j :: 0 <= i < j < |rows| ==> rows[i].key != rows[j].key)
    && (forall k :: Group(db, key, k) != {} ==> exists i :: 0 <= i < |rows| && rows[i].key == k)
  }

  /** Starts every member at zero and writes the counts of the rows over it. */
  method FillCounts<K(==, !new)>(members: set<K>, rows: seq<Row<K>>, ghost db: Tickets, ghost key: Ticket -> K)
    returns (counts: map<K, nat>)
    requires GroupedRows(db, key, rows) && forall i :: 0 <= i < |rows| ==> rows[i].key in members
    ensures counts == CountsBy(db, key, members)
  {
    counts := map k | k in members :: 0;
    for i := 0 to |rows|
      invariant counts.Keys == members
      invariant forall j :: 0 <= j < i ==> counts[rows[j].key] == rows[j].count
      invariant forall k :: k in members && (forall j :: 0 <= j < i ==> rows[j].key != k) ==> counts[k] == 0
    {
      counts := counts[rows[i].key := rows[i].count];
    }
    forall k | k in members ensures counts[k] == |Group(db, key, k)| {
      if Group(db, key, k) != {} {
        var i :| 0 <= i < |rows| && rows[i].key == k;
        assert counts[rows[i].key] == rows[i].count;
      }
    }
  }

  /** The four queries one after the other; each may see a different committed state. */
  method CalculateDashboardStats(total: nat, statusRows: seq<Row<TicketStatus>>, priorityRows: seq<Row<TicketPriority>>,
                                 categoryRows: seq<Row<TicketCategory>>,
                                 ghost counted: Tickets, ghost statuses: Tickets, ghost priorities: Tickets,
                                 ghost categories: Tickets)
    returns (stats: Stats)
    requires total == |counted| && GroupedRows(statuses, StatusOf, statusRows)
    requires GroupedRows(priorities, PriorityOf, priorityRows) && GroupedRows(categories, CategoryOf, categoryRows)
    ensures stats == StatsFrom(counted, statuses, priorities, categories)
    ensures Counts(stats, counted, statuses, priorities, categories)
  {
    StatsCount(counted, statuses, priorities, categories);
    forall i | 0 <= i < |statusRows| ensures statusRows[i].key in Statuses {
      match statusRows[i].key case Open => case InProgress => case Resolved => case Closed =>
    }
    forall i | 0 <= i < |priorityRows| ensures priorityRows[i].key in Priorities {
      match priorityRows[i].key case Low => case Medium => case High =>
    }
    forall i | 0 <= i < |categoryRows| ensures categoryRows[i].key in Categories {
      match categoryRows[i].key case Billing => case Technical => case General =>
    }
    var statusCounts := FillCounts(Statuses, statusRows, statuses, StatusOf);
    var priorityCounts := FillCounts(Priorities, priorityRows, priorities, PriorityOf);
    var categoryCounts := FillCounts(Categories, categoryRows, categories, CategoryOf);
    stats := Stats(total, statusCounts, priorityCounts, categoryCounts);
  }

  /******* What the statistics mean *******/

  /** Each number is the number of tickets that it names, in the state its own query saw. */
  ghost predicate Counts(s: Stats, counted: Tickets, statuses: Tickets, priorities: Tickets, categories: Tickets) {
    && s.total == |set id | id in counted|
    && s.byStatus.Keys == {Open, InProgress, Resolved, Closed}
    && s.byPriority.Keys == {Low, Medium, High} && s.byCategory.Keys == {Billing, Technical, General}
    && (forall k :: k in s.byStatus ==> s.byStatus[k] == |set id | id in statuses && statuses[id].status == k|)
    && (forall k :: k in s.byPriority ==>
          s.byPriority[k] == |set id | id in priorities && priorities[id].priority == k|)
    && (forall k :: k in s.byCategory ==>
          s.byCategory[k] == |set id | id in categories && categories[id].category == k|)
  }

  lemma GroupsAreCounts(db: Tickets, s: TicketStatus, p: TicketPriority, c: TicketCategory)
    ensures |Group(db, StatusOf, s)| == |set id | id in db && db[id].status == s|
    ensures |Group(db, PriorityOf, p)| == |set id | id in db && db[id].priority == p|
    ensures |Group(db, CategoryOf, c)| == |set id | id in db && db[id].category == c|
  {
    assert Group(db, StatusOf, s) == set id | id in db && db[id].status == s;
    assert Group(db, PriorityOf, p) == set id | id in db && db[id].priority == p;
    assert Group(db, CategoryOf, c) == set id | id in db && db[id].category == c;
  }

  lemma StatsCount(counted: Tickets, statuses: Tickets, priorities: Tickets, categories: Tickets)
    ensures Counts(StatsFrom(counted, statuses, priorities, categories), counted, statuses, priorities, categories)
  {
    hide Group;
    assert (set id | id in counted) == counted.Keys;
    var s := StatsFrom(counted, statuses, priorities, categories);
    forall k | k in s.byStatus ensures s.byStatus[k] == |set id | id in statuses && statuses[id].status == k| {
      GroupsAreCounts(statuses, k, Low, Billing);
    }
    forall k | k in s.byPriority
      ensures s.byPriority[k] == |set id | id in priorities && priorities[id].priority == k|
    {
      GroupsAreCounts(priorities, Open, k, Billing);
    }
    forall k | k in s.byCategory
      ensures s.byCategory[k] == |set id | id in categories && categories[id].category == k|
    {
      GroupsAreCounts(categories, Open, Low, k);
    }
  }

  /******* On one state every table adds up to the total *******/

  lemma DisjointSizes(a: set<Uuid>, b: set<Uuid>)
    requires a !! b
    ensures |a + b| == |a| + |b|
  {
  }

  lemma ThreeGroups<K>(db: Tickets, key: Ticket -> K, a: K, b: K, c: K)
    requires a != b && a != c && b != c && forall id :: id in db ==>
        key(db[id]) == a || key(db[id]) == b || key(db[id]) == c
    ensures |Group(db, key, a)| + |Group(db, key, b)| + |Group(db, key, c)| == |db|
  {
    DisjointSizes(Group(db, key, a), Group(db, key, b));
    DisjointSizes(Group(db, key, a) + Group(db, key, b), Group(db, key, c));
    assert Group(db, key, a) + Group(db, key, b) + Group(db, key, c) == db.Keys;
  }

  lemma FourGroups<K>(db: Tickets, key: Ticket -> K, a: K, b: K, c: K, d: K)
    requires a != b && a != c && a != d && b != c && b != d && c != d
    requires forall id :: id in db ==> key(db[id]) == a || key(db[id]) == b || key(db[id]) == c || key(db[id]) == d
    ensures |Group(db, key, a)| + |Group(db, key, b)| + |Group(db, key, c)| + |Group(db, key, d)| == |db|
  {
    var early, late := Group(db, key, a) + Group(db, key, b), Group(db, key, c) + Group(db, key, d);
    DisjointSizes(Group(db, key, a), Group(db, key, b));
    DisjointSizes(Group(db, key, c), Group(db, key, d));
    DisjointSizes(early, late);
    assert early + late == db.Keys;
  }

  lemma StatusesAddUp(db: Tickets)
    ensures |Group(db, StatusOf, Open)| + |Group(db, StatusOf, InProgress)|
          + |Group(db, StatusOf, Resolved)| + |Group(db, StatusOf, Closed)| == |db|
  {
    forall id | id in db
      ensures StatusOf(db[id]) == Open || StatusOf(db[id]) == InProgress || StatusOf(db[id]) == Resolved
           || StatusOf(db[id]) == Closed
    {
      match db[id].status case Open => case InProgress => case Resolved => case Closed =>
    }
    FourGroups(db, StatusOf, Open, InProgress, Resolved, Closed);
  }

  /** No ticket is counted twice and none is forgotten. */
  lemma CountsAddUp(db: Tickets)
    ensures var s := StatsFrom(db, db, db, db);
      && s.byStatus[Open] + s.byStatus[InProgress] + s.byStatus[Resolved] + s.byStatus[Closed] == s.total
      && s.byPriority[Low] + s.byPriority[Medium] + s.byPriority[High] == s.total
      && s.byCategory[Billing] + s.byCategory[Technical] + s.byCategory[General] == s.total
  {
    StatusesAddUp(db);
    forall id | id in db ensures PriorityOf(db[id]) == Low || PriorityOf(db[id]) == Medium
        || PriorityOf(db[id]) == High {
      match db[id].priority case Low => case Medium => case High =>
    }
    ThreeGroups(db, PriorityOf, Low, Medium, High);
    forall id | id in db ensures CategoryOf(db[id]) == Billing || CategoryOf(db[id]) == Technical
        || CategoryOf(db[id]) == General {
      match db[id].category case Billing => case Technical => case General =>
    }
    ThreeGroups(db, CategoryOf, Billing, Technical, General);
  }
}
