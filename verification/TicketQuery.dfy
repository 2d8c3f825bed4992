/** Role-scoped, filtered and paginated ticket lists. */
module TicketQuery {
  import opened Domain
  import opened Text
  import opened LiteralSearch

  /** Every query dimension of a list request. */
  datatype Filters = Filters(
    status: Option<TicketStatus>,
    priority: Option<TicketPriority>,
    category: Option<TicketCategory>,
    query: Option<string>,
    page: nat,
    pageSize: nat)
  {
    /** What the route validates before it calls the service. */
    predicate Valid() { page >= 1 && 1 <= pageSize <= 100 }

    /** The search text without surrounding blanks; empty when there is nothing to search for. */
    function SearchText(): string {
      match query case None => "" case Some(q) => Strip(q)
    }
  }

  datatype TicketPage = TicketPage(items: seq<Ticket>, page: nat, pageSize: nat, total: nat, pages: nat)

  /******* What a list request asks for *******/

  predicate InScope(user: User, t: Ticket) {
    user.role.Customer? ==> t.customerId == user.id
  }

  predicate PassesEnums(f: Filters, t: Ticket) {
    && (f.status.Some? ==> t.status == f.status.value)
    && (f.priority.Some? ==> t.priority == f.priority.value)
    && (f.category.Some? ==> t.category == f.category.value)
  }

  /** The search text stands in the title or in the description, letter case aside. */
  predicate PassesSearch(fold: char -> char, f: Filters, t: Ticket) {
    f.SearchText() != "" ==>
      var q := MapText(fold, f.SearchText());
      Occurs(q, MapText(fold, t.title)) || Occurs(q, MapText(fold, t.description))
  }

  /** `user` may see `t` and `t` passes every filter. */
  predicate Matches(fold: char -> char, user: User, f: Filters, t: Ticket) {
    InScope(user, t) && PassesEnums(f, t) && PassesSearch(fold, f, t)
  }

  function Matching(fold: char -> char, db: Tickets, user: User, f: Filters): (rows: set<Ticket>)
    ensures UniqueIds(rows)
  {
    set id | id in db && Matches(fold, user, f, db[id]) :: db[id]
  }

  ghost predicate UniqueIds(rows: set<Ticket>) {
    forall t, u :: t in rows && u in rows && t.id == u.id ==> t == u
  }

  /** Newest first; the id decides between equal creation times. */
  predicate Before(t: Ticket, u: Ticket) {
    t.createdAt > u.createdAt || (t.createdAt == u.createdAt && t.id > u.id)
  }

  lemma BeforeIsTotalOrder(t: Ticket, u: Ticket, v: Ticket)
    ensures Before(t, u) && Before(u, v) ==> Before(t, v)
    ensures t.id != u.id ==> (Before(t, u) <==> !Before(u, t))
    ensures !Before(t, t)
  {
  }

  ghost predicate IsNewest(rows: set<Ticket>, t: Ticket) {
    t in rows && forall u :: u in rows ==> u == t || Before(t, u)
  }

  lemma {:induction false} NewestExists(rows: set<Ticket>)
    requires rows != {} && UniqueIds(rows)
    ensures exists t :: IsNewest(rows, t)
  {
    var t :| t in rows;
    var others := rows - {t};
    if others == {} {
      forall u | u in rows ensures u == t { assert u == t || u in others; }
      assert IsNewest(rows, t);
    } else {
      NewestExists(others);
      var m :| IsNewest(others, m);
      BeforeIsTotalOrder(t, m, m);
      if Before(t, m) {
        forall u | u in rows ensures u == t || Before(t, u) {
          if u != t && u != m { assert u in others; BeforeIsTotalOrder(t, m, u); }
        }
        assert IsNewest(rows, t);
      } else {
        forall u | u in rows ensures u == m || Before(m, u) {
          assert u == t || u in others;
        }
        assert IsNewest(rows, m);
      }
    }
  }

  function Newest(rows: set<Ticket>): (t: Ticket)
    requires rows != {} && UniqueIds(rows)
    ensures t in rows && forall u :: u in rows ==> u == t || Before(t, u)
  {
    NewestExists(rows);
    assert exists t :: t in rows && forall u :: u in rows ==> u == t || Before(t, u) by {
      var m :| IsNewest(rows, m);
      assert m in rows;
    }
    var t :| t in rows && forall u :: u in rows ==> u == t || Before(t, u);
    t
  }

  function Listing(rows: set<Ticket>): (r: seq<Ticket>)
    requires UniqueIds(rows)
    ensures |r| == |rows|
  {
    if rows == {} then [] else
      var t := Newest(rows);
      [t] + Listing(rows - {t})
  }

  function Min(a: nat, b: nat): nat { if a < b then a else b }

  /** How many rows stand on the pages before. */
  function Offset(page: nat, size: nat): nat {
    if page <= 1 then 0 else Offset(page - 1, size) + size
  }

  function PageSlice(rows: seq<Ticket>, page: nat, size: nat): seq<Ticket> {
    rows[Min(Offset(page, size), |rows|)..Min(Offset(page, size) + size, |rows|)]
  }

  /** How many pages it takes to hold `total` rows. */
  function PageCount(total: nat, size: nat): nat
    requires size >= 1
  {
    if total == 0 then 0 else if total <= size then 1 else 1 + PageCount(total - size, size)
  }

  /** The page a request computes when its count query saw `counted` and its row query `listed`. */
  function PageFrom(fold: char -> char, counted: Tickets, listed: Tickets, user: User, f: Filters): TicketPage
    requires f.Valid()
  {
    var total := |Matching(fold, counted, user, f)|;
    TicketPage(PageSlice(Listing(Matching(fold, listed, user, f)), f.page, f.pageSize),
      f.page, f.pageSize, total, PageCount(total, f.pageSize))
  }

  /******* How the service asks the database *******/

  datatype Condition =
    | OwnedBy(customer: Uuid)
    | StatusIs(status: TicketStatus)
    | PriorityIs(priority: TicketPriority)
    | CategoryIs(category: TicketCategory)
    | TitleOrDescriptionLike(pattern: string)

  predicate Holds(fold: char -> char, c: Condition, t: Ticket) {
    match c
    case OwnedBy(customer) => t.customerId == customer
    case StatusIs(s) => t.status == s
    case PriorityIs(p) => t.priority == p
    case CategoryIs(k) => t.category == k
    case TitleOrDescriptionLike(p) => ILike(fold, p, t.title) || ILike(fold, p, t.description)
  }

  predicate AllHold(fold: char -> char, conditions: seq<Condition>, t: Ticket) {
    forall c | c in conditions :: Holds(fold, c, t)
  }

  lemma AppendCondition(fold: char -> char, conditions: seq<Condition>, c: Condition)
    ensures forall t :: AllHold(fold, conditions + [c], t) <==> AllHold(fold, conditions, t) && Holds(fold, c, t)
  {
    forall t ensures AllHold(fold, conditions + [c], t) <==> AllHold(fold, conditions, t) && Holds(fold, c, t) {
      assert c in conditions + [c];
      assert forall d :: d in conditions ==> d in conditions + [c];
    }
  }

  lemma LikeIsSearch(fold: char -> char, f: Filters)
    requires FoldsLetters(fold) && f.SearchText() != ""
    ensures forall t :: Holds(fold, TitleOrDescriptionLike(SearchPattern(f.SearchText())), t) <==>
        PassesSearch(fold, f, t)
  {
    forall t
      ensures Holds(fold, TitleOrDescriptionLike(SearchPattern(f.SearchText())), t) <==> PassesSearch(fold, f, t)
    {
      SearchIsLiteral(fold, f.SearchText(), t.title);
      SearchIsLiteral(fold, f.SearchText(), t.description);
    }
  }

  /** SELECT ... WHERE all conditions hold */
  function Where(fold: char -> char, db: Tickets, conditions: seq<Condition>): (rows: set<Ticket>)
    ensures UniqueIds(rows)
  {
    set id | id in db && AllHold(fold, conditions, db[id]) :: db[id]
  }

  /** The conditions of one request select exactly the tickets it asks for. */
  method QueryConditions(fold: char -> char, user: User, f: Filters) returns (conditions: seq<Condition>)
    requires FoldsLetters(fold)
    ensures forall t :: AllHold(fold, conditions, t) <==> Matches(fold, user, f, t)
  {
    conditions := [];
    if user.role.Customer? {
      AppendCondition(fold, conditions, OwnedBy(user.id));
      conditions := conditions + [OwnedBy(user.id)];
    }
    assert forall t :: AllHold(fold, conditions, t) <==> InScope(user, t);
    ghost var scoped := conditions;
    if f.status.Some? {
      AppendCondition(fold, conditions, StatusIs(f.status.value));
      conditions := conditions + [StatusIs(f.status.value)];
    }
    ghost var staged := conditions;
    if f.priority.Some? {
      AppendCondition(fold, conditions, PriorityIs(f.priority.value));
      conditions := conditions + [PriorityIs(f.priority.value)];
    }
    ghost var ranked := conditions;
    if f.category.Some? {
      AppendCondition(fold, conditions, CategoryIs(f.category.value));
      conditions := conditions + [CategoryIs(f.category.value)];
    }
    forall t ensures AllHold(fold, conditions, t) <==> InScope(user, t) && PassesEnums(f, t) {
      assert AllHold(fold, scoped, t) <==> InScope(user, t);
      assert AllHold(fold, staged, t) <==> AllHold(fold, scoped, t) && (f.status.Some? ==> t.status == f.status.value);
      assert AllHold(fold, ranked, t) <==>
        AllHold(fold, staged, t) && (f.priority.Some? ==> t.priority == f.priority.value);
    }
    var normalizedQuery := f.SearchText();
    if normalizedQuery != "" {
      var like := TitleOrDescriptionLike(SearchPattern(normalizedQuery));
      AppendCondition(fold, conditions, like);
      LikeIsSearch(fold, f);
      conditions := conditions + [like];
    }
  }

  lemma WhereIsMatching(fold: char -> char, conditions: seq<Condition>, db: Tickets, user: User, f: Filters)
    requires forall t :: AllHold(fold, conditions, t) <==> Matches(fold, user, f, t)
    ensures Where(fold, db, conditions) == Matching(fold, db, user, f)
  {
    forall t ensures t in Where(fold, db, conditions) <==> t in Matching(fold, db, user, f) {
      assert AllHold(fold, conditions, t) <==> Matches(fold, user, f, t);
    }
  }

  /** ... OFFSET (page - 1) * page_size LIMIT page_size */
  method OffsetLimit(rows: seq<Ticket>, page: nat, pageSize: nat) returns (items: seq<Ticket>)
    requires page >= 1
    ensures items == PageSlice(rows, page, pageSize)
  {
    var offset := (page - 1) * pageSize;
    OffsetIsProduct(page, pageSize);
    items := rows[Min(offset, |rows|)..Min(offset + pageSize, |rows|)];
  }

  method CeilingPages(total: nat, pageSize: nat) returns (pages: nat)
    requires pageSize >= 1
    ensures pages == PageCount(total, pageSize)
  {
    PageCountIsCeiling(total, pageSize);
    pages := if total != 0 then (total + pageSize - 1) / pageSize else 0;
  }

  /** One request's list: the two queries may see different committed states. */
  method ListTickets(fold: char -> char, counted: Tickets, listed: Tickets, user: User, f: Filters)
    returns (page: TicketPage)
    requires f.Valid() && FoldsLetters(fold)
    ensures page == PageFrom(fold, counted, listed, user, f)
  {
    var conditions := QueryConditions(fold, user, f);
    WhereIsMatching(fold, conditions, counted, user, f);
    WhereIsMatching(fold, conditions, listed, user, f);
    var total := |Where(fold, counted, conditions)|;
    var rows := Listing(Where(fold, listed, conditions));
    var items := OffsetLimit(rows, f.page, f.pageSize);
    var pages := CeilingPages(total, f.pageSize);
    page := TicketPage(items, f.page, f.pageSize, total, pages);
  }

  /******* The order is total: one listing only *******/

  ghost predicate Ordered(r: seq<Ticket>) {
    forall i, j :: 0 <= i < j < |r| ==> Before(r[i], r[j])
  }

  lemma {:induction false} ListingIsOrdered(rows: set<Ticket>)
    requires UniqueIds(rows)
    ensures Ordered(Listing(rows)) && forall t :: t in Listing(rows) <==> t in rows
  {
    if rows != {} {
      var t := Newest(rows);
      ListingIsOrdered(rows - {t});
      var rest := Listing(rows - {t});
      forall i | 0 <= i < |rest| ensures Before(t, rest[i]) { assert rest[i] in rest; }
    }
  }

  lemma FirstIsNewest(rows: set<Ticket>, r: seq<Ticket>)
    requires UniqueIds(rows) && Ordered(r) && r != [] && forall t :: t in r <==> t in rows
    ensures rows != {} && r[0] == Newest(rows)
  {
    assert r[0] in rows;
    var t := Newest(rows);
    assert t in r;
    var k :| 0 <= k < |r| && r[k] == t;
    BeforeIsTotalOrder(r[0], t, r[0]);
  }

  lemma RestOfRows(rows: set<Ticket>, r: seq<Ticket>)
    requires Ordered(r) && r != [] && forall t :: t in r <==> t in rows
    ensures Ordered(r[1..]) && forall t :: t in r[1..] <==> t in rows - {r[0]}
  {
    assert r == [r[0]] + r[1..];
    forall t ensures t in r[1..] <==> t in rows - {r[0]} {
      if t in r[1..] {
        var k :| 0 <= k < |r[1..]| && r[1..][k] == t;
        assert Before(r[0], r[k + 1]);
      }
    }
  }

  /** Any newest-first arrangement of the rows is the listing. */
  lemma {:induction false} ListingIsUnique(rows: set<Ticket>, r: seq<Ticket>)
    requires UniqueIds(rows) && Ordered(r) && forall t :: t in r <==> t in rows
    ensures r == Listing(rows)
  {
    if r == [] {
      assert rows == {};
    } else {
      FirstIsNewest(rows, r);
      RestOfRows(rows, r);
      assert Listing(rows) == [r[0]] + Listing(rows - {r[0]});
      ListingIsUnique(rows - {r[0]}, r[1..]);
      assert r == [r[0]] + r[1..];
    }
  }

  /******* Pages partition the listing *******/

  lemma {:induction false} OffsetIsProduct(page: nat, size: nat)
    requires page >= 1
    ensures Offset(page, size) == (page - 1) * size
  {
    if page > 1 {
      OffsetIsProduct(page - 1, size);
      assert (page - 1) * size == (page - 2) * size + size;
    }
  }

  lemma {:induction false} PageCountBounds(total: nat, size: nat)
    requires size >= 1
    ensures Offset(PageCount(total, size) + 1, size) >= total
    ensures total > 0 ==> PageCount(total, size) >= 1 && Offset(PageCount(total, size), size) < total
  {
    if total > size { PageCountBounds(total - size, size); }
  }

  lemma ProductsGrow(a: nat, b: nat, size: nat)
    ensures a <= b ==> a * size <= b * size
  {
  }

  lemma QuotientUnique(a: nat, size: nat, n: nat)
    requires size >= 1 && n * size <= a < n * size + size
    ensures a / size == n
  {
    var q := a / size;
    assert a == q * size + a % size;
    ProductsGrow(q + 1, n, size);
    ProductsGrow(n + 1, q, size);
  }

  lemma PageCountIsCeiling(total: nat, size: nat)
    requires size >= 1
    ensures total > 0 ==> PageCount(total, size) == (total + size - 1) / size
  {
    if total > 0 {
      var n := PageCount(total, size);
      PageCountBounds(total, size);
      OffsetIsProduct(n, size);
      OffsetIsProduct(n + 1, size);
      assert n * size == (n - 1) * size + size;
      QuotientUnique(total + size - 1, size, n);
    }
  }

  /** Pages 1..k one after the other. */
  ghost function FirstPages(rows: seq<Ticket>, size: nat, k: nat): seq<Ticket> {
    if k == 0 then [] else FirstPages(rows, size, k - 1) + PageSlice(rows, k, size)
  }

  lemma {:induction false} FirstPagesArePrefix(rows: seq<Ticket>, size: nat, k: nat)
    ensures FirstPages(rows, size, k) == rows[..Min(Offset(k + 1, size), |rows|)]
  {
    if k > 0 { FirstPagesArePrefix(rows, size, k - 1); }
  }

  lemma PagesMakeUpRows(rows: seq<Ticket>, size: nat)
    requires size >= 1
    ensures FirstPages(rows, size, PageCount(|rows|, size)) == rows
  {
    PageCountBounds(|rows|, size);
    FirstPagesArePrefix(rows, size, PageCount(|rows|, size));
    assert rows[..|rows|] == rows;
  }

  lemma {:induction false} OffsetsGrow(a: nat, b: nat, size: nat)
    requires a <= b
    ensures Offset(a, size) <= Offset(b, size)
  {
    if a < b { OffsetsGrow(a, b - 1, size); }
  }

  lemma PageLength(rows: seq<Ticket>, page: nat, size: nat)
    requires page >= 1 && size >= 1
    ensures var pages := PageCount(|rows|, size);
      && (page < pages ==> |PageSlice(rows, page, size)| == size)
      && (page == pages ==> 0 < |PageSlice(rows, page, size)| <= size)
      && (page > pages ==> PageSlice(rows, page, size) == [])
  {
    var pages := PageCount(|rows|, size);
    PageCountBounds(|rows|, size);
    if page < pages {
      OffsetsGrow(page + 1, pages, size);
    } else if page > pages {
      OffsetsGrow(pages + 1, page, size);
    }
  }

  /** On one database state the pages 1..pages, put together, are the ordered list of all matching
      tickets, each once; every page before the last is full, the last is not empty, and pages
      beyond it are. */
  lemma PagesPartition(fold: char -> char, db: Tickets, user: User, f: Filters)
    requires f.Valid()
    ensures var rows := Listing(Matching(fold, db, user, f));
      var answer := PageFrom(fold, db, db, user, f);
      && answer.total == |rows|
      && FirstPages(rows, f.pageSize, answer.pages) == rows
      && Ordered(rows) && (forall t :: t in rows <==> t in db.Values && Matches(fold, user, f, t))
      && (f.page < answer.pages ==> |answer.items| == f.pageSize)
      && (f.page == answer.pages ==> 0 < |answer.items| <= f.pageSize)
      && (f.page > answer.pages ==> answer.items == [])
  {
    hide PageSlice, PageCount, FirstPages;
    var matching := Matching(fold, db, user, f);
    var rows := Listing(matching);
    ListingIsOrdered(matching);
    PagesMakeUpRows(rows, f.pageSize);
    PageLength(rows, f.page, f.pageSize);
    forall t ensures t in matching <==> t in db.Values && Matches(fold, user, f, t) {
      if t in db.Values { var id :| id in db && db[id] == t; }
    }
  }

  /******* What an answer shows, said of its rows *******/

  /** The tickets asked for: a customer's own, any for an agent, that pass the filters given and have the
      stripped search text in title or description. */
  ghost function AskedFor(fold: char -> char, db: Tickets, user: User, f: Filters): set<Uuid> {
    set id | id in db
      && (user.role == Customer ==> db[id].customerId == user.id)
      && (f.status.Some? ==> db[id].status == f.status.value)
      && (f.priority.Some? ==> db[id].priority == f.priority.value)
      && (f.category.Some? ==> db[id].category == f.category.value)
      && (f.query.Some? && Strip(f.query.value) != "" ==>
            || Occurs(MapText(fold, Strip(f.query.value)), MapText(fold, db[id].title))
            || Occurs(MapText(fold, Strip(f.query.value)), MapText(fold, db[id].description)))
  }

  lemma AskedForMatches(fold: char -> char, db: Tickets, user: User, f: Filters, id: Uuid)
    ensures id in AskedFor(fold, db, user, f) <==> id in db && Matches(fold, user, f, db[id])
  {
  }

  lemma SliceOfOrdered(rows: seq<Ticket>, page: nat, size: nat)
    requires Ordered(rows)
    ensures Ordered(PageSlice(rows, page, size)) && |PageSlice(rows, page, size)| <= size
    ensures forall t :: t in PageSlice(rows, page, size) ==> t in rows
  {
    var items := PageSlice(rows, page, size);
    var first := Min(Offset(page, size), |rows|);
    forall i | 0 <= i < |items| ensures items[i] == rows[first + i] {}
  }

  lemma RowOnPage(rows: seq<Ticket>, k: nat, size: nat) returns (page: nat)
    requires size >= 1 && k < |rows|
    ensures page >= 1 && rows[k] in PageSlice(rows, page, size)
  {
    page := k / size + 1;
    OffsetIsProduct(page, size);
    assert k == (k / size) * size + k % size;
    assert PageSlice(rows, page, size)[k - Offset(page, size)] == rows[k];
  }

  /** Every row of an answer stands in the state the row query saw and is what was asked for: a customer
      sees own tickets only, and all filters and the search hold. */
  lemma RowsAreAskedFor(fold: char -> char, counted: Tickets, listed: Tickets, user: User, f: Filters, t: Ticket)
    requires f.Valid() && t in PageFrom(fold, counted, listed, user, f).items
    ensures t.id in AskedFor(fold, listed, user, f) && listed[t.id] == t
    ensures user.role == Customer ==> t.customerId == user.id
  {
    hide PageSlice, PageCount;
    var rows := Listing(Matching(fold, listed, user, f));
    ListingIsOrdered(Matching(fold, listed, user, f));
    SliceOfOrdered(rows, f.page, f.pageSize);
    assert t in rows;
    AskedForMatches(fold, listed, user, f, t.id);
  }

  /** The answer carries the page number and size asked for, no more rows than that, newest first. */
  lemma AnswerIsInShape(fold: char -> char, counted: Tickets, listed: Tickets, user: User, f: Filters)
    requires f.Valid()
    ensures var answer := PageFrom(fold, counted, listed, user, f);
      && answer.page == f.page && answer.pageSize == f.pageSize && |answer.items| <= f.pageSize
      && forall i, j :: 0 <= i < j < |answer.items| ==>
           var t, u := answer.items[i], answer.items[j];
           t.createdAt > u.createdAt || (t.createdAt == u.createdAt && t.id > u.id)
  {
    hide PageSlice, PageCount, Matching;
    var rows := Listing(Matching(fold, listed, user, f));
    ListingIsOrdered(Matching(fold, listed, user, f));
    SliceOfOrdered(rows, f.page, f.pageSize);
  }

  lemma {:induction false} SizeByIds(db: Tickets, rows: set<Ticket>, ids: set<Uuid>)
    requires forall id :: id in ids <==> id in db && db[id] in rows
    requires forall t :: t in rows ==> t in db.Values
    ensures |rows| == |ids|
    decreases rows
  {
    if rows == {} {
      assert ids == {};
    } else {
      var t :| t in rows;
      assert t in db.Values;
      assert t.id in ids;
      SizeByIds(db, rows - {t}, ids - {t.id});
    }
  }

  /** The total is the number of tickets asked for, in the state the count query saw. */
  lemma TotalCountsAskedFor(fold: char -> char, counted: Tickets, listed: Tickets, user: User, f: Filters)
    requires f.Valid()
    ensures PageFrom(fold, counted, listed, user, f).total == |AskedFor(fold, counted, user, f)|
  {
    var rows := Matching(fold, counted, user, f);
    forall id ensures id in AskedFor(fold, counted, user, f) <==> id in counted && counted[id] in rows {
      AskedForMatches(fold, counted, user, f, id);
    }
    SizeByIds(counted, rows, AskedFor(fold, counted, user, f));
  }

  /** Nothing asked for is missing: on one state every ticket asked for is on some page. */
  lemma AskedForIsShown(fold: char -> char, db: Tickets, user: User, f: Filters, id: Uuid) returns (page: nat)
    requires f.Valid() && id in AskedFor(fold, db, user, f)
    ensures page >= 1 && db[id] in PageFrom(fold, db, db, user, f.(page := page)).items
  {
    hide PageSlice, PageCount;
    var rows := Listing(Matching(fold, db, user, f));
    ListingIsOrdered(Matching(fold, db, user, f));
    AskedForMatches(fold, db, user, f, id);
    assert db[id] in rows;
    var k :| 0 <= k < |rows| && rows[k] == db[id];
    page := RowOnPage(rows, k, f.pageSize);
    PageNumberDoesNotMatter(fold, db, user, f, page);
  }

  lemma PageNumberDoesNotMatter(fold: char -> char, db: Tickets, user: User, f: Filters, page: nat)
    ensures Matching(fold, db, user, f.(page := page)) == Matching(fold, db, user, f)
  {
  }

  /** An agent who gives no filter asks for all tickets. */
  lemma AgentsAskForAll(fold: char -> char, db: Tickets, user: User, f: Filters)
    requires user.role == Agent && f.status.None? && f.priority.None? && f.category.None? && f.query.None?
    ensures AskedFor(fold, db, user, f) == db.Keys
  {
  }
}
