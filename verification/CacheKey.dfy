/** The versioned Redis key of a ticket-list answer. */
module CacheKey {
  import opened Domain
  import opened Text
  import opened CanonicalJson
  import opened TicketQuery

  const VersionKey := "tickets:list:version"
  const DashboardKey := "dashboard:stats"

  function Scope(user: User): string {
    if user.role.Agent? then "agent" else "customer:" + UuidText(user.id)
  }

  function OptionalText<T>(o: Option<T>, text: T -> string): Json {
    match o case None => Null case Some(v) => Str(text(v))
  }

  /** The filters as a JSON object; a blank search text counts as none. */
  function CanonicalParameters(f: Filters): Json {
    Obj([
      Field("category", OptionalText(f.category, CategoryText)),
      Field("page", Int(f.page)),
      Field("page_size", Int(f.pageSize)),
      Field("priority", OptionalText(f.priority, PriorityText)),
      Field("q", if f.SearchText() == "" then Null else Str(f.SearchText())),
      Field("status", OptionalText(f.status, StatusText))
    ])
  }

  /** `hash` stands for the hexadecimal SHA-256 digest of a text's UTF-8 bytes. */
  function ListKey(hash: string -> string, version: int, user: User, f: Filters): string {
    "tickets:list:v" + (IntText(version) + (":" + (Scope(user) + (":" + hash(Serialize(CanonicalParameters(f)))))))
  }

  ghost predicate CollisionFree(hash: string -> string) {
    forall a, b :: hash(a) == hash(b) ==> a == b
  }

  /** Agents share one scope, each customer has its own. */
  predicate SameScope(u: User, v: User) {
    u.role == v.role && (u.role.Customer? ==> u.id == v.id)
  }

  /** Equal in every query dimension, surrounding blanks of the search text aside. */
  predicate SameFilters(f: Filters, g: Filters) {
    && f.status == g.status && f.priority == g.priority && f.category == g.category
    && f.SearchText() == g.SearchText() && f.page == g.page && f.pageSize == g.pageSize
  }

  lemma ParametersWellFormed(f: Filters)
    ensures WellFormed(CanonicalParameters(f)) && DistinctKeys(CanonicalParameters(f).fields)
  {
  }

  /** Objects with the same keys in the same places are compared place by place. */
  lemma SameByPlace(fs: seq<Field>, gs: seq<Field>)
    requires DistinctKeys(fs) && |fs| == |gs| && forall i :: 0 <= i < |fs| ==> fs[i].key == gs[i].key
    ensures Same(Obj(fs), Obj(gs)) <==> forall i :: 0 <= i < |fs| ==> Same(fs[i].value, gs[i].value)
  {
    forall i | 0 <= i < |fs| ensures fs[i].key in Keys(fs) && fs[i].key in Keys(gs) {
      assert fs[i] in fs && gs[i] in gs;
    }
    assert Keys(fs) == Keys(gs);
  }

  lemma OptionalTextInjective(f: Filters, g: Filters)
    ensures OptionalText(f.category, CategoryText) == OptionalText(g.category, CategoryText) <==>
        f.category == g.category
    ensures OptionalText(f.priority, PriorityText) == OptionalText(g.priority, PriorityText) <==>
        f.priority == g.priority
    ensures OptionalText(f.status, StatusText) == OptionalText(g.status, StatusText) <==> f.status == g.status
  {
  }

  lemma SixPlainValues(fs: seq<Field>, gs: seq<Field>)
    requires |fs| == |gs| == 6 && DistinctKeys(fs)
    requires forall i :: 0 <= i < 6 ==> fs[i].key == gs[i].key && !fs[i].value.Arr? && !fs[i].value.Obj?
    ensures Same(Obj(fs), Obj(gs)) <==>
      (fs[0].value == gs[0].value && fs[1].value == gs[1].value && fs[2].value == gs[2].value
       && fs[3].value == gs[3].value && fs[4].value == gs[4].value && fs[5].value == gs[5].value)
  {
    SameByPlace(fs, gs);
    assert forall i :: 0 <= i < 6 ==> (Same(fs[i].value, gs[i].value) <==> fs[i].value == gs[i].value);
  }

  lemma ParametersSame(f: Filters, g: Filters)
    ensures Same(CanonicalParameters(f), CanonicalParameters(g)) <==> SameFilters(f, g)
  {
    hide Same, WellFormed, DistinctKeys;
    ParametersWellFormed(f);
    OptionalTextInjective(f, g);
    SixPlainValues(CanonicalParameters(f).fields, CanonicalParameters(g).fields);
  }

  predicate NotColon(c: char) { c != ':' }

  lemma CustomerScopeUnique(u: Uuid, v: Uuid, x: string, y: string)
    requires UuidText(u) + (":" + x) == UuidText(v) + (":" + y)
    ensures u == v && x == y
  {
    SpanUnique(NotColon, UuidText(u), UuidText(v), ":" + x, ":" + y);
    UuidTextInjective(u, v);
    assert (":" + x)[1..] == x && (":" + y)[1..] == y;
  }

  /** The first character tells an agent's scope from a customer's. */
  lemma ScopeHead(u: User, x: string)
    ensures var s := Scope(u) + (":" + x);
      && |s| > 5 && s[0] == (if u.role.Agent? then 'a' else 'c')
      && (if u.role.Agent? then s[6..] == x else |s| > 9 && s[9..] == UuidText(u.id) + (":" + x))
  {
    var s := Scope(u) + (":" + x);
    if u.role.Customer? {
      assert s == "customer:" + (UuidText(u.id) + (":" + x));
    }
  }

  lemma ScopeUnique(u: User, v: User, x: string, y: string)
    requires Scope(u) + (":" + x) == Scope(v) + (":" + y)
    ensures SameScope(u, v) && x == y
  {
    ScopeHead(u, x);
    ScopeHead(v, y);
    if u.role.Customer? {
      CustomerScopeUnique(u.id, v.id, x, y);
    }
  }

  /** Two requests share a key exactly when version, scope and all filters agree. */
  lemma KeyIdentifiesRequest(hash: string -> string, v: int, u: User, f: Filters, w: int, t: User, g: Filters)
    requires CollisionFree(hash)
    ensures ListKey(hash, v, u, f) == ListKey(hash, w, t, g) <==> v == w && SameScope(u, t) && SameFilters(f, g)
  {
    var pf, pg := CanonicalParameters(f), CanonicalParameters(g);
    ParametersWellFormed(f);
    ParametersWellFormed(g);
    SerializeCanonical(pf, pg);
    ParametersSame(f, g);
    var hf, hg := hash(Serialize(pf)), hash(Serialize(pg));
    var a, b := Scope(u) + (":" + hf), Scope(t) + (":" + hg);
    var x, y := ":" + a, ":" + b;
    if ListKey(hash, v, u, f) == ListKey(hash, w, t, g) {
      assert ListKey(hash, v, u, f)[14..] == IntText(v) + x && ListKey(hash, w, t, g)[14..] == IntText(w) + y;
      IntTextUnique(v, w, x, y);
      assert x[1..] == a && y[1..] == b;
      ScopeUnique(u, t, hf, hg);
    }
  }

  /** One key, one answer: requests that share a key get the same page from every pair of states
      their two queries may see. */
  lemma KeyDeterminesAnswer(hash: string -> string, fold: char -> char,
                            v: int, u: User, f: Filters, w: int, t: User, g: Filters, counted: Tickets, listed: Tickets)
    requires CollisionFree(hash) && f.Valid() && g.Valid()
    requires ListKey(hash, v, u, f) == ListKey(hash, w, t, g)
    ensures PageFrom(fold, counted, listed, u, f) == PageFrom(fold, counted, listed, t, g)
  {
    KeyIdentifiesRequest(hash, v, u, f, w, t, g);
    SameAnswer(fold, counted, u, f, t, g);
    SameAnswer(fold, listed, u, f, t, g);
  }

  lemma SameAnswer(fold: char -> char, db: Tickets, u: User, f: Filters, t: User, g: Filters)
    requires SameScope(u, t) && SameFilters(f, g)
    ensures Matching(fold, db, u, f) == Matching(fold, db, t, g)
  {
    assert forall id :: id in db ==> (Matches(fold, u, f, db[id]) <==> Matches(fold, t, g, db[id]));
  }

  /** No list key is one of the two fixed keys. */
  lemma ListKeyIsNotFixed(hash: string -> string, v: int, u: User, f: Filters)
    ensures ListKey(hash, v, u, f) != VersionKey && ListKey(hash, v, u, f) != DashboardKey
  {
    var k := ListKey(hash, v, u, f);
    assert k[14..] == IntText(v) + (":" + (Scope(u) + (":" + hash(Serialize(CanonicalParameters(f))))));
    IntTextHead(v, k[14 + |IntText(v)|..]);
    assert IntText(v) + k[14 + |IntText(v)|..] == k[14..];
    assert k[14] == k[14..][0];
    assert v >= 0 ==> k[14] == NatText(v)[0];
    assert VersionKey[14] == 'e';
    assert DashboardKey[0] == 'd';
  }
}
