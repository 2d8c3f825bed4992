/** The canonical JSON form (sorted keys, no blanks, non-ASCII text left as it is) that cache keys
    hash and webhook signatures cover. */
module CanonicalJson {
  import opened Text

  /** JSON values whose objects list their members in insertion order, as Python dictionaries do. */
  datatype Json =
    | Null
    | Bool(b: bool)
    | Int(i: int)
    | Str(s: string)
    | Arr(items: seq<Json>)
    | Obj(fields: seq<Field>)

  datatype Field = Field(key: string, value: Json)

  /** Keys of one object are distinct, at every level. */
  ghost predicate WellFormed(j: Json) {
    match j
    case Arr(items) => forall x | x in items :: WellFormed(x)
    case Obj(fields) => DistinctKeys(fields) && forall f | f in fields :: WellFormed(f.value)
    case _ => true
  }

  ghost predicate DistinctKeys(fs: seq<Field>) {
    forall i, j :: 0 <= i < j < |fs| ==> fs[i].key != fs[j].key
  }

  ghost function Keys(fs: seq<Field>): set<string> {
    set f | f in fs :: f.key
  }

  /** Two values mean the same: objects are compared as mappings, whatever order their members
      were inserted in. */
  ghost predicate Same(v: Json, w: Json)
    decreases v
  {
    match (v, w)
    case (Arr(xs), Arr(ys)) => |xs| == |ys| && forall i :: 0 <= i < |xs| ==> Same(xs[i], ys[i])
    case (Obj(fs), Obj(gs)) =>
      && Keys(fs) == Keys(gs)
      && forall i, j :: 0 <= i < |fs| && 0 <= j < |gs| && fs[i].key == gs[j].key ==> Same(fs[i].value, gs[j].value)
    case _ => v == w
  }

  /******* Sorting the members of an object *******/

  /** Order of two strings by code point. */
  predicate Less(a: string, b: string) {
    if b == "" then false
    else if a == "" then true
    else a[0] < b[0] || (a[0] == b[0] && Less(a[1..], b[1..]))
  }

  function Insert(f: Field, fs: seq<Field>): seq<Field> {
    if fs == [] || !Less(fs[0].key, f.key) then [f] + fs else [fs[0]] + Insert(f, fs[1..])
  }

  function SortFields(fs: seq<Field>): seq<Field> {
    if fs == [] then [] else Insert(fs[0], SortFields(fs[1..]))
  }

  /** Sorts the members of every object inside `j`. */
  function Canon(j: Json): Json {
    match j
    case Arr(items) => Arr(seq(|items|, i requires 0 <= i < |items| => Canon(items[i])))
    case Obj(fields) => Obj(SortFields(CanonFields(fields)))
    case _ => j
  }

  function CanonFields(fs: seq<Field>): (r: seq<Field>)
    ensures |r| == |fs|
    ensures forall i :: 0 <= i < |fs| ==> r[i] == Field(fs[i].key, Canon(fs[i].value))
  {
    if fs == [] then [] else [Field(fs[0].key, Canon(fs[0].value))] + CanonFields(fs[1..])
  }

  /******* Printing: each function writes its value in front of the text that follows it *******/

  function Escaped(c: char, rest: string): string {
    if c == '"' then ['\\', '"'] + rest
    else if c == '\\' then ['\\', '\\'] + rest
    else if c == '\n' then ['\\', 'n'] + rest
    else if c == '\r' then ['\\', 'r'] + rest
    else if c == '\t' then ['\\', 't'] + rest
    else if c == '\U{c}' then ['\\', 'f'] + rest
    else if c == '\U{8}' then ['\\', 'b'] + rest
    else if c < ' ' then ['\\', 'u', '0', '0', HexDigit(c as int / 16), HexDigit(c as int % 16)] + rest
    else [c] + rest
  }

  function Body(s: string, rest: string): string {
    if s == "" then ['"'] + rest else Escaped(s[0], Body(s[1..], rest))
  }

  function Quoted(s: string, rest: string): string {
    ['"'] + Body(s, rest)
  }

  function Print(j: Json, rest: string): string
    decreases j, 0
  {
    match j
    case Null => "null" + rest
    case Bool(b) => (if b then "true" else "false") + rest
    case Int(i) => IntText(i) + rest
    case Str(s) => Quoted(s, rest)
    case Arr(items) => ['['] + PrintItems(items, true, rest)
    case Obj(fields) => ['{'] + PrintFields(fields, true, rest)
  }

  function PrintItems(xs: seq<Json>, first: bool, rest: string): string
    decreases xs, 0
  {
    if xs == [] then [']'] + rest
    else
      var text := Print(xs[0], PrintItems(xs[1..], false, rest));
      if first then text else [','] + text
  }

  function PrintFields(fs: seq<Field>, first: bool, rest: string): string
    decreases fs, 0
  {
    if fs == [] then ['}'] + rest
    else
      var text := Quoted(fs[0].key, [':'] + Print(fs[0].value, PrintFields(fs[1..], false, rest)));
      if first then text else [','] + text
  }

  function Serialize(j: Json): string {
    Print(Canon(j), "")
  }

  /******* Reading a JSON text back (RFC 8259, without insignificant blanks and fractions) *******/

  datatype Read<+T> = Failed | Got(value: T, rest: string)

  predicate IsHex(c: char) { IsDigit(c) || 'a' <= c <= 'f' || 'A' <= c <= 'F' }

  function HexValue(c: char): (n: nat)
    requires IsHex(c)
    ensures n < 16
  {
    if IsDigit(c) then (c - '0') as nat
    else if 'a' <= c then (c - 'a') as nat + 10 else (c - 'A') as nat + 10
  }

  /** One possibly escaped character of a string. */
  function ReadChar(s: string): (r: Read<char>)
    ensures r.Got? ==> |r.rest| < |s|
  {
    if s == "" || s[0] < ' ' || s[0] == '"' then Failed
    else if s[0] != '\\' then Got(s[0], s[1..])
    else if |s| < 2 then Failed
    else if s[1] == '"' || s[1] == '\\' || s[1] == '/' then Got(s[1], s[2..])
    else if s[1] == 'n' then Got('\n', s[2..])
    else if s[1] == 'r' then Got('\r', s[2..])
    else if s[1] == 't' then Got('\t', s[2..])
    else if s[1] == 'f' then Got('\U{c}', s[2..])
    else if s[1] == 'b' then Got('\U{8}', s[2..])
    else if s[1] != 'u' || |s| < 6 || !(IsHex(s[2]) && IsHex(s[3]) && IsHex(s[4]) && IsHex(s[5])) then Failed
    else
      var code := ((HexValue(s[2]) * 16 + HexValue(s[3])) * 16 + HexValue(s[4])) * 16 + HexValue(s[5]);
      if code < 0xD800 then Got(code as char, s[6..]) else Failed
  }

  function ReadBody(s: string): (r: Read<string>)
    ensures r.Got? ==> |r.rest| < |s|
    decreases |s|
  {
    if s != "" && s[0] == '"' then Got("", s[1..])
    else match ReadChar(s)
      case Failed => Failed
      case Got(c, after) =>
        match ReadBody(after)
        case Failed => Failed
        case Got(t, rest) => Got([c] + t, rest)
  }

  function CountDigits(s: string): (n: nat)
    ensures n <= |s| && (forall i :: 0 <= i < n ==> IsDigit(s[i])) && (n < |s| ==> !IsDigit(s[n]))
  {
    if s == "" || !IsDigit(s[0]) then 0 else 1 + CountDigits(s[1..])
  }

  function NatValue(s: string): nat
    requires forall i :: 0 <= i < |s| ==> IsDigit(s[i])
  {
    if s == "" then 0
    else
      assert IsDigit(s[|s| - 1]);
      NatValue(s[..|s| - 1]) * 10 + (s[|s| - 1] as int - '0' as int)
  }

  function ReadNat(s: string): (r: Read<nat>)
    ensures r.Got? ==> |r.rest| < |s|
  {
    var n := CountDigits(s);
    if n == 0 then Failed else Got(NatValue(s[..n]), s[n..])
  }

  function ReadJson(s: string): (r: Read<Json>)
    ensures r.Got? ==> |r.rest| < |s|
    decreases |s|, 0
  {
    if "null" <= s then Got(Null, s[4..])
    else if "true" <= s then Got(Bool(true), s[4..])
    else if "false" <= s then Got(Bool(false), s[5..])
    else if s == "" then Failed
    else if s[0] == '"' then
      match ReadBody(s[1..]) case Failed => Failed case Got(t, rest) => Got(Str(t), rest)
    else if s[0] == '[' then
      match ReadItems(s[1..], true) case Failed => Failed case Got(xs, rest) => Got(Arr(xs), rest)
    else if s[0] == '{' then
      match ReadFields(s[1..], true) case Failed => Failed case Got(fs, rest) => Got(Obj(fs), rest)
    else if s[0] == '-' then
      match ReadNat(s[1..]) case Failed => Failed case Got(n, rest) => Got(Int(0 - n), rest)
    else
      match ReadNat(s) case Failed => Failed case Got(n, rest) => Got(Int(n), rest)
  }

  function ReadItems(s: string, first: bool): (r: Read<seq<Json>>)
    ensures r.Got? ==> |r.rest| < |s|
    decreases |s|, 1
  {
    if s == "" then Failed
    else if s[0] == ']' then Got([], s[1..])
    else if !first && s[0] != ',' then Failed
    else match ReadJson(if first then s else s[1..])
      case Failed => Failed
      case Got(x, after) =>
        match ReadItems(after, false)
        case Failed => Failed
        case Got(xs, rest) => Got([x] + xs, rest)
  }

  /** One member of an object: its key, a colon and its value. */
  function ReadField(s: string): (r: Read<Field>)
    ensures r.Got? ==> |r.rest| < |s|
    decreases |s|, 1
  {
    if s == "" || s[0] != '"' then Failed
    else match ReadBody(s[1..])
      case Failed => Failed
      case Got(key, colon) =>
        if colon == "" || colon[0] != ':' then Failed
        else match ReadJson(colon[1..])
          case Failed => Failed
          case Got(v, rest) => Got(Field(key, v), rest)
  }

  function ReadFields(s: string, first: bool): (r: Read<seq<Field>>)
    ensures r.Got? ==> |r.rest| < |s|
    decreases |s|, 2
  {
    if s == "" then Failed
    else if s[0] == '}' then Got([], s[1..])
    else if !first && s[0] != ',' then Failed
    else match ReadField(if first then s else s[1..])
      case Failed => Failed
      case Got(f, after) =>
        match ReadFields(after, false)
        case Failed => Failed
        case Got(fs, rest) => Got([f] + fs, rest)
  }

  /******* Printing and reading back is the identity *******/

  /** What may follow a value: the end of the text, or a comma or closing bracket. */
  predicate Ends(rest: string) {
    rest == "" || rest[0] == ',' || rest[0] == ']' || rest[0] == '}'
  }

  lemma ReadEscaped(c: char, rest: string)
    ensures ReadChar(Escaped(c, rest)) == Got(c, rest)
    ensures Escaped(c, rest)[0] != '"'
  {
    var s := Escaped(c, rest);
    if s[0] != '\\' {
      assert s[1..] == rest;
    } else if s[1] != 'u' {
      assert s[2..] == rest;
    } else {
      assert s[6..] == rest;
      assert HexValue(s[4]) == c as int / 16 && HexValue(s[5]) == c as int % 16;
    }
  }

  lemma {:induction false} ReadQuoted(s: string, rest: string)
    ensures ReadBody(Body(s, rest)) == Got(s, rest)
  {
    if s == "" {
      assert Body(s, rest)[1..] == rest;
    } else {
      ReadEscaped(s[0], Body(s[1..], rest));
      ReadQuoted(s[1..], rest);
      assert s == [s[0]] + s[1..];
    }
  }

  lemma {:induction false} NatValueOfText(n: nat)
    ensures NatValue(NatText(n)) == n
  {
    var s := NatText(n);
    if n >= 10 {
      assert s[..|s| - 1] == NatText(n / 10);
      NatValueOfText(n / 10);
    } else {
      assert s[..|s| - 1] == "";
    }
  }

  lemma ReadNatText(n: nat, rest: string)
    requires rest == "" || !IsDigit(rest[0])
    ensures ReadNat(NatText(n) + rest) == Got(n, rest)
  {
    var s := NatText(n) + rest;
    var k := CountDigits(s);
    assert s[..k] + s[k..] == s;
    SpanUnique(IsDigit, s[..k], NatText(n), s[k..], rest);
    NatValueOfText(n);
  }

  /** The first character tells the kind of a value. */
  lemma PrintHead(j: Json, rest: string)
    ensures Print(j, rest) != "" && !Ends(Print(j, rest))
    ensures var c := Print(j, rest)[0];
      && (c == 'n' <==> j.Null?) && (c == '"' <==> j.Str?) && (c == '[' <==> j.Arr?) && (c == '{' <==> j.Obj?)
      && (c == 't' <==> j == Bool(true)) && (c == 'f' <==> j == Bool(false))
      && (c == '-' || IsDigit(c) <==> j.Int?)
  {
    if j.Int? {
      IntTextHead(j.i, rest);
      if j.i >= 0 {
        assert (IntText(j.i) + rest)[0] == NatText(j.i)[0];
      }
    }
  }

  lemma RoundTripInt(i: int, rest: string)
    requires Ends(rest)
    ensures ReadJson(IntText(i) + rest) == Got(Int(i), rest)
  {
    PrintHead(Int(i), rest);
    IntTextHead(i, rest);
    ReadNatText(if i < 0 then -i else i, rest);
  }

  /** A reader of the text gets back the value that was printed, and all that follows it. */
  lemma {:induction false} RoundTrip(j: Json, rest: string)
    requires Ends(rest)
    ensures ReadJson(Print(j, rest)) == Got(j, rest)
    decreases j, 0
  {
    PrintHead(j, rest);
    var s := Print(j, rest);
    match j
    case Null => assert s[4..] == rest;
    case Bool(b) => assert s[if b then 4 else 5..] == rest;
    case Int(i) => RoundTripInt(i, rest);
    case Str(q) =>
      assert s[1..] == Body(q, rest);
      ReadQuoted(q, rest);
    case Arr(xs) =>
      assert s[1..] == PrintItems(xs, true, rest);
      RoundTripItems(xs, true, rest);
    case Obj(fs) =>
      assert s[1..] == PrintFields(fs, true, rest);
      RoundTripFields(fs, true, rest);
  }

  lemma ReadNextItem(first: bool, text: string, x: Json, after: string, xs: seq<Json>, rest: string)
    requires text != "" && !Ends(text) && ReadJson(text) == Got(x, after) && ReadItems(after, false) == Got(xs, rest)
    ensures ReadItems(if first then text else [','] + text, first) == Got([x] + xs, rest)
  {
    assert ([','] + text)[1..] == text;
  }

  lemma {:induction false} RoundTripItems(xs: seq<Json>, first: bool, rest: string)
    ensures ReadItems(PrintItems(xs, first, rest), first) == Got(xs, rest)
    ensures !first ==> Ends(PrintItems(xs, first, rest))
    decreases xs, 0
  {
    if xs == [] {
      assert ([']'] + rest)[1..] == rest;
    } else {
      var after := PrintItems(xs[1..], false, rest);
      RoundTripItems(xs[1..], false, rest);
      PrintHead(xs[0], after);
      RoundTrip(xs[0], after);
      ReadNextItem(first, Print(xs[0], after), xs[0], after, xs[1..], rest);
      assert xs == [xs[0]] + xs[1..];
    }
  }

  lemma {:induction false} RoundTripField(f: Field, rest: string)
    requires Ends(rest)
    ensures ReadField(Quoted(f.key, [':'] + Print(f.value, rest))) == Got(f, rest)
    decreases f, 0
  {
    var colon := [':'] + Print(f.value, rest);
    var s := Quoted(f.key, colon);
    ReadQuoted(f.key, colon);
    assert s[1..] == Body(f.key, colon);
    RoundTrip(f.value, rest);
    assert colon[1..] == Print(f.value, rest);
  }

  lemma ReadNextField(first: bool, text: string, f: Field, after: string, fs: seq<Field>, rest: string)
    requires text != "" && !Ends(text) && ReadField(text) == Got(f, after) && ReadFields(after, false) == Got(fs, rest)
    ensures ReadFields(if first then text else [','] + text, first) == Got([f] + fs, rest)
  {
    assert ([','] + text)[1..] == text;
  }

  lemma {:induction false} RoundTripFields(fs: seq<Field>, first: bool, rest: string)
    ensures ReadFields(PrintFields(fs, first, rest), first) == Got(fs, rest)
    ensures !first ==> Ends(PrintFields(fs, first, rest))
    decreases fs, 0
  {
    if fs == [] {
      assert (['}'] + rest)[1..] == rest;
    } else {
      var after := PrintFields(fs[1..], false, rest);
      RoundTripFields(fs[1..], false, rest);
      RoundTripField(fs[0], after);
      ReadNextField(first, Quoted(fs[0].key, [':'] + Print(fs[0].value, after)), fs[0], after, fs[1..], rest);
      assert fs == [fs[0]] + fs[1..];
    }
  }

  /******* Sorting forgets the insertion order and nothing else *******/

  lemma {:induction false} LessTotal(a: string, b: string)
    ensures (Less(a, b) && !Less(b, a) && a != b) || (Less(b, a) && !Less(a, b) && a != b)
         || (a == b && !Less(a, b))
  {
    if a != "" && b != "" {
      LessTotal(a[1..], b[1..]);
      assert a == [a[0]] + a[1..] && b == [b[0]] + b[1..];
    }
  }

  lemma {:induction false} LessTransitive(a: string, b: string, c: string)
    requires Less(a, b) && Less(b, c)
    ensures Less(a, c)
  {
    if a != "" {
      if a[0] == b[0] == c[0] { LessTransitive(a[1..], b[1..], c[1..]); }
    }
  }

  ghost predicate SortedFields(fs: seq<Field>) {
    forall i, j :: 0 <= i < j < |fs| ==> Less(fs[i].key, fs[j].key)
  }

  lemma {:induction false} InsertAddsMember(f: Field, fs: seq<Field>)
    ensures multiset(Insert(f, fs)) == multiset(fs) + multiset{f}
  {
    if fs != [] {
      assert fs == [fs[0]] + fs[1..];
      InsertAddsMember(f, fs[1..]);
    }
  }

  lemma {:induction false} InsertSorted(f: Field, fs: seq<Field>)
    requires SortedFields(fs) && f.key !in Keys(fs)
    ensures SortedFields(Insert(f, fs))
  {
    if fs != [] {
      assert fs[0].key in Keys(fs);
      LessTotal(f.key, fs[0].key);
      if Less(fs[0].key, f.key) {
        forall g | g in fs[1..] ensures g in fs {}
        InsertSorted(f, fs[1..]);
        InsertAddsMember(f, fs[1..]);
        var r := Insert(f, fs[1..]);
        forall i | 0 <= i < |r| ensures Less(fs[0].key, r[i].key) {
          assert r[i] in multiset(r);
          assert r[i] == f || r[i] in multiset(fs[1..]);
        }
      } else {
        forall i | 0 <= i < |fs| ensures Less(f.key, fs[i].key) {
          if i > 0 { LessTransitive(f.key, fs[0].key, fs[i].key); }
        }
      }
    }
  }

  /** Sorting permutes the members and leaves their keys ascending. */
  lemma {:induction false} SortFieldsSorted(fs: seq<Field>)
    requires DistinctKeys(fs)
    ensures SortedFields(SortFields(fs)) && multiset(SortFields(fs)) == multiset(fs)
  {
    if fs == [] {
    } else {
      SortFieldsSorted(fs[1..]);
      assert fs == [fs[0]] + fs[1..];
      var r := SortFields(fs[1..]);
      forall g | g in r ensures g.key != fs[0].key {
        assert g in multiset(r);
        assert g in fs[1..];
      }
      InsertSorted(fs[0], r);
      InsertAddsMember(fs[0], r);
    }
  }

  ghost predicate SameElements(fs: seq<Field>, gs: seq<Field>) {
    forall f :: f in fs <==> f in gs
  }

  /** There is one ascending list of given members. */
  lemma {:induction false} SortedUnique(fs: seq<Field>, gs: seq<Field>)
    requires SortedFields(fs) && SortedFields(gs)
    requires SameElements(fs, gs)
    ensures fs == gs
  {
    assert gs == [] || gs[0] in gs;
    if fs == [] {
    } else {
      assert fs[0] in fs && fs[0] in gs && gs[0] in gs && gs[0] in fs;
      var i :| 0 <= i < |gs| && gs[i] == fs[0];
      var j :| 0 <= j < |fs| && fs[j] == gs[0];
      LessTotal(fs[0].key, gs[0].key);
      assert fs[0] == gs[0];
      forall f ensures f in fs[1..] <==> f in gs[1..] {
        LessTotal(fs[0].key, fs[0].key);
        if f in fs[1..] { assert f in gs; assert f != gs[0]; }
        if f in gs[1..] { assert f in fs; assert f != fs[0]; }
      }
      SortedUnique(fs[1..], gs[1..]);
      assert fs == [fs[0]] + fs[1..] && gs == [gs[0]] + gs[1..];
    }
  }

  lemma SortKeepsMembers(fs: seq<Field>)
    requires DistinctKeys(fs)
    ensures SameElements(fs, SortFields(fs))
  {
    SortFieldsSorted(fs);
    forall f ensures f in fs <==> f in SortFields(fs) {
      assert f in multiset(fs) <==> f in multiset(SortFields(fs));
    }
  }

  /** Two objects sort to the same members exactly when they have the same members. */
  lemma SortIgnoresOrder(fs: seq<Field>, gs: seq<Field>)
    requires DistinctKeys(fs) && DistinctKeys(gs)
    ensures SortFields(fs) == SortFields(gs) <==> SameElements(fs, gs)
  {
    SortFieldsSorted(fs);
    SortFieldsSorted(gs);
    SortKeepsMembers(fs);
    SortKeepsMembers(gs);
    if SameElements(fs, gs) {
      SortedUnique(SortFields(fs), SortFields(gs));
    }
  }

  /** The canonical tree is the meaning of a value. */
  lemma {:induction false} CanonSame(v: Json, w: Json)
    requires WellFormed(v) && WellFormed(w)
    ensures Canon(v) == Canon(w) <==> Same(v, w)
    decreases v
  {
    match (v, w)
    case (Arr(xs), Arr(ys)) =>
      if |xs| == |ys| {
        forall i | 0 <= i < |xs| ensures Canon(xs[i]) == Canon(ys[i]) <==> Same(xs[i], ys[i]) {
          CanonSame(xs[i], ys[i]);
        }
        if Canon(v) == Canon(w) {
          forall i | 0 <= i < |xs| ensures Same(xs[i], ys[i]) {
            assert Canon(v).items[i] == Canon(w).items[i];
          }
        }
      }
    case (Obj(fs), Obj(gs)) =>
      forall i, j | 0 <= i < |fs| && 0 <= j < |gs|
        ensures Canon(fs[i].value) == Canon(gs[j].value) <==> Same(fs[i].value, gs[j].value)
      {
        assert fs[i] in fs && gs[j] in gs;
        CanonSame(fs[i].value, gs[j].value);
      }
      SortIgnoresOrder(CanonFields(fs), CanonFields(gs));
      SameMembers(fs, gs);
    case _ =>
  }

  /** Members under one key have the same canonical tree. */
  ghost predicate Agree(fs: seq<Field>, gs: seq<Field>) {
    forall i, j :: 0 <= i < |fs| && 0 <= j < |gs| && fs[i].key == gs[j].key ==>
      Canon(fs[i].value) == Canon(gs[j].value)
  }

  lemma SameMembers(fs: seq<Field>, gs: seq<Field>)
    requires DistinctKeys(fs) && DistinctKeys(gs)
    ensures SameElements(CanonFields(fs), CanonFields(gs)) <==> (Keys(fs) == Keys(gs) && Agree(fs, gs))
  {
    var cf, cg := CanonFields(fs), CanonFields(gs);
    if SameElements(cf, cg) {
      MembersShareKeys(fs, gs);
      MembersShareKeys(gs, fs);
      forall i, j | 0 <= i < |fs| && 0 <= j < |gs| && fs[i].key == gs[j].key
        ensures Canon(fs[i].value) == Canon(gs[j].value)
      {
        assert cf[i] in cg;
        var k :| 0 <= k < |cg| && cg[k] == cf[i];
        assert gs[k].key == gs[j].key;
      }
      assert Agree(fs, gs);
    }
    if Keys(fs) == Keys(gs) && Agree(fs, gs) {
      KeysShareMembers(fs, gs);
      KeysShareMembers(gs, fs);
    }
  }

  lemma MembersShareKeys(fs: seq<Field>, gs: seq<Field>)
    requires forall f :: f in CanonFields(fs) ==> f in CanonFields(gs)
    ensures Keys(fs) <= Keys(gs)
  {
    forall i | 0 <= i < |fs| ensures fs[i].key in Keys(gs) {
      assert CanonFields(fs)[i] in CanonFields(gs);
      var k :| 0 <= k < |gs| && CanonFields(gs)[k] == CanonFields(fs)[i];
      assert gs[k] in gs;
    }
  }

  lemma KeysShareMembers(fs: seq<Field>, gs: seq<Field>)
    requires Keys(fs) <= Keys(gs) && (Agree(fs, gs) || Agree(gs, fs))
    ensures forall f :: f in CanonFields(fs) ==> f in CanonFields(gs)
  {
    forall i | 0 <= i < |fs| ensures CanonFields(fs)[i] in CanonFields(gs) {
      assert fs[i] in fs;
      assert fs[i].key in Keys(gs);
      var j :| 0 <= j < |gs| && gs[j].key == fs[i].key;
      assert CanonFields(gs)[j] == CanonFields(fs)[i];
    }
  }

  /** The sorted members are the original ones with their values made canonical. */
  lemma CanonKeys(fs: seq<Field>, gs: seq<Field>)
    requires SameElements(CanonFields(fs), gs)
    ensures Keys(fs) == Keys(gs)
  {
    var cf := CanonFields(fs);
    forall i | 0 <= i < |fs| ensures fs[i].key in Keys(gs) { assert cf[i] in gs; }
    forall j | 0 <= j < |gs| ensures gs[j].key in Keys(fs) {
      assert gs[j] in cf;
      var k :| 0 <= k < |cf| && cf[k] == gs[j];
      assert fs[k] in fs;
    }
  }

  lemma CanonValue(fs: seq<Field>, gs: seq<Field>, i: nat, j: nat)
    requires DistinctKeys(fs) && SameElements(CanonFields(fs), gs)
    requires i < |fs| && j < |gs| && fs[i].key == gs[j].key
    ensures gs[j].value == Canon(fs[i].value)
  {
    var cf := CanonFields(fs);
    assert gs[j] in cf;
    var k :| 0 <= k < |cf| && cf[k] == gs[j];
    assert cf[k] == Field(fs[k].key, Canon(fs[k].value));
    assert k == i;
  }

  lemma {:induction false} CanonKeepsMeaning(v: Json)
    requires WellFormed(v)
    ensures Same(v, Canon(v))
  {
    match v
    case Arr(xs) =>
      forall i | 0 <= i < |xs| ensures Same(xs[i], Canon(xs[i])) { CanonKeepsMeaning(xs[i]); }
    case Obj(fs) =>
      var gs := SortFields(CanonFields(fs));
      SortKeepsMembers(CanonFields(fs));
      CanonKeys(fs, gs);
      forall i, j | 0 <= i < |fs| && 0 <= j < |gs| && fs[i].key == gs[j].key
        ensures Same(fs[i].value, gs[j].value)
      {
        CanonValue(fs, gs, i, j);
        assert fs[i] in fs;
        CanonKeepsMeaning(fs[i].value);
      }
    case _ =>
  }

  /** Whoever parses the bytes gets a value of the same meaning, and nothing is left over. */
  lemma SerializeMeans(v: Json)
    requires WellFormed(v)
    ensures ReadJson(Serialize(v)).Got? && ReadJson(Serialize(v)).rest == ""
    ensures Same(v, ReadJson(Serialize(v)).value)
  {
    CanonKeepsMeaning(v);
    RoundTrip(Canon(v), "");
  }

  /** Equal texts mean equal values and equal values have equal texts: the bytes depend neither on
      the order in which members were inserted nor leave two different values indistinct. */
  lemma SerializeCanonical(v: Json, w: Json)
    requires WellFormed(v) && WellFormed(w)
    ensures Serialize(v) == Serialize(w) <==> Same(v, w)
  {
    CanonSame(v, w);
    RoundTrip(Canon(v), "");
    RoundTrip(Canon(w), "");
  }

  /** Any other insertion order of an object's members gives the same text. */
  lemma SerializeIgnoresInsertionOrder(fs: seq<Field>, gs: seq<Field>)
    requires WellFormed(Obj(fs)) && multiset(fs) == multiset(gs)
    ensures Serialize(Obj(fs)) == Serialize(Obj(gs))
  {
    PermutationKeepsDistinct(fs, gs);
    PermutationKeepsMembers(fs, gs);
    PermutationKeepsMembers(gs, fs);
    SortIgnoresOrder(CanonFields(fs), CanonFields(gs));
  }

  lemma PermutationKeepsMembers(fs: seq<Field>, gs: seq<Field>)
    requires multiset(fs) == multiset(gs)
    ensures forall f :: f in CanonFields(fs) ==> f in CanonFields(gs)
  {
    forall i | 0 <= i < |fs| ensures CanonFields(fs)[i] in CanonFields(gs) {
      assert fs[i] in multiset(gs);
      var j :| 0 <= j < |gs| && gs[j] == fs[i];
      assert CanonFields(gs)[j] == CanonFields(fs)[i];
    }
  }

  lemma {:induction false} OnceEach(fs: seq<Field>, f: Field)
    requires DistinctKeys(fs)
    ensures multiset(fs)[f] <= 1
  {
    if fs != [] {
      OnceEach(fs[1..], f);
      assert fs == [fs[0]] + fs[1..];
      assert f == fs[0] ==> f !in multiset(fs[1..]);
    }
  }

  lemma PermutationKeepsDistinct(fs: seq<Field>, gs: seq<Field>)
    requires DistinctKeys(fs) && multiset(fs) == multiset(gs)
    ensures DistinctKeys(gs)
  {
    forall i, j | 0 <= i < j < |gs| ensures gs[i].key != gs[j].key {
      OnceEach(fs, gs[i]);
      assert gs == gs[..i] + [gs[i]] + gs[i + 1..j] + [gs[j]] + gs[j + 1..];
      assert gs[i] != gs[j];
      assert gs[i] in multiset(fs) && gs[j] in multiset(fs);
    }
  }

  /******* The text itself *******/

  /** At `k` the two strings differ for the first time, and `a` is the smaller or ends there. */
  predicate SmallerAt(a: string, b: string, k: nat) {
    && k <= |a| && k < |b| && a[..k] == b[..k] && (k == |a| || a[k] as int < b[k] as int)
  }

  lemma SmallerStart(a: string, b: string, k: nat)
    ensures SmallerAt(a, b, k) && k > 0 ==> a != "" && b != "" && a[0] == b[0]
  {
    if SmallerAt(a, b, k) && k > 0 { assert a[..k][0] == b[..k][0]; }
  }

  lemma SmallerInTail(a: string, b: string, k: nat)
    requires a != "" && b != "" && a[0] == b[0]
    ensures SmallerAt(a[1..], b[1..], k) <==> SmallerAt(a, b, k + 1)
  {
    if k < |a| && k < |b| {
      assert a[..k + 1] == [a[0]] + a[1..][..k] && b[..k + 1] == [b[0]] + b[1..][..k];
      assert a[1..][..k] == a[..k + 1][1..] && b[1..][..k] == b[..k + 1][1..];
    }
  }

  /** Strings are ordered by the code points where they first differ; a prefix comes first. */
  lemma {:induction false} LessMeans(a: string, b: string)
    ensures Less(a, b) <==> exists k: nat :: SmallerAt(a, b, k)
  {
    if a != "" && b != "" && a[0] == b[0] {
      LessMeans(a[1..], b[1..]);
      if k: nat :| SmallerAt(a[1..], b[1..], k) { SmallerInTail(a, b, k); }
      if k: nat :| SmallerAt(a, b, k) {
        assert k > 0;
        SmallerInTail(a, b, k - 1);
      }
    } else {
      assert Less(a, b) <==> SmallerAt(a, b, 0);
      forall k: nat ensures SmallerAt(a, b, k) ==> k == 0 { SmallerStart(a, b, k); }
    }
  }

  /** The members of every printed object ascend by code point. */
  lemma MembersAscend(fs: seq<Field>)
    requires WellFormed(Obj(fs))
    ensures Canon(Obj(fs)).Obj? && multiset(Canon(Obj(fs)).fields) == multiset(CanonFields(fs))
    ensures SortedFields(Canon(Obj(fs)).fields)
    ensures Serialize(Obj(fs)) == ['{'] + PrintFields(Canon(Obj(fs)).fields, true, "")
  {
    SortFieldsSorted(CanonFields(fs));
  }

  /** Which characters stand for themselves, and how the others are written. */
  lemma EscapeForms(c: char, rest: string)
    ensures (c >= ' ' && c != '"' && c != '\\') <==> Escaped(c, rest)[0] != '\\'
    ensures Escaped(c, rest)[0] != '\\' ==> Escaped(c, rest) == [c] + rest
    ensures Escaped('"', rest) == "\\\"" + rest && Escaped('\\', rest) == "\\\\" + rest
    ensures Escaped('\n', rest) == "\\n" + rest && Escaped('\r', rest) == "\\r" + rest
    ensures Escaped('\t', rest) == "\\t" + rest && Escaped('\U{c}', rest) == "\\f" + rest
    ensures Escaped('\U{8}', rest) == "\\b" + rest
    ensures c < ' ' && c !in ['\n', '\r', '\t', '\U{c}', '\U{8}'] ==>
      |Escaped(c, rest)| == 6 + |rest| && Escaped(c, rest)[..4] == "\\u00" && Escaped(c, rest)[6..] == rest
      && Number(Escaped(c, rest)[4..6], "0123456789abcdef") == c as int
  {
    if c < ' ' && c !in ['\n', '\r', '\t', '\U{c}', '\U{8}'] {
      var h, l := HexDigit(c as int / 16), HexDigit(c as int % 16);
      assert Escaped(c, rest) == ['\\', 'u', '0', '0', h, l] + rest;
      assert Escaped(c, rest)[4..6] == [h] + [l];
      HexadecimalDigit(c as int / 16);
      HexadecimalDigit(c as int % 16);
      NumberOfMore([h], l, "0123456789abcdef");
      NumberOfMore("", h, "0123456789abcdef");
    }
  }
}
