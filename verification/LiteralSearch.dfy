/** Free-text search: escaping the user's text so that a LIKE pattern matches it literally. */
module LiteralSearch {
  import opened Text

  /** Python's str.replace for a one-character target. */
  function Replace(s: string, target: char, text: string): string {
    if s == "" then ""
    else (if s[0] == target then text else [s[0]]) + Replace(s[1..], target, text)
  }

  function EscapeLike(s: string): string {
    Replace(Replace(Replace(s, '\\', "\\\\"), '%', "\\%"), '_', "\\_")
  }

  predicate Special(c: char) { c == '\\' || c == '%' || c == '_' }

  /** SQL's LIKE with a backslash as escape character (SQL-92, section 8.5). A pattern ending in a
      lone escape character is an error there; it matches nothing here. */
  predicate Like(p: string, s: string)
    decreases |p| + |s|
  {
    if p == "" then s == ""
    else if p[0] == '%' then Like(p[1..], s) || (s != "" && Like(p, s[1..]))
    else if s == "" then false
    else if p[0] == '_' then Like(p[1..], s[1..])
    else if p[0] == '\\' then |p| > 1 && p[1] == s[0] && Like(p[2..], s[1..])
    else p[0] == s[0] && Like(p[1..], s[1..])
  }

  /** ILIKE compares case-folded pattern and text. */
  predicate ILike(fold: char -> char, p: string, s: string) {
    Like(MapText(fold, p), MapText(fold, s))
  }

  /** What is assumed of the database's case folding: it leaves the pattern characters alone. */
  ghost predicate FoldsLetters(fold: char -> char) {
    forall c :: if Special(c) then fold(c) == c else !Special(fold(c))
  }

  function SearchPattern(q: string): string {
    "%" + EscapeLike(q) + "%"
  }

  /** `q` stands somewhere in `s`. */
  predicate Occurs(q: string, s: string) {
    exists k :: 0 <= k <= |s| && q <= s[k..]
  }

  /******* The three replaces are one pass over the characters *******/

  function EscapeOnce(s: string): string {
    if s == "" then "" else (if Special(s[0]) then ['\\', s[0]] else [s[0]]) + EscapeOnce(s[1..])
  }

  lemma {:induction false} ReplaceAppend(a: string, b: string, target: char, text: string)
    ensures Replace(a + b, target, text) == Replace(a, target, text) + Replace(b, target, text)
  {
    if a == "" {
      assert a + b == b;
    } else {
      assert (a + b)[1..] == a[1..] + b;
      ReplaceAppend(a[1..], b, target, text);
    }
  }

  lemma ReplaceChar(c: char, target: char, text: string)
    ensures Replace([c], target, text) == if c == target then text else [c]
  {
    assert [c][1..] == "";
  }

  lemma {:induction false} EscapeIsOnePass(s: string)
    ensures EscapeLike(s) == EscapeOnce(s)
  {
    if s != "" {
      var a := if s[0] == '\\' then "\\\\" else [s[0]];
      var b := if s[0] == '%' then "\\%" else a;
      var rest := Replace(s[1..], '\\', "\\\\");
      ReplaceAppend(a, rest, '%', "\\%");
      ReplaceChar(s[0], '%', "\\%");
      ReplaceChar('\\', '%', "\\%");
      assert "\\\\" == ['\\'] + ['\\'];
      ReplaceAppend(['\\'], ['\\'], '%', "\\%");
      assert Replace(a, '%', "\\%") == b;
      ReplaceAppend(b, Replace(rest, '%', "\\%"), '_', "\\_");
      ReplaceChar(s[0], '_', "\\_");
      ReplaceChar('\\', '_', "\\_");
      ReplaceChar('%', '_', "\\_");
      ReplaceAppend(['\\'], ['\\'], '_', "\\_");
      assert "\\%" == ['\\'] + ['%'];
      ReplaceAppend(['\\'], ['%'], '_', "\\_");
      EscapeIsOnePass(s[1..]);
    }
  }

  lemma {:induction false} EscapeOnceInjective(p: string, q: string)
    requires EscapeOnce(p) == EscapeOnce(q)
    ensures p == q
  {
    if p != "" && q != "" {
      var d := if Special(p[0]) then 2 else 1;
      assert EscapeOnce(p)[0] == EscapeOnce(q)[0];
      assert EscapeOnce(p)[d..] == EscapeOnce(p[1..]) && EscapeOnce(q)[d..] == EscapeOnce(q[1..]);
      EscapeOnceInjective(p[1..], q[1..]);
      assert p == [p[0]] + p[1..] && q == [q[0]] + q[1..];
    }
  }

  /** Different search texts never share a pattern. */
  lemma EscapeInjective(p: string, q: string)
    requires EscapeLike(p) == EscapeLike(q)
    ensures p == q
  {
    EscapeIsOnePass(p);
    EscapeIsOnePass(q);
    EscapeOnceInjective(p, q);
  }

  lemma {:induction false} FoldEscape(fold: char -> char, q: string)
    requires FoldsLetters(fold)
    ensures MapText(fold, EscapeOnce(q)) == EscapeOnce(MapText(fold, q))
  {
    if q != "" {
      FoldEscape(fold, q[1..]);
      assert MapText(fold, q)[1..] == MapText(fold, q[1..]);
      var head := if Special(q[0]) then ['\\', q[0]] else [q[0]];
      assert fold('\\') == '\\';
      assert MapText(fold, head) == if Special(fold(q[0])) then ['\\', fold(q[0])] else [fold(q[0])];
      assert MapText(fold, head + EscapeOnce(q[1..])) == MapText(fold, head) + MapText(fold, EscapeOnce(q[1..]));
    }
  }

  /******* The matcher on such patterns *******/

  lemma {:induction false} PercentMatchesAll(s: string)
    ensures Like("%", s)
  {
    if s == "" {
      assert "%"[1..] == "";
    } else {
      PercentMatchesAll(s[1..]);
    }
  }

  lemma {:induction false} LikePrefix(q: string, s: string)
    ensures Like(EscapeOnce(q) + "%", s) <==> q <= s
  {
    var p := EscapeOnce(q) + "%";
    if q == "" {
      assert p == "%";
      PercentMatchesAll(s);
    } else {
      var d := if Special(q[0]) then 2 else 1;
      assert p[d..] == EscapeOnce(q[1..]) + "%";
      assert p[d - 1] == q[0] && (d == 2 ==> p[0] == '\\');
      if s != "" {
        LikePrefix(q[1..], s[1..]);
        assert q == [q[0]] + q[1..] && s == [s[0]] + s[1..];
      }
    }
  }

  lemma {:induction false} LikeOccurs(q: string, s: string)
    ensures Like("%" + (EscapeOnce(q) + "%"), s) <==> Occurs(q, s)
  {
    var p := EscapeOnce(q) + "%";
    assert ("%" + p)[1..] == p;
    LikePrefix(q, s);
    assert s[0..] == s;
    if s != "" {
      LikeOccurs(q, s[1..]);
      if Occurs(q, s[1..]) {
        var k :| 0 <= k <= |s[1..]| && q <= s[1..][k..];
        assert s[k + 1..] == s[1..][k..];
      }
      if Occurs(q, s) && !(q <= s) {
        var k :| 0 <= k <= |s| && q <= s[k..];
        assert s[1..][k - 1..] == s[k..];
      }
    }
  }

  /** Some end of `s` matches. */
  predicate EndLike(p: string, s: string) {
    exists k :: 0 <= k <= |s| && Like(p, s[k..])
  }

  lemma EndOf(p: string, s: string)
    requires s != ""
    ensures EndLike(p, s) <==> Like(p, s) || EndLike(p, s[1..])
  {
    hide Like;
    assert s[0..] == s;
    if EndLike(p, s[1..]) {
      var k :| 0 <= k <= |s[1..]| && Like(p, s[1..][k..]);
      assert s[k + 1..] == s[1..][k..];
    }
    if EndLike(p, s) && !Like(p, s) {
      var k :| 0 <= k <= |s| && Like(p, s[k..]);
      assert s[1..][k - 1..] == s[k..];
    }
  }

  /** Unescaped, the pattern characters are wildcards: `%` for any text... */
  lemma {:induction false} PercentIsAnyText(p: string, s: string)
    ensures Like("%" + p, s) <==> EndLike(p, s)
    decreases |s|
  {
    assert ("%" + p)[1..] == p;
    if s == "" {
      assert s[0..] == s;
    } else {
      PercentIsAnyText(p, s[1..]);
      EndOf(p, s);
    }
  }

  /** ... and `_` for any one character. */
  lemma UnderscoreIsAnyCharacter(p: string, s: string)
    ensures Like("_" + p, s) <==> s != "" && Like(p, s[1..])
  {
    assert ("_" + p)[1..] == p;
  }

  /** The search finds exactly the texts that contain the query, letter case aside: none of the
      query's characters acts as a wildcard. */
  lemma SearchIsLiteral(fold: char -> char, q: string, s: string)
    requires FoldsLetters(fold)
    ensures ILike(fold, SearchPattern(q), s) <==> Occurs(MapText(fold, q), MapText(fold, s))
  {
    EscapeIsOnePass(q);
    FoldEscape(fold, q);
    var e := EscapeOnce(q);
    assert fold('%') == '%';
    assert MapText(fold, "%" + e + "%") == "%" + (MapText(fold, e) + "%");
    LikeOccurs(MapText(fold, q), MapText(fold, s));
  }
}
