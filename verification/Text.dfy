/** Text forms of numbers and identifiers, and when a concatenation can be taken apart again. */
module Text {
  import opened Domain

  /** Characters that Python's str.strip removes. */
  predicate IsSpace(c: char) {
    || '\t' <= c <= '\r' || '\U{1c}' <= c <= ' ' || c == '\U{85}' || c == '\U{a0}' || c == '\U{1680}'
    || '\U{2000}' <= c <= '\U{200a}' || c == '\U{2028}' || c == '\U{2029}' || c == '\U{202f}'
    || c == '\U{205f}' || c == '\U{3000}'
  }

  function Strip(s: string): (r: string)
    ensures r == "" || (!IsSpace(r[0]) && !IsSpace(r[|r| - 1]))
  {
    if s == "" then ""
    else if IsSpace(s[0]) then Strip(s[1..])
    else if IsSpace(s[|s| - 1]) then Strip(s[..|s| - 1])
    else s
  }

  /** Python's blanks by code point. */
  lemma BlankCodePoints(c: char)
    ensures IsSpace(c) <==> c as int in {9, 10, 11, 12, 13, 28, 29, 30, 31, 32, 133, 160, 5760, 8192, 8193, 8194, 8195,
                                         8196, 8197, 8198, 8199, 8200, 8201, 8202, 8232, 8233, 8239, 8287, 12288}
  {
  }

  predicate AllBlank(s: string) {
    forall i :: 0 <= i < |s| ==> IsSpace(s[i])
  }

  /** Stripping takes blanks from the two ends and nothing else; what is left begins and ends with
      something else. */
  lemma {:induction false} StripTakesEnds(s: string) returns (left: string, right: string)
    ensures s == left + Strip(s) + right && AllBlank(left) && AllBlank(right)
    ensures Strip(s) == "" || (!IsSpace(Strip(s)[0]) && !IsSpace(Strip(s)[|Strip(s)| - 1]))
    decreases |s|
  {
    if s != "" && IsSpace(s[0]) {
      var l, r := StripTakesEnds(s[1..]);
      left, right := [s[0]] + l, r;
      OneMoreInFront(s, l, Strip(s), r);
    } else if s != "" && IsSpace(s[|s| - 1]) {
      var l, r := StripTakesEnds(s[..|s| - 1]);
      left, right := l, r + [s[|s| - 1]];
      OneMoreBehind(s, l, Strip(s), r);
    } else {
      left, right := "", "";
      assert s == "" + s + "";
    }
  }

  lemma OneMoreInFront(s: string, left: string, mid: string, right: string)
    requires s != "" && s[1..] == left + mid + right
    ensures s == ([s[0]] + left) + mid + right
  {
    assert s == [s[0]] + s[1..];
  }

  lemma OneMoreBehind(s: string, left: string, mid: string, right: string)
    requires s != "" && s[..|s| - 1] == left + mid + right
    ensures s == left + mid + (right + [s[|s| - 1]])
  {
    assert s == s[..|s| - 1] + [s[|s| - 1]];
  }

  /** Reads `s` through a character function, as a case fold does. */
  function MapText(f: char -> char, s: string): (r: string)
    ensures |r| == |s| && forall i :: 0 <= i < |s| ==> r[i] == f(s[i])
  {
    seq(|s|, i requires 0 <= i < |s| => f(s[i]))
  }

  predicate IsDigit(c: char) { '0' <= c <= '9' }

  function Digit(n: nat): (c: char)
    requires n < 10
    ensures IsDigit(c)
  {
    '0' + n as char
  }

  function NatText(n: nat): (s: string)
    ensures s != "" && forall i :: 0 <= i < |s| ==> IsDigit(s[i])
  {
    if n < 10 then [Digit(n)] else NatText(n / 10) + [Digit(n % 10)]
  }

  function IntText(n: int): string {
    if n < 0 then "-" + NatText(-n) else NatText(n)
  }

  function HexDigit(n: nat): (c: char)
    requires n < 16
    ensures c != ':'
  {
    if n < 10 then Digit(n) else 'a' + (n - 10) as char
  }

  /** The low `width` hexadecimal digits of `n`, most significant first. */
  function HexText(n: nat, width: nat): (s: string)
    ensures |s| == width && forall i :: 0 <= i < width ==> s[i] != ':'
  {
    if width == 0 then "" else HexText(n / 16, width - 1) + [HexDigit(n % 16)]
  }

  function DashesBefore(k: nat): nat {
    if k <= 8 then 0 else if k <= 13 then 1 else if k <= 18 then 2 else if k <= 23 then 3 else 4
  }

  /** The usual 8-4-4-4-12 form of a UUID. */
  function UuidText(id: Uuid): (s: string)
    ensures |s| == 36 && forall k :: 0 <= k < 36 ==> s[k] != ':'
  {
    var h := HexText(id, 32);
    seq(36, k requires 0 <= k < 36 => if k == 8 || k == 13 || k == 18 || k == 23 then '-' else h[k - DashesBefore(k)])
  }

  lemma {:induction false} NatTextInjective(m: nat, n: nat)
    requires NatText(m) == NatText(n)
    ensures m == n
  {
    var s, t := NatText(m), NatText(n);
    assert s[|s| - 1] == t[|t| - 1];
    assert m >= 10 <==> |s| > 1;
    assert n >= 10 <==> |t| > 1;
    if m >= 10 {
      assert s[..|s| - 1] == NatText(m / 10) && t[..|t| - 1] == NatText(n / 10);
      NatTextInjective(m / 10, n / 10);
    }
  }

  lemma {:induction false} HexTextInjective(m: nat, n: nat, width: nat)
    requires m < Pow16(width) && n < Pow16(width)
    requires HexText(m, width) == HexText(n, width)
    ensures m == n
  {
    if width > 0 {
      var s, t := HexText(m, width), HexText(n, width);
      assert s[width - 1] == HexDigit(m % 16) && t[width - 1] == HexDigit(n % 16);
      assert s[..width - 1] == HexText(m / 16, width - 1) && t[..width - 1] == HexText(n / 16, width - 1);
      HexTextInjective(m / 16, n / 16, width - 1);
    }
  }

  /** The number that decimal digits stand for, and that hexadecimal ones do. */
  function Number(s: string, digits: string): nat {
    if s == "" then 0
    else Number(s[..|s| - 1], digits) * |digits| + Position(s[|s| - 1], digits)
  }

  function Position(c: char, digits: string): (k: nat)
    ensures k <= |digits| && (k < |digits| ==> digits[k] == c)
  {
    if digits == "" || digits[0] == c then 0 else 1 + Position(c, digits[1..])
  }

  lemma {:induction false} PositionOf(digits: string, k: nat)
    requires k < |digits| && forall i, j :: 0 <= i < j < |digits| ==> digits[i] != digits[j]
    ensures Position(digits[k], digits) == k
  {
    if k > 0 {
      assert digits[0] != digits[k];
      PositionOf(digits[1..], k - 1);
    }
  }

  lemma NumberOfMore(s: string, c: char, digits: string)
    ensures Number(s + [c], digits) == Number(s, digits) * |digits| + Position(c, digits)
    ensures Number([c], digits) == Position(c, digits)
  {
    assert (s + [c])[..|s|] == s;
    assert [c][..0] == "";
  }

  lemma DecimalDigit(n: nat)
    requires n < 10
    ensures Position(Digit(n), "0123456789") == n
  {
    assert Digit(n) == "0123456789"[n];
    PositionOf("0123456789", n);
  }

  lemma HexadecimalDigit(n: nat)
    requires n < 16
    ensures Position(HexDigit(n), "0123456789abcdef") == n
  {
    assert HexDigit(n) == "0123456789abcdef"[n];
    PositionOf("0123456789abcdef", n);
  }

  /** A number's text is its decimal form, without leading zeros. */
  lemma {:induction false} NatTextIsDecimal(n: nat)
    ensures Number(NatText(n), "0123456789") == n
    ensures NatText(n)[0] == '0' ==> n == 0
  {
    hide Number, Position, Digit;
    DecimalDigit(n % 10);
    if n >= 10 {
      NumberOfMore(NatText(n / 10), Digit(n % 10), "0123456789");
      NatTextIsDecimal(n / 10);
    } else {
      NumberOfMore("", Digit(n), "0123456789");
      if Digit(n) == '0' { FirstDigit(n); }
    }
  }

  lemma FirstDigit(n: nat)
    requires n < 10 && Digit(n) == '0'
    ensures n == 0
  {
  }

  lemma {:induction false} HexTextIsHexadecimal(n: nat, width: nat)
    requires n < Pow16(width)
    ensures Number(HexText(n, width), "0123456789abcdef") == n
  {
    if width == 0 {
      assert Number("", "0123456789abcdef") == 0;
    } else {
      hide Number, Position, HexDigit;
      HexadecimalDigit(n % 16);
      NumberOfMore(HexText(n / 16, width - 1), HexDigit(n % 16), "0123456789abcdef");
      HexTextIsHexadecimal(n / 16, width - 1);
    }
  }

  lemma FiveParts(h: string)
    requires |h| == 32
    ensures h[..8] + h[8..12] + h[12..16] + h[16..20] + h[20..] == h
  {
    assert h[..8] + h[8..12] == h[..12] && h[..12] + h[12..16] == h[..16] && h[..16] + h[16..20] == h[..20];
  }

  /** A UUID's text is its 32 hexadecimal digits with dashes after 8, 12, 16 and 20 of them. */
  lemma UuidTextLayout(id: Uuid)
    ensures var s := UuidText(id);
      && s[8] == s[13] == s[18] == s[23] == '-'
      && s[..8] + s[9..13] + s[14..18] + s[19..23] + s[24..] == HexText(id, 32)
      && Number(HexText(id, 32), "0123456789abcdef") == id
  {
    HexTextIsHexadecimal(id, 32);
    hide HexText, Number;
    FiveParts(HexText(id, 32));
    UuidTextParts(id);
  }

  lemma UuidTextParts(id: Uuid)
    ensures var (s, h) := (UuidText(id), HexText(id, 32));
      && s[8] == s[13] == s[18] == s[23] == '-'
      && s[..8] == h[..8] && s[9..13] == h[8..12] && s[14..18] == h[12..16]
      && s[19..23] == h[16..20] && s[24..] == h[20..]
  {
    hide HexText;
  }

  lemma UuidTextInjective(a: Uuid, b: Uuid)
    requires UuidText(a) == UuidText(b)
    ensures a == b
  {
    var g, h := HexText(a, 32), HexText(b, 32);
    forall i | 0 <= i < 32 ensures g[i] == h[i] {
      var k := if i < 8 then i else if i < 12 then i + 1 else if i < 16 then i + 2 else if i < 20 then i + 3 else i + 4;
      assert UuidText(a)[k] == g[i] && UuidText(b)[k] == h[i];
    }
    assert g == h;
    HexTextInjective(a, b, 32);
  }

  /** A run of characters in `p` ends where the first character outside `p` stands. */
  lemma SpanUnique(p: char -> bool, a: string, b: string, x: string, y: string)
    requires forall i :: 0 <= i < |a| ==> p(a[i])
    requires forall i :: 0 <= i < |b| ==> p(b[i])
    requires (x == "" || !p(x[0])) && (y == "" || !p(y[0]))
    requires a + x == b + y
    ensures a == b && x == y
  {
    var whole := a + x;
    assert forall i :: 0 <= i < |a| ==> p(whole[i]);
    assert forall i :: 0 <= i < |b| ==> p(whole[i]);
    assert |a| < |whole| ==> whole[|a|] == x[0];
    assert |b| < |whole| ==> whole[|b|] == y[0];
    assert |a| == |b|;
    assert a == (a + x)[..|a|] && b == (b + y)[..|b|];
    assert x == (a + x)[|a|..] && y == (b + y)[|b|..];
  }

  /** Numbers followed by something that is not a digit can be told apart from what follows. */
  lemma IntTextUnique(m: int, n: int, x: string, y: string)
    requires (x == "" || !IsDigit(x[0])) && (y == "" || !IsDigit(y[0]))
    requires IntText(m) + x == IntText(n) + y
    ensures m == n && x == y
  {
    IntTextHead(m, x);
    IntTextHead(n, y);
    if m < 0 {
      SpanUnique(IsDigit, NatText(-m), NatText(-n), x, y);
      NatTextInjective(-m, -n);
    } else {
      SpanUnique(IsDigit, NatText(m), NatText(n), x, y);
      NatTextInjective(m, n);
    }
  }

  /** Only a negative number's text starts with a minus sign; the digits follow. */
  lemma IntTextHead(m: int, x: string)
    ensures (IntText(m) + x)[0] == '-' <==> m < 0
    ensures m < 0 ==> (IntText(m) + x)[1..] == NatText(-m) + x
  {
    if m < 0 {
      assert ("-" + NatText(-m) + x)[1..] == NatText(-m) + x;
    } else {
      assert IsDigit(NatText(m)[0]);
    }
  }
}
