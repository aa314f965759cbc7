/**
 * The JavaScript string primitives the application relies on, written out:
 * the whitespace set of `String.prototype.trim` and of the regular-expression
 * class `\s`, `trim`, `toLowerCase`, `parseInt`, `split(..)[0]`,
 * `split(..).pop()`, `replace(/\D/g, '')`, the e-mail pattern
 * `/^[^\s@]+@[^\s@]+\.[^\s@]+$/` and integer-to-text conversion.
 */
module JsText {
  import opened Wrappers

  /** An optional text that JavaScript treats as true: present and not empty. */
  predicate Truthy(o: Option<string>) {
    o.Some? && o.value != ""
  }

  /** The characters removed by `String.prototype.trim` and matched by `\s`
      (WhiteSpace and LineTerminator of ECMAScript). */
  predicate IsWhitespace(c: char) {
    || c == ' ' || c == '\t' || c == '\n' || c == '\r'
    || c == '\U{000B}' || c == '\U{000C}' || c == '\U{00A0}' || c == '\U{1680}'
    || ('\U{2000}' <= c <= '\U{200A}')
    || c == '\U{2028}' || c == '\U{2029}' || c == '\U{202F}' || c == '\U{205F}'
    || c == '\U{3000}' || c == '\U{FEFF}'
  }

  predicate AllWhitespace(s: string) {
    forall i :: 0 <= i < |s| ==> IsWhitespace(s[i])
  }

  /** Leading whitespace removed: what remains is a suffix of `s` and only whitespace was dropped. */
  function TrimStart(s: string): (r: string)
    ensures |r| <= |s| && r == s[|s| - |r|..]
    ensures AllWhitespace(s[..|s| - |r|])
    ensures r == [] || !IsWhitespace(r[0])
  {
    if |s| > 0 && IsWhitespace(s[0]) then
      var r := TrimStart(s[1..]);
      assert s[..|s| - |r|] == [s[0]] + s[1..][..|s| - 1 - |r|];
      r
    else s
  }

  /** Trailing whitespace removed: what remains is a prefix of `s` and only whitespace was dropped. */
  function TrimEnd(s: string): (r: string)
    ensures |r| <= |s| && r == s[..|r|]
    ensures AllWhitespace(s[|r|..])
    ensures r == [] || !IsWhitespace(r[|r| - 1])
  {
    if |s| > 0 && IsWhitespace(s[|s| - 1]) then
      var r := TrimEnd(s[..|s| - 1]);
      assert s[|r|..] == s[..|s| - 1][|r|..] + [s[|s| - 1]];
      r
    else s
  }

  /** `s.trim()`: empty exactly when `s` is all whitespace, and otherwise it
      neither starts nor ends with whitespace. */
  function Trim(s: string): (r: string)
    ensures |r| <= |s|
    ensures r == [] <==> AllWhitespace(s)
    ensures r == [] || (!IsWhitespace(r[0]) && !IsWhitespace(r[|r| - 1]))
  {
    TrimFacts(s);
    TrimEnd(TrimStart(s))
  }

  lemma TrimFacts(s: string)
    ensures var r := TrimEnd(TrimStart(s));
      (r == [] <==> AllWhitespace(s)) && (r == [] || r[0] == TrimStart(s)[0])
  {
    var t := TrimStart(s);
    TrimStartEmpty(s);
    TrimEndEmpty(t);
  }

  lemma TrimStartEmpty(s: string)
    ensures TrimStart(s) == [] <==> AllWhitespace(s)
  {
    if |s| > 0 && IsWhitespace(s[0]) {
      TrimStartEmpty(s[1..]);
    }
  }

  lemma TrimEndEmpty(s: string)
    ensures TrimEnd(s) == [] <==> AllWhitespace(s)
  {
    if |s| > 0 && IsWhitespace(s[|s| - 1]) {
      TrimEndEmpty(s[..|s| - 1]);
      assert s == s[..|s| - 1] + [s[|s| - 1]];
    }
  }

  lemma TrimStartAppend(x: string, y: string)
    ensures TrimStart(x) != [] ==> TrimStart(x + y) == TrimStart(x) + y
    ensures TrimStart(x) == [] ==> TrimStart(x + y) == TrimStart(y)
  {
    if |x| > 0 && IsWhitespace(x[0]) {
      assert (x + y)[1..] == x[1..] + y;
      TrimStartAppend(x[1..], y);
    } else if x == [] {
      assert x + y == y;
    }
  }

  lemma TrimStartWhitespacePrefix(p: string, s: string)
    requires AllWhitespace(p)
    ensures TrimStart(p + s) == TrimStart(s)
  {
    TrimStartEmpty(p);
    TrimStartAppend(p, s);
  }

  lemma TrimEndWhitespaceSuffix(s: string, q: string)
    requires AllWhitespace(q)
    ensures TrimEnd(s + q) == TrimEnd(s)
    decreases |q|
  {
    if q == [] {
      assert s + q == s;
    } else {
      var q' := q[..|q| - 1];
      assert (s + q)[..|s + q| - 1] == s + q';
      TrimEndWhitespaceSuffix(s, q');
    }
  }

  lemma TrimEndAppendWhitespace(u: string, q: string)
    requires AllWhitespace(u) && AllWhitespace(q)
    ensures TrimEnd(u + q) == []
  {
    TrimEndEmpty(u + q);
  }

  /** Whitespace around a text does not change its trimmed form. */
  lemma TrimIgnoresPadding(p: string, s: string, q: string)
    requires AllWhitespace(p) && AllWhitespace(q)
    ensures Trim(p + s + q) == Trim(s)
  {
    assert p + s + q == p + (s + q);
    TrimStartWhitespacePrefix(p, s + q);
    var t := TrimStart(s);
    TrimStartAppend(s, q);
    if t != [] {
      assert TrimStart(s + q) == t + q;
      TrimEndWhitespaceSuffix(t, q);
    } else {
      TrimStartEmpty(s);
      TrimStartEmpty(q);
      TrimEndEmpty(TrimStart(q));
      TrimEndEmpty(t);
    }
  }

  /** A text that neither starts nor ends with whitespace is its own trimmed form. */
  lemma TrimOfUnpadded(s: string)
    requires s == [] || (!IsWhitespace(s[0]) && !IsWhitespace(s[|s| - 1]))
    ensures Trim(s) == s
  {
    assert TrimStart(s) == s;
  }

  /** `toLowerCase` on one character; only the ASCII letters are mapped. */
  function LowerChar(c: char): char {
    if 'A' <= c <= 'Z' then (c as int + 32) as char else c
  }

  /** `s.toLowerCase()`, ASCII letters only. */
  function ToLower(s: string): (r: string)
    ensures |r| == |s|
    ensures forall i :: 0 <= i < |s| ==> r[i] == LowerChar(s[i])
  {
    seq(|s|, i requires 0 <= i < |s| => LowerChar(s[i]))
  }

  predicate IsDigit(c: char) {
    '0' <= c <= '9'
  }

  predicate AllDigits(s: string) {
    forall i :: 0 <= i < |s| ==> IsDigit(s[i])
  }

  /** `s.replace(/\D/g, '')`: the digits of `s`, in order. */
  function DigitsOnly(s: string): (r: string)
    ensures |r| <= |s|
    ensures AllDigits(r)
    ensures AllDigits(s) ==> r == s
  {
    if s == [] then [] else (if IsDigit(s[0]) then [s[0]] else []) + DigitsOnly(s[1..])
  }

  predicate StartsWith(s: string, prefix: string) {
    |prefix| <= |s| && s[..|prefix|] == prefix
  }

  /** `s.split(sep)[0]`: the text before the first `sep`, or all of `s`. */
  function BeforeFirst(s: string, sep: char): (r: string)
    ensures |r| <= |s| && r == s[..|r|]
    ensures sep !in r
    ensures |r| < |s| ==> s[|r|] == sep
  {
    if s == [] || s[0] == sep then []
    else
      var r := [s[0]] + BeforeFirst(s[1..], sep);
      assert r == s[..|r|];
      r
  }

  /** The text before the first separator does not depend on what follows it. */
  lemma {:induction false} BeforeFirstAppend(s: string, sep: char, t: string)
    requires sep !in s
    ensures BeforeFirst(s + [sep] + t, sep) == s
  {
    if s != [] {
      assert (s + [sep] + t)[1..] == s[1..] + [sep] + t;
      BeforeFirstAppend(s[1..], sep, t);
    }
  }

  /** `parseInt(s.split('-')[0])`: the year of a `YYYY-MM-DD` date text. */
  function YearOfDate(s: string): Option<int> {
    ParseInt(BeforeFirst(s, '-'))
  }

  /** A date written from a year, a dash and anything reads back that year. */
  lemma YearOfWrittenDate(year: nat, rest: string)
    ensures YearOfDate(NatToString(year) + "-" + rest) == Some(year)
  {
    var ds := NatToString(year);
    assert '-' !in ds;
    BeforeFirstAppend(ds, '-', rest);
    assert ds + "-" + rest == ds + ['-'] + rest;
    ParseIntOfIntToString(year, true);
  }

  /** `s.split(sep).pop()`: the text after the last `sep`, or all of `s` when it has none. */
  function AfterLast(s: string, sep: char): (r: string)
    ensures |r| <= |s| && r == s[|s| - |r|..]
    ensures sep !in r
    ensures |r| < |s| ==> s[|s| - |r| - 1] == sep
  {
    if s == [] || s[|s| - 1] == sep then []
    else
      var r := AfterLast(s[..|s| - 1], sep) + [s[|s| - 1]];
      assert r == s[|s| - |r|..];
      r
  }

  /** `pat` occurs in `s` starting at index `k`. */
  predicate OccursAt(s: string, pat: string, k: int) {
    0 <= k && k + |pat| <= |s| && s[k..k + |pat|] == pat
  }

  /** Index of the first occurrence of `pat` in `s`. */
  function IndexOfText(s: string, pat: string): (r: Option<nat>)
    ensures r.Some? ==> OccursAt(s, pat, r.value)
    ensures r.Some? ==> forall k :: 0 <= k < r.value ==> !OccursAt(s, pat, k)
    ensures r.None? ==> forall k :: !OccursAt(s, pat, k)
    decreases |s|
  {
    if |s| < |pat| then None
    else if s[..|pat|] == pat then Some(0)
    else
      var r := IndexOfText(s[1..], pat);
      forall k | 0 < k ensures OccursAt(s, pat, k) <==> OccursAt(s[1..], pat, k - 1) {
        if k + |pat| <= |s| {
          SliceOfTail(s, k, |pat|);
        }
      }
      if r.Some? then Some(r.value + 1) else None
  }

  /** A slice that starts after the first character is the same slice of the tail. */
  lemma SliceOfTail(s: string, k: nat, n: nat)
    requires 0 < k && k + n <= |s|
    ensures s[k..k + n] == s[1..][k - 1..k - 1 + n]
  {
    var u := s[k..k + n];
    var v := s[1..][k - 1..k - 1 + n];
    forall j | 0 <= j < n ensures u[j] == v[j] {
      assert u[j] == s[k + j];
    }
    assert u == v;
  }

  /** `s.replace(pat, rep)` with a string pattern: only the first occurrence is replaced. */
  function ReplaceFirst(s: string, pat: string, rep: string): (r: string)
    ensures IndexOfText(s, pat).None? ==> r == s
    ensures IndexOfText(s, pat).Some? ==>
      var i := IndexOfText(s, pat).value; r == s[..i] + rep + s[i + |pat|..]
  {
    match IndexOfText(s, pat)
    case None => s
    case Some(i) => s[..i] + rep + s[i + |pat|..]
  }

  /** A text that begins with the pattern loses exactly that prefix. */
  lemma ReplaceFirstOfPrefix(pat: string, t: string)
    ensures ReplaceFirst(pat + t, "" + pat, "") == t
  {
    var s := pat + t;
    assert s[..|pat|] == pat;
    assert IndexOfText(s, pat) == Some(0);
    assert s[|pat|..] == t;
  }

  // ---------------------------------------------------------------------
  // parseInt
  // ---------------------------------------------------------------------

  /** The value of a digit in radix up to 36; 36 for anything that is no digit. */
  function DigitValue(c: char): (v: nat)
    ensures v <= 36
  {
    if '0' <= c <= '9' then c as int - '0' as int
    else if 'a' <= c <= 'z' then c as int - 'a' as int + 10
    else if 'A' <= c <= 'Z' then c as int - 'A' as int + 10
    else 36
  }

  /** Length of the longest prefix of `s` made of digits of `radix`. */
  function DigitPrefixLength(s: string, radix: nat): (n: nat)
    ensures n <= |s|
    ensures forall i :: 0 <= i < n ==> DigitValue(s[i]) < radix
    ensures n == |s| || DigitValue(s[n]) >= radix
  {
    if s == [] || DigitValue(s[0]) >= radix then 0 else 1 + DigitPrefixLength(s[1..], radix)
  }

  /** The number written by `ds` in `radix`, most significant digit first. */
  function DigitsValue(ds: string, radix: nat): int {
    if ds == [] then 0 else DigitsValue(ds[..|ds| - 1], radix) * radix + DigitValue(ds[|ds| - 1])
  }

  /** `parseInt(s)` with no radix argument; `None` is `NaN`. Leading whitespace
      is skipped, one sign is read, a `0x`/`0X` prefix selects radix 16, and the
      longest run of digits that follows is read. */
  function ParseInt(s: string): Option<int> {
    ParseSigned(s, true)
  }

  /** `parseInt(s, 10)`: as `ParseInt`, but a `0x` prefix is not special. */
  function ParseInt10(s: string): Option<int> {
    ParseSigned(s, false)
  }

  /** Leading whitespace and one sign, then the unsigned part. */
  function ParseSigned(s: string, allowHex: bool): Option<int> {
    var t := TrimStart(s);
    if |t| > 0 && t[0] == '-' then
      match ParseMagnitude(t[1..], allowHex)
      case None => None
      case Some(m) => Some(-m)
    else if |t| > 0 && t[0] == '+' then ParseMagnitude(t[1..], allowHex)
    else ParseMagnitude(t, allowHex)
  }

  /** The unsigned part of `parseInt`: a `0x`/`0X` prefix selects radix 16 when
      allowed, then the longest run of digits is read; `None` when there is none. */
  function ParseMagnitude(u: string, allowHex: bool): Option<int> {
    var hex := allowHex && |u| >= 2 && u[0] == '0' && (u[1] == 'x' || u[1] == 'X');
    var radix := if hex then 16 else 10;
    var body := if hex then u[2..] else u;
    var n := DigitPrefixLength(body, radix);
    if n == 0 then None else Some(DigitsValue(body[..n], radix))
  }

  /** Decimal text of a natural number, without leading zeros. */
  function NatToString(n: nat): (r: string)
    ensures |r| > 0 && AllDigits(r)
  {
    var d := ['0' + (n % 10) as char];
    if n < 10 then d else NatToString(n / 10) + d
  }

  /** `10^k`. */
  function Pow10(k: nat): (p: nat)
    ensures p >= 1
  {
    if k == 0 then 1 else 10 * Pow10(k - 1)
  }

  /** A number with `k` digits is written with `k` characters. */
  lemma {:induction false} NatToStringLength(n: nat, k: nat)
    requires k >= 1 && Pow10(k - 1) <= n < Pow10(k)
    ensures |NatToString(n)| == k
    decreases k
  {
    if k > 1 {
      NatToStringLength(n / 10, k - 1);
    }
  }

  /** The text JavaScript produces for an integer in a template string. */
  function IntToString(i: int): (r: string)
    ensures |r| > 0
  {
    if i < 0 then "-" + NatToString(-i) else NatToString(i)
  }

  lemma {:induction false} NatToStringValue(n: nat)
    ensures DigitsValue(NatToString(n), 10) == n
    decreases n
  {
    var r := NatToString(n);
    if n >= 10 {
      NatToStringValue(n / 10);
      assert r[..|r| - 1] == NatToString(n / 10);
    }
  }

  lemma AllDigitsPrefix(s: string)
    requires AllDigits(s)
    ensures DigitPrefixLength(s, 10) == |s|
  {
    if s != [] {
      AllDigitsPrefix(s[1..]);
    }
  }

  /** `parseInt` reads a run of decimal digits as written. */
  lemma ParseMagnitudeOfDigits(ds: string, allowHex: bool)
    requires |ds| > 0 && AllDigits(ds)
    ensures ParseMagnitude(ds, allowHex) == Some(DigitsValue(ds, 10))
  {
    AllDigitsPrefix(ds);
    assert ds[..|ds|] == ds;
    if |ds| >= 2 {
      assert IsDigit(ds[1]);
    }
  }

  /** `parseInt`, with or without radix 10, reads back the text written for any integer. */
  lemma ParseIntOfIntToString(i: int, allowHex: bool)
    ensures ParseSigned(IntToString(i), allowHex) == Some(i)
  {
    var m: nat := if i < 0 then -i else i;
    var ds := NatToString(m);
    NatToStringValue(m);
    ParseMagnitudeOfDigits(ds, allowHex);
    if i < 0 {
      ParseNegative(ds, allowHex);
    } else {
      ParseNonNegative(ds, allowHex);
    }
  }

  lemma ParseNegative(ds: string, allowHex: bool)
    requires |ds| > 0 && ParseMagnitude(ds, allowHex).Some?
    ensures ParseSigned("-" + ds, allowHex) == Some(-ParseMagnitude(ds, allowHex).value)
  {
    var s := "-" + ds;
    TrimStartKeeps(s);
    assert s[1..] == ds;
  }

  lemma ParseNonNegative(ds: string, allowHex: bool)
    requires |ds| > 0 && IsDigit(ds[0])
    ensures ParseSigned(ds, allowHex) == ParseMagnitude(ds, allowHex)
  {
    TrimStartKeeps(ds);
  }

  lemma TrimStartKeeps(s: string)
    requires |s| > 0 && (s[0] == '-' || IsDigit(s[0]))
    ensures TrimStart(s) == s
  {
    assert !IsWhitespace(s[0]);
  }

  // ---------------------------------------------------------------------
  // The e-mail pattern /^[^\s@]+@[^\s@]+\.[^\s@]+$/
  // ---------------------------------------------------------------------

  /** A character of the class `[^\s@]`. */
  predicate IsPlain(c: char) {
    !IsWhitespace(c) && c != '@'
  }

  predicate AllPlain(s: string) {
    forall i :: 0 <= i < |s| ==> IsPlain(s[i])
  }

  /** Index of the first `c` in `s`. */
  function IndexOf(s: string, c: char): (r: Option<nat>)
    ensures r.Some? ==> r.value < |s| && s[r.value] == c && c !in s[..r.value]
    ensures r.None? ==> c !in s
  {
    if s == [] then None
    else if s[0] == c then Some(0)
    else
      var r := IndexOf(s[1..], c);
      if r.Some? then
        assert s[..r.value + 1] == [s[0]] + s[1..][..r.value];
        Some(r.value + 1)
      else None
  }

  /** A `.` in `d` that is neither its first nor its last character. */
  predicate HasInnerDot(d: string) {
    exists k :: 0 < k < |d| - 1 && d[k] == '.'
  }

  /** `isValidEmail`: the e-mail pattern, checked around the first `@`. */
  predicate IsValidEmail(s: string) {
    match IndexOf(s, '@')
    case None => false
    case Some(at) => at > 0 && AllPlain(s[..at]) && AllPlain(s[at + 1..]) && HasInnerDot(s[at + 1..])
  }

  /** One way of matching the pattern: the text before `at`, between `at` and
      `dot`, and after `dot` are non-empty runs of `[^\s@]`. */
  ghost predicate EmailPatternMatch(s: string, at: int, dot: int) {
    && 0 < at && at + 1 < dot && dot + 1 < |s|
    && s[at] == '@' && s[dot] == '.'
    && AllPlain(s[..at]) && AllPlain(s[at + 1..dot]) && AllPlain(s[dot + 1..])
  }

  /** The check agrees with the regular expression: it holds exactly when some
      split of `s` matches the three plain runs around `@` and `.`. */
  lemma IsValidEmailMatchesPattern(s: string)
    ensures IsValidEmail(s) <==> exists at, dot :: EmailPatternMatch(s, at, dot)
  {
    if IsValidEmail(s) {
      var at := IndexOf(s, '@').value;
      var d := s[at + 1..];
      var k :| 0 < k < |d| - 1 && d[k] == '.';
      var dot := at + 1 + k;
      assert s[at + 1..dot] == d[..k];
      assert s[dot + 1..] == d[k + 1..];
      assert EmailPatternMatch(s, at, dot);
    }
    if exists at, dot :: EmailPatternMatch(s, at, dot) {
      var at, dot :| EmailPatternMatch(s, at, dot);
      assert s[..at][..] == s[..at];
      forall i | 0 <= i < at ensures s[i] != '@' {
        assert s[i] == s[..at][i];
      }
      assert '@' !in s[..at];
      var r := IndexOf(s, '@');
      assert r.Some?;
      assert r.value == at;
      var d := s[at + 1..];
      forall i | 0 <= i < |d| ensures IsPlain(d[i]) {
        var j := at + 1 + i;
        if j < dot {
          assert d[i] == s[at + 1..dot][i];
        } else if j > dot {
          assert d[i] == s[dot + 1..][j - dot - 1];
        }
      }
      assert d[dot - at - 1] == '.';
    }
  }

  /** Consequences named in the pattern: exactly one `@` and no whitespace. */
  lemma ValidEmailHasOneAtAndNoSpace(s: string, i: int)
    requires IsValidEmail(s) && 0 <= i < |s|
    ensures !IsWhitespace(s[i])
    ensures s[i] == '@' <==> i == IndexOf(s, '@').value
  {
    var at := IndexOf(s, '@').value;
    if i < at {
      assert s[i] == s[..at][i];
    } else if i > at {
      assert s[i] == s[at + 1..][i - at - 1];
    }
  }
}
