/**
 * The JavaScript built-ins the simulator relies on, over strings of Unicode
 * characters: `String.prototype.indexOf` / `Array.prototype.indexOf`,
 * `String.prototype.trim`, `parseInt(s, 10)`, the plain decimal rendering a
 * template literal gives a small integer, and `toUpperCase` on ASCII.
 */
module JsStrings {
  import opened Wrappers

  /** ECMAScript WhiteSpace and LineTerminator code points: what `trim`,
      `parseInt` and the regular-expression class `\s` all skip. */
  predicate IsWhitespace(c: char) {
    c == '\t' || c == '\n' || c == '\U{000B}' || c == '\U{000C}' || c == '\r' || c == ' ' ||
    c == '\U{00A0}' || c == '\U{1680}' || ('\U{2000}' <= c <= '\U{200A}') ||
    c == '\U{2028}' || c == '\U{2029}' || c == '\U{202F}' || c == '\U{205F}' ||
    c == '\U{3000}' || c == '\U{FEFF}'
  }

  /** The regular-expression class `\d`. */
  predicate IsDigit(c: char) {
    '0' <= c <= '9'
  }

  /** The regular-expression class `[a-zA-Z]`. */
  predicate IsAsciiLetter(c: char) {
    'a' <= c <= 'z' || 'A' <= c <= 'Z'
  }

  predicate AllDigits(s: string) {
    forall i :: 0 <= i < |s| ==> IsDigit(s[i])
  }

  predicate NoWhitespace(s: string) {
    forall i :: 0 <= i < |s| ==> !IsWhitespace(s[i])
  }

  /** `indexOf`: the first position of `x` in `xs`, or -1 when there is none. */
  function IndexOf<T(==)>(xs: seq<T>, x: T): (r: int)
    ensures -1 <= r < |xs|
    ensures r == -1 <==> x !in xs
    ensures 0 <= r ==> xs[r] == x && x !in xs[..r]
  {
    if xs == [] then -1
    else if xs[0] == x then 0
    else
      var k := IndexOf(xs[1..], x);
      if k == -1 then -1
      else
        assert xs[..k + 1] == [xs[0]] + xs[1..][..k];
        k + 1
  }

  /** The character classes the simulator's pattern and parsers scan for. */
  datatype CharClass = Whitespace | Digit | Letter

  predicate InClass(c: char, cls: CharClass) {
    match cls
    case Whitespace => IsWhitespace(c)
    case Digit => IsDigit(c)
    case Letter => IsAsciiLetter(c)
  }

  /** The end of the longest run of characters of class `cls` that starts at `i`
      (a greedy `cls*` in a regular expression). */
  function Span(s: string, i: nat, cls: CharClass): (j: nat)
    requires i <= |s|
    ensures i <= j <= |s|
    ensures forall k :: i <= k < j ==> InClass(s[k], cls)
    ensures j == |s| || !InClass(s[j], cls)
    decreases |s| - i
  {
    if i < |s| && InClass(s[i], cls) then Span(s, i + 1, cls) else i
  }

  /** A run of `cls` from `i` to `j` that cannot be extended is the one `Span` finds. */
  lemma SpanIsUnique(s: string, i: nat, j: nat, cls: CharClass)
    requires i <= j <= |s|
    requires forall k :: i <= k < j ==> InClass(s[k], cls)
    requires j == |s| || !InClass(s[j], cls)
    ensures Span(s, i, cls) == j
  {
  }

  /** The number of whitespace characters at the end of `s`. */
  function TrailingWhitespace(s: string): (n: nat)
    ensures n <= |s|
    ensures forall k :: |s| - n <= k < |s| ==> IsWhitespace(s[k])
    ensures n == |s| || !IsWhitespace(s[|s| - n - 1])
  {
    if s != [] && IsWhitespace(s[|s| - 1]) then TrailingWhitespace(s[..|s| - 1]) + 1 else 0
  }

  /** `String.prototype.trim`. */
  function Trim(s: string): (r: string)
    ensures Span(s, 0, Whitespace) + |r| <= |s|
    ensures r == s[Span(s, 0, Whitespace)..Span(s, 0, Whitespace) + |r|]
    ensures forall k :: Span(s, 0, Whitespace) + |r| <= k < |s| ==> IsWhitespace(s[k])
    ensures r == [] || (!IsWhitespace(r[0]) && !IsWhitespace(r[|r| - 1]))
  {
    var t := s[Span(s, 0, Whitespace)..];
    t[..|t| - TrailingWhitespace(t)]
  }

  /** Trimming strips whitespace padding on both sides and nothing else. */
  lemma TrimPadded(a: string, w: string, b: string)
    requires forall k :: 0 <= k < |a| ==> IsWhitespace(a[k])
    requires forall k :: 0 <= k < |b| ==> IsWhitespace(b[k])
    requires w == [] || (!IsWhitespace(w[0]) && !IsWhitespace(w[|w| - 1]))
    ensures Trim(a + w + b) == w
  {
    var s := a + w + b;
    if w == [] {
      assert forall k :: 0 <= k < |s| ==> IsWhitespace(s[k]);
    } else {
      SpanIsUnique(s, 0, |a|, Whitespace);
      assert s[|a|..|a| + |w|] == w;
      assert s[|a| + |w| - 1] == w[|w| - 1];
      assert forall k :: |a| + |w| <= k < |s| ==> s[k] == b[k - |a| - |w|];
    }
  }

  /** Trimming leaves a string that neither starts nor ends with whitespace unchanged. */
  lemma TrimKeeps(s: string)
    requires s == [] || (!IsWhitespace(s[0]) && !IsWhitespace(s[|s| - 1]))
    ensures Trim(s) == s
  {
    if s != [] {
      assert Span(s, 0, Whitespace) == 0;
      assert TrailingWhitespace(s) == 0;
    }
  }

  function DigitValue(c: char): nat
    requires IsDigit(c)
  {
    c as int - '0' as int
  }

  function DigitChar(d: nat): (c: char)
    requires d < 10
    ensures IsDigit(c) && DigitValue(c) == d
  {
    ('0' as int + d) as char
  }

  /** The value of a string of decimal digits, most significant first. */
  function DigitsValue(ds: string): nat
    requires AllDigits(ds)
  {
    if ds == [] then 0 else 10 * DigitsValue(ds[..|ds| - 1]) + DigitValue(ds[|ds| - 1])
  }

  /** `parseInt(s, 10)`: skip leading whitespace, read an optional sign, then the
      longest run of decimal digits; no digit at all gives `NaN` (here `None`). */
  function ParseInt(s: string): Option<int> {
    var i := Span(s, 0, Whitespace);
    var negative := i < |s| && s[i] == '-';
    var j := if i < |s| && (s[i] == '-' || s[i] == '+') then i + 1 else i;
    var k := Span(s, j, Digit);
    if k == j then None
    else
      var magnitude: int := DigitsValue(s[j..k]);
      Some(if negative then -magnitude else magnitude)
  }

  /** A string with no digit anywhere reads as `NaN`: `""`, `"-"`, `"+"` and the
      like. */
  lemma ParseIntWithoutDigits(s: string)
    requires forall k :: 0 <= k < |s| ==> !IsDigit(s[k])
    ensures ParseInt(s) == None
  {
    var i := Span(s, 0, Whitespace);
    var j := if i < |s| && (s[i] == '-' || s[i] == '+') then i + 1 else i;
    assert j == |s| || !InClass(s[j], Digit);
  }

  /** A string that starts with anything but whitespace, a sign or a digit reads as
      `NaN`, whatever follows. */
  lemma ParseIntOfNonNumeral(s: string)
    requires |s| >= 1 && !IsWhitespace(s[0]) && s[0] != '-' && s[0] != '+' && !IsDigit(s[0])
    ensures ParseInt(s) == None
  {
    assert Span(s, 0, Whitespace) == 0;
    assert Span(s, 0, Digit) == 0;
  }

  /** The plain decimal rendering of a natural number, which is what `${n}` prints
      for a number below 10^21. */
  function NatToString(n: nat): (r: string)
    ensures 1 <= |r| && AllDigits(r)
    ensures DigitsValue(r) == n
    ensures |r| == 1 <==> n < 10
    ensures |r| == 1 || r[0] != '0'
  {
    if n < 10 then [DigitChar(n)]
    else
      var r := NatToString(n / 10) + [DigitChar(n % 10)];
      assert r[..|r| - 1] == NatToString(n / 10);
      r
  }

  /** The plain decimal rendering of an integer, which is what `${n}` prints for a
      number of magnitude below 10^21, such as every coordinate on the table. */
  function IntToString(n: int): (r: string)
    ensures |r| >= 1
    ensures r[0] == '-' <==> n < 0
    ensures n < 0 ==> |r| >= 2 && AllDigits(r[1..]) && DigitsValue(r[1..]) == -n
    ensures n >= 0 ==> AllDigits(r) && DigitsValue(r) == n
  {
    if n < 0 then "-" + NatToString(-n) else NatToString(n)
  }

  /** `parseInt` reads back the decimal rendering of any integer, whatever non-digit
      text follows. */
  lemma {:induction false} ParseIntOfIntToString(n: int, rest: string)
    requires rest == [] || !IsDigit(rest[0])
    ensures ParseInt(IntToString(n) + rest) == Some(n)
  {
    var s := IntToString(n) + rest;
    var ds := NatToString(if n < 0 then -n else n);
    var j := if n < 0 then 1 else 0;
    assert s[j..j + |ds|] == ds;
    assert Span(s, 0, Whitespace) == 0 by {
      assert !IsWhitespace(s[0]);
    }
    SpanIsUnique(s, j, j + |ds|, Digit);
  }

  /** Upper-cases an ASCII letter; every other character is kept. */
  function UpperChar(c: char): char {
    if 'a' <= c <= 'z' then (c as int - 32) as char else c
  }

  /** `toUpperCase`, over the ASCII letters the simulator's pattern admits. */
  function ToUpperCase(s: string): (r: string)
    ensures |r| == |s|
    ensures forall i :: 0 <= i < |s| ==>
      r[i] == s[i] || ('a' <= s[i] <= 'z' && r[i] as int - 'A' as int == s[i] as int - 'a' as int)
    ensures forall i :: 0 <= i < |r| ==> !('a' <= r[i] <= 'z')
    ensures forall i :: 0 <= i < |r| ==> (IsAsciiLetter(r[i]) <==> IsAsciiLetter(s[i]))
  {
    seq(|s|, i requires 0 <= i < |s| => UpperChar(s[i]))
  }

  /** A string with no lower-case ASCII letter is its own upper case. */
  lemma ToUpperCaseKeeps(s: string)
    requires forall i :: 0 <= i < |s| ==> !('a' <= s[i] <= 'z')
    ensures ToUpperCase(s) == s
  {
  }

  /** `t` spells `u` with any of `u`'s upper-case letters written in lower case. */
  predicate CaseVariant(t: string, u: string) {
    |t| == |u| &&
    forall i :: 0 <= i < |t| ==> t[i] == u[i] || ('A' <= u[i] <= 'Z' && t[i] as int == u[i] as int + 32)
  }

  /** Upper-casing any case spelling of a string without lower-case letters gives
      that string back. */
  lemma ToUpperCaseOfVariant(t: string, u: string)
    requires forall i :: 0 <= i < |u| ==> !('a' <= u[i] <= 'z')
    requires CaseVariant(t, u)
    ensures ToUpperCase(t) == u
  {
  }

  /** Joining two strings free of whitespace gives one. */
  lemma NoWhitespaceAppend(a: string, b: string)
    requires NoWhitespace(a) && NoWhitespace(b)
    ensures NoWhitespace(a + b)
  {
    forall k | 0 <= k < |a + b|
      ensures !IsWhitespace((a + b)[k])
    {
      if k >= |a| {
        assert (a + b)[k] == b[k - |a|];
      }
    }
  }
}
