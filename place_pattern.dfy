/**
 * The pattern the interpreter matches against the arguments of a PLACE line,
 *
 *     (-?\d+)\s*,\s*(-?\d+)\s*,\s*([a-zA-Z]+)
 *
 * used unanchored, as `String.prototype.match` without the `g` flag uses it:
 * the result is the match that starts leftmost. At a given start the pattern
 * leaves no choice but the length of its last group, which its greedy `+`
 * makes as long as possible, so a match is determined by where it starts.
 */
module PlacePattern {
  import opened Wrappers
  import opened JsStrings

  /** The three captured groups. */
  datatype PlaceArgs = PlaceArgs(x: string, y: string, direction: string)

  /** Where the parts of one match lie in the searched string. */
  datatype Match = Match(start: nat, xEnd: nat, firstComma: nat, yStart: nat, yEnd: nat,
                         secondComma: nat, directionStart: nat, directionEnd: nat)

  /** `-?\d+` */
  predicate IsSignedInteger(t: string) {
    |t| >= 1 && if t[0] == '-' then |t| >= 2 && AllDigits(t[1..]) else AllDigits(t)
  }

  predicate AllWhitespaceIn(s: string, i: nat, j: nat)
    requires i <= j <= |s|
  {
    forall k :: i <= k < j ==> IsWhitespace(s[k])
  }

  predicate AllLettersIn(s: string, i: nat, j: nat)
    requires i <= j <= |s|
  {
    forall k :: i <= k < j ==> IsAsciiLetter(s[k])
  }

  /** `m` is a match of the pattern in `s`: each part lies where `m` says, and the
      last group takes every letter that follows it (the greedy `+`). */
  predicate IsMatch(s: string, m: Match) {
    m.start < m.xEnd <= m.firstComma < m.yStart < m.yEnd <= m.secondComma < m.directionStart < m.directionEnd <= |s| &&
    IsSignedInteger(s[m.start..m.xEnd]) &&
    AllWhitespaceIn(s, m.xEnd, m.firstComma) && s[m.firstComma] == ',' &&
    AllWhitespaceIn(s, m.firstComma + 1, m.yStart) &&
    IsSignedInteger(s[m.yStart..m.yEnd]) &&
    AllWhitespaceIn(s, m.yEnd, m.secondComma) && s[m.secondComma] == ',' &&
    AllWhitespaceIn(s, m.secondComma + 1, m.directionStart) &&
    AllLettersIn(s, m.directionStart, m.directionEnd) &&
    (m.directionEnd == |s| || !IsAsciiLetter(s[m.directionEnd]))
  }

  /** The captured groups of a match. */
  function Groups(s: string, m: Match): (r: PlaceArgs)
    requires IsMatch(s, m)
    ensures IsSignedInteger(r.x) && IsSignedInteger(r.y)
    ensures |r.direction| >= 1 && forall k :: 0 <= k < |r.direction| ==> IsAsciiLetter(r.direction[k])
  {
    PlaceArgs(s[m.start..m.xEnd], s[m.yStart..m.yEnd], s[m.directionStart..m.directionEnd])
  }

  /** Where `-?\d+` ends when it starts at `i`: an optional `-`, then every digit
      that follows; none when no digit follows. */
  function SignedIntegerEnd(s: string, i: nat): (r: Option<nat>)
    requires i <= |s|
    ensures r.Some? ==> i < r.value <= |s| && IsSignedInteger(s[i..r.value])
    ensures r.Some? ==> r.value == |s| || !IsDigit(s[r.value])
  {
    var j := if i < |s| && s[i] == '-' then i + 1 else i;
    var k := Span(s, j, Digit);
    if k == j then None
    else
      assert AllDigits(s[j..k]) by {
        forall q | 0 <= q < k - j
          ensures IsDigit(s[j..k][q])
        {
          assert InClass(s[j + q], Digit);
        }
      }
      assert j == i || s[i..k][1..] == s[j..k];
      Some(k)
  }

  /** A signed integer that no digit follows is the one `SignedIntegerEnd` finds. */
  lemma SignedIntegerEndFinds(s: string, i: nat, j: nat)
    requires i < j <= |s| && IsSignedInteger(s[i..j])
    requires j == |s| || !IsDigit(s[j])
    ensures SignedIntegerEnd(s, i) == Some(j)
  {
    var start := if s[i] == '-' then i + 1 else i;
    assert forall q :: start <= q < j ==> IsDigit(s[q]) by {
      forall q | start <= q < j ensures IsDigit(s[q]) {
        if s[i] == '-' {
          assert s[q] == s[i..j][1..][q - start];
        } else {
          assert s[q] == s[i..j][q - start];
        }
      }
    }
    SpanIsUnique(s, start, j, Digit);
  }

  /** The match of the pattern that starts at `i`, if there is one. */
  function MatchAt(s: string, i: nat): (r: Option<Match>)
    requires i <= |s|
    ensures r.Some? ==> r.value.start == i && IsMatch(s, r.value)
  {
    match SignedIntegerEnd(s, i)
    case None => None
    case Some(xEnd) => MatchAfterX(s, i, xEnd)
  }

  /** The rest of a match whose first group is `s[i..xEnd]`: `\s*,\s*(-?\d+)...`. */
  function MatchAfterX(s: string, i: nat, xEnd: nat): (r: Option<Match>)
    requires i < xEnd <= |s| && IsSignedInteger(s[i..xEnd])
    ensures r.Some? ==> r.value.start == i && r.value.xEnd == xEnd && IsMatch(s, r.value)
  {
    var firstComma := Span(s, xEnd, Whitespace);
    if firstComma == |s| || s[firstComma] != ',' then None
    else MatchAfterFirstComma(s, i, xEnd, firstComma)
  }

  /** The rest of a match whose first comma is `s[firstComma]`: `\s*(-?\d+)...`. */
  function MatchAfterFirstComma(s: string, i: nat, xEnd: nat, firstComma: nat): (r: Option<Match>)
    requires i < xEnd <= firstComma < |s| && IsSignedInteger(s[i..xEnd])
    requires AllWhitespaceIn(s, xEnd, firstComma) && s[firstComma] == ','
    ensures r.Some? ==> r.value.start == i && r.value.xEnd == xEnd && r.value.firstComma == firstComma
    ensures r.Some? ==> IsMatch(s, r.value)
  {
    var yStart := Span(s, firstComma + 1, Whitespace);
    match SignedIntegerEnd(s, yStart)
    case None => None
    case Some(yEnd) => MatchAfterY(s, i, xEnd, firstComma, yStart, yEnd)
  }

  /** The rest of a match whose second group is `s[yStart..yEnd]`: `\s*,\s*([a-zA-Z]+)`. */
  function MatchAfterY(s: string, i: nat, xEnd: nat, firstComma: nat, yStart: nat, yEnd: nat): (r: Option<Match>)
    requires i < xEnd <= firstComma < yStart < yEnd <= |s|
    requires IsSignedInteger(s[i..xEnd]) && IsSignedInteger(s[yStart..yEnd])
    requires AllWhitespaceIn(s, xEnd, firstComma) && s[firstComma] == ','
    requires AllWhitespaceIn(s, firstComma + 1, yStart)
    ensures r.Some? ==> r.value == Match(i, xEnd, firstComma, yStart, yEnd, r.value.secondComma,
                                        r.value.directionStart, r.value.directionEnd)
    ensures r.Some? ==> IsMatch(s, r.value)
  {
    var secondComma := Span(s, yEnd, Whitespace);
    if secondComma == |s| || s[secondComma] != ',' then None
    else
      var directionStart := Span(s, secondComma + 1, Whitespace);
      var directionEnd := Span(s, directionStart, Letter);
      if directionEnd == directionStart then None
      else Some(Match(i, xEnd, firstComma, yStart, yEnd, secondComma, directionStart, directionEnd))
  }

  lemma MatchAfterYFinds(s: string, m: Match)
    requires IsMatch(s, m)
    ensures MatchAfterY(s, m.start, m.xEnd, m.firstComma, m.yStart, m.yEnd) == Some(m)
  {
    SpanIsUnique(s, m.yEnd, m.secondComma, Whitespace);
    SpanIsUnique(s, m.secondComma + 1, m.directionStart, Whitespace);
    SpanIsUnique(s, m.directionStart, m.directionEnd, Letter);
  }

  /** The whitespace run before a signed integer ends where the integer starts. */
  lemma SignedIntegerStartsAfterWhitespace(s: string, i: nat, j: nat, k: nat)
    requires i <= j < k <= |s| && AllWhitespaceIn(s, i, j) && IsSignedInteger(s[j..k])
    ensures Span(s, i, Whitespace) == j
  {
    SignedIntegerHasNoWhitespace(s[j..k]);
    assert s[j] == s[j..k][0];
    SpanIsUnique(s, i, j, Whitespace);
  }

  /** Past the first comma the search goes on from the whitespace run and the
      second group it finds there. */
  lemma MatchAfterFirstCommaGoesOn(s: string, i: nat, xEnd: nat, firstComma: nat, yStart: nat, yEnd: nat)
    requires i < xEnd <= firstComma < yStart < yEnd <= |s| && IsSignedInteger(s[i..xEnd])
    requires AllWhitespaceIn(s, xEnd, firstComma) && s[firstComma] == ','
    requires Span(s, firstComma + 1, Whitespace) == yStart
    requires SignedIntegerEnd(s, yStart) == Some(yEnd)
    ensures MatchAfterFirstComma(s, i, xEnd, firstComma) == MatchAfterY(s, i, xEnd, firstComma, yStart, yEnd)
  {
  }

  lemma MatchAfterFirstCommaFinds(s: string, m: Match)
    requires IsMatch(s, m)
    ensures MatchAfterFirstComma(s, m.start, m.xEnd, m.firstComma) == Some(m)
  {
    SignedIntegerStartsAfterWhitespace(s, m.firstComma + 1, m.yStart, m.yEnd);
    SignedIntegerEndFinds(s, m.yStart, m.yEnd);
    MatchAfterFirstCommaGoesOn(s, m.start, m.xEnd, m.firstComma, m.yStart, m.yEnd);
    MatchAfterYFinds(s, m);
  }

  lemma MatchAfterXFinds(s: string, m: Match)
    requires IsMatch(s, m)
    ensures MatchAfterX(s, m.start, m.xEnd) == Some(m)
  {
    assert Span(s, m.xEnd, Whitespace) == m.firstComma by {
      SpanIsUnique(s, m.xEnd, m.firstComma, Whitespace);
    }
    MatchAfterFirstCommaFinds(s, m);
  }

  /** Every match that starts at a position is the one `MatchAt` finds there. */
  lemma MatchAtFindsEveryMatch(s: string, m: Match)
    requires IsMatch(s, m)
    ensures MatchAt(s, m.start) == Some(m)
  {
    MatchAfterXFinds(s, m);
    SignedIntegerEndFinds(s, m.start, m.xEnd);
  }

  /** Two matches that start at the same position are the same match. */
  lemma MatchIsDeterminedByStart(s: string, m1: Match, m2: Match)
    requires IsMatch(s, m1) && IsMatch(s, m2) && m1.start == m2.start
    ensures m1 == m2
  {
    MatchAtFindsEveryMatch(s, m1);
    MatchAtFindsEveryMatch(s, m2);
  }

  /** The leftmost match that starts at `i` or later. */
  function SearchFrom(s: string, i: nat): (r: Option<Match>)
    requires i <= |s|
    ensures r.Some? ==> IsMatch(s, r.value) && i <= r.value.start
    ensures forall m :: IsMatch(s, m) && i <= m.start ==> r.Some? && r.value.start <= m.start
    decreases |s| - i
  {
    match MatchAt(s, i)
    case Some(m) => Some(m)
    case None =>
      assert forall m :: IsMatch(s, m) ==> m.start != i by {
        forall m | IsMatch(s, m) ensures m.start != i {
          MatchAtFindsEveryMatch(s, m);
        }
      }
      if i == |s| then None else SearchFrom(s, i + 1)
  }

  /** `args.match(pattern)`: the leftmost match, or none when there is none anywhere. */
  function FirstMatch(s: string): (r: Option<Match>)
    ensures r.Some? ==> IsMatch(s, r.value)
    ensures r.Some? ==> forall m :: IsMatch(s, m) ==> r.value.start <= m.start
    ensures r.None? ==> forall m :: !IsMatch(s, m)
  {
    SearchFrom(s, 0)
  }

  /** The arguments `X,Y,DIRECTION` written without spaces match as a whole,
      with the three parts as the groups. */
  lemma {:induction false} WrittenArgumentsMatch(x: string, y: string, d: string)
    requires IsSignedInteger(x) && IsSignedInteger(y)
    requires |d| >= 1 && forall k :: 0 <= k < |d| ==> IsAsciiLetter(d[k])
    ensures var t := x + "," + y + "," + d;
      FirstMatch(t).Some? && Groups(t, FirstMatch(t).value) == PlaceArgs(x, y, d)
  {
    var t := x + "," + y + "," + d;
    var a := |x|;
    var b := a + 1 + |y|;
    var m := Match(0, a, a, a + 1, b, b, b + 1, |t|);
    var u := x + "," + y;
    assert t == u + "," + d;
    assert u[a + 1..] == y;
    assert t[0..a] == x;
    assert t[a + 1..b] == y;
    assert t[b + 1..|t|] == d;
    assert t[a] == ',' && t[b] == ',';
    assert AllLettersIn(t, b + 1, |t|) by {
      forall k | b + 1 <= k < |t| ensures IsAsciiLetter(t[k]) {
        assert t[k] == d[k - (b + 1)];
      }
    }
    assert IsMatch(t, m);
    var found := FirstMatch(t).value;
    MatchIsDeterminedByStart(t, found, m);
  }

  /** A whitespace string inside `t` is a run of whitespace there. */
  lemma WhitespaceRunAt(t: string, i: nat, w: string)
    requires i + |w| <= |t| && t[i..i + |w|] == w && AllWhitespaceIn(w, 0, |w|)
    ensures AllWhitespaceIn(t, i, i + |w|)
  {
    forall k | i <= k < i + |w| ensures IsWhitespace(t[k]) {
      assert t[k] == t[i..i + |w|][k - i];
    }
  }

  /** The arguments `x`, `y` and `d` with the whitespace `a`, `b`, `c` and `e`
      around the two commas. */
  function PaddedArgs(x: string, a: string, b: string, y: string, c: string, e: string, d: string): string {
    x + a + "," + b + y + c + "," + e + d
  }

  /** Where each part of `PaddedArgs` lies. */
  function PaddedMatch(x: string, a: string, b: string, y: string, c: string, e: string, d: string): Match {
    var firstComma := |x| + |a|;
    var yStart := firstComma + 1 + |b|;
    var yEnd := yStart + |y|;
    var secondComma := yEnd + |c|;
    var directionStart := secondComma + 1 + |e|;
    Match(0, |x|, firstComma, yStart, yEnd, secondComma, directionStart, directionStart + |d|)
  }

  /** The padded arguments hold each part where `PaddedMatch` says. */
  lemma PaddedArgsLayout(x: string, a: string, b: string, y: string, c: string, e: string, d: string)
    ensures var t, m := PaddedArgs(x, a, b, y, c, e, d), PaddedMatch(x, a, b, y, c, e, d);
      m.directionEnd == |t| &&
      t[0..m.xEnd] == x && t[m.xEnd..m.firstComma] == a && t[m.firstComma] == ',' &&
      t[m.firstComma + 1..m.yStart] == b && t[m.yStart..m.yEnd] == y &&
      t[m.yEnd..m.secondComma] == c && t[m.secondComma] == ',' &&
      t[m.secondComma + 1..m.directionStart] == e && t[m.directionStart..m.directionEnd] == d
  {
    var u := x + a + ",";
    var v := u + b + y + c + ",";
    assert PaddedArgs(x, a, b, y, c, e, d) == v + e + d;
    assert v == u + (b + y + c + ",");
  }

  /** `PaddedMatch` is a match of the pattern in the padded arguments. */
  lemma PaddedArgsAreAMatch(x: string, a: string, b: string, y: string, c: string, e: string, d: string)
    requires IsSignedInteger(x) && IsSignedInteger(y)
    requires AllWhitespaceIn(a, 0, |a|) && AllWhitespaceIn(b, 0, |b|)
    requires AllWhitespaceIn(c, 0, |c|) && AllWhitespaceIn(e, 0, |e|)
    requires |d| >= 1 && forall k :: 0 <= k < |d| ==> IsAsciiLetter(d[k])
    ensures IsMatch(PaddedArgs(x, a, b, y, c, e, d), PaddedMatch(x, a, b, y, c, e, d))
  {
    var t, m := PaddedArgs(x, a, b, y, c, e, d), PaddedMatch(x, a, b, y, c, e, d);
    PaddedArgsLayout(x, a, b, y, c, e, d);
    WhitespaceRunAt(t, m.xEnd, a);
    WhitespaceRunAt(t, m.firstComma + 1, b);
    WhitespaceRunAt(t, m.yEnd, c);
    WhitespaceRunAt(t, m.secondComma + 1, e);
    assert AllLettersIn(t, m.directionStart, m.directionEnd) by {
      forall k | m.directionStart <= k < m.directionEnd ensures IsAsciiLetter(t[k]) {
        assert t[k] == d[k - m.directionStart];
      }
    }
  }

  /** The arguments match as a whole with whitespace, spaces included, on either
      side of each comma, and the groups are still the three parts. */
  lemma PaddedArgumentsMatch(x: string, a: string, b: string, y: string, c: string, e: string, d: string)
    requires IsSignedInteger(x) && IsSignedInteger(y)
    requires AllWhitespaceIn(a, 0, |a|) && AllWhitespaceIn(b, 0, |b|)
    requires AllWhitespaceIn(c, 0, |c|) && AllWhitespaceIn(e, 0, |e|)
    requires |d| >= 1 && forall k :: 0 <= k < |d| ==> IsAsciiLetter(d[k])
    ensures var t := PaddedArgs(x, a, b, y, c, e, d);
      FirstMatch(t).Some? && Groups(t, FirstMatch(t).value) == PlaceArgs(x, y, d)
  {
    var t, m := PaddedArgs(x, a, b, y, c, e, d), PaddedMatch(x, a, b, y, c, e, d);
    PaddedArgsAreAMatch(x, a, b, y, c, e, d);
    PaddedArgsLayout(x, a, b, y, c, e, d);
    MatchIsDeterminedByStart(t, FirstMatch(t).value, m);
  }

  /** The padded arguments start with the first number and end with the last
      letter, so trimming leaves them as they are. */
  lemma PaddedArgsAreTrimmed(x: string, a: string, b: string, y: string, c: string, e: string, d: string)
    requires IsSignedInteger(x)
    requires |d| >= 1 && IsAsciiLetter(d[|d| - 1])
    ensures var t := PaddedArgs(x, a, b, y, c, e, d);
      t != [] && !IsWhitespace(t[0]) && !IsWhitespace(t[|t| - 1])
  {
    var t := PaddedArgs(x, a, b, y, c, e, d);
    PaddedArgsLayout(x, a, b, y, c, e, d);
    assert t[0] == x[0] && t[|t| - 1] == d[|d| - 1];
  }

  /** A number as JavaScript prints it is a signed integer in the pattern's sense. */
  lemma IntToStringIsSignedInteger(n: int)
    ensures IsSignedInteger(IntToString(n))
  {
    var t := IntToString(n);
    if n < 0 {
      assert t[1..] == NatToString(-n);
    } else {
      assert IsDigit(t[0]);
    }
  }

  /** `parseInt` reads a run of digits as its value, leading zeros included. */
  lemma ParseIntOfDigits(t: string)
    requires |t| >= 1 && AllDigits(t)
    ensures ParseInt(t) == Some(DigitsValue(t) as int)
  {
    assert IsDigit(t[0]);
    SpanIsUnique(t, 0, 0, Whitespace);
    SpanIsUnique(t, 0, |t|, Digit);
    assert t[0..|t|] == t;
  }

  /** `parseInt` reads a minus sign and a run of digits as the negated value, `-0`
      included. */
  lemma ParseIntOfNegative(t: string)
    requires |t| >= 2 && t[0] == '-' && AllDigits(t[1..])
    ensures ParseInt(t) == Some(-(DigitsValue(t[1..]) as int))
  {
    SpanIsUnique(t, 0, 0, Whitespace);
    assert forall k :: 1 <= k < |t| ==> IsDigit(t[k]) by {
      forall k | 1 <= k < |t| ensures IsDigit(t[k]) {
        assert t[k] == t[1..][k - 1];
      }
    }
    SpanIsUnique(t, 1, |t|, Digit);
    assert t[1..|t|] == t[1..];
  }

  /** `parseInt` reads every `-?\d+` string as its value, leading zeros and `-0`
      included. */
  lemma ParseIntOfSignedInteger(t: string)
    requires IsSignedInteger(t)
    ensures ParseInt(t) == Some(if t[0] == '-' then -(DigitsValue(t[1..]) as int) else DigitsValue(t))
  {
    if t[0] == '-' {
      ParseIntOfNegative(t);
    } else {
      ParseIntOfDigits(t);
    }
  }

  /** Both coordinate groups of a match parse as integers, so the interpreter never
      hands `place` a coordinate that reads as `NaN`. */
  lemma GroupsParse(s: string, m: Match)
    requires IsMatch(s, m)
    ensures ParseInt(Groups(s, m).x).Some? && ParseInt(Groups(s, m).y).Some?
  {
    ParseIntOfSignedInteger(Groups(s, m).x);
    ParseIntOfSignedInteger(Groups(s, m).y);
  }

  /** A signed integer contains no whitespace. */
  lemma SignedIntegerHasNoWhitespace(t: string)
    requires IsSignedInteger(t)
    ensures NoWhitespace(t)
  {
    forall k | 0 <= k < |t|
      ensures !IsWhitespace(t[k])
    {
      if k > 0 || t[0] != '-' {
        assert t[k] == if t[0] == '-' then t[1..][k - 1] else t[k];
        assert IsDigit(t[k]);
      }
    }
  }
}
