/** The Python 2 string operations the program relies on: `strip`,
    `splitlines`, `in`, `split`, `join`, `endswith`, `str(int)` and `int(str)`. */
module Text {
  import opened Wrappers

  /** The characters `str.strip()` removes. */
  predicate IsSpace(c: char) {
    c == ' ' || c == '\t' || c == '\n' || c == '\r' || c == '\U{000B}' || c == '\U{000C}'
  }

  /** The line boundaries of `str.splitlines()` on a byte string ("\r\n" counts once). */
  predicate IsLineBreak(c: char) {
    c == '\n' || c == '\r'
  }

  predicate AllSpace(s: string) {
    forall i :: 0 <= i < |s| ==> IsSpace(s[i])
  }

  predicate NoLineBreak(s: string) {
    forall i :: 0 <= i < |s| ==> !IsLineBreak(s[i])
  }

  // ---------------------------------------------------------------- strip

  /** `r` occurs in `s` at index `a`. */
  predicate OccursAt(s: string, r: string, a: int) {
    0 <= a && a + |r| <= |s| && s[a..a + |r|] == r
  }

  /** Index of the first non-space character of `s` at or after `i` (or `|s|`). */
  function Lead(s: string, i: nat): (n: nat)
    requires i <= |s|
    ensures i <= n <= |s|
    ensures forall k :: i <= k < n ==> IsSpace(s[k])
    ensures n < |s| ==> !IsSpace(s[n])
    decreases |s| - i
  {
    if i < |s| && IsSpace(s[i]) then Lead(s, i + 1) else i
  }

  /** The end of `s[lo..hi]` once its trailing whitespace is cut off. */
  function Trail(s: string, lo: nat, hi: nat): (n: nat)
    requires lo <= hi <= |s|
    ensures lo <= n <= hi
    ensures forall k :: n <= k < hi ==> IsSpace(s[k])
    ensures n > lo ==> !IsSpace(s[n - 1])
    decreases hi
  {
    if hi > lo && IsSpace(s[hi - 1]) then Trail(s, lo, hi - 1) else hi
  }

  /** `s.strip()`: the longest infix of `s` that neither starts nor ends in whitespace. */
  function Strip(s: string): (r: string)
    ensures r == [] <==> AllSpace(s)
    ensures r != [] ==> !IsSpace(r[0]) && !IsSpace(r[|r| - 1])
    ensures OccursAt(s, r, Lead(s, 0))
    ensures AllSpace(s[..Lead(s, 0)])
  {
    var a := Lead(s, 0);
    var b := Trail(s, a, |s|);
    assert b == a ==> AllSpace(s) by {
      if b == a {
        forall k | 0 <= k < |s| ensures IsSpace(s[k]) {}
      }
    }
    s[a..b]
  }

  /** Leading whitespace in front of text that neither starts nor ends in
      whitespace is exactly what `strip` removes. */
  lemma StripAfterIndent(indent: string, t: string)
    requires AllSpace(indent)
    requires t != [] && !IsSpace(t[0]) && !IsSpace(t[|t| - 1])
    ensures Strip(indent + t) == t
  {
    var s := indent + t;
    LeadOver(s, 0, |indent|);
    assert Trail(s, |indent|, |s|) == |s|;
    assert s[|indent|..|s|] == t;
  }

  /** `strip` keeps the first non-space character in front. */
  lemma StripFirst(indent: string, t: string)
    requires AllSpace(indent)
    requires t != [] && !IsSpace(t[0])
    ensures Strip(indent + t) != [] && Strip(indent + t)[0] == t[0]
  {
    var s := indent + t;
    LeadOver(s, 0, |indent|);
    assert !AllSpace(s) by { assert !IsSpace(s[|indent|]); }
  }

  lemma {:induction false} LeadOver(s: string, i: nat, k: nat)
    requires i <= k < |s|
    requires forall j :: i <= j < k ==> IsSpace(s[j])
    requires !IsSpace(s[k])
    ensures Lead(s, i) == k
    decreases k - i
  {
    if i < k { LeadOver(s, i + 1, k); }
  }

  // ----------------------------------------------------------- splitlines

  /** Index of the first line break of `s`, or `|s|` when there is none. */
  function BreakIndex(s: string): (k: nat)
    ensures k <= |s|
    ensures NoLineBreak(s[..k])
    ensures k < |s| ==> IsLineBreak(s[k])
  {
    if s == [] || IsLineBreak(s[0]) then 0
    else
      var k := 1 + BreakIndex(s[1..]);
      assert s[..k] == [s[0]] + s[1..][..k - 1];
      k
  }

  /** Where the next line starts after the break at `k` (a "\r\n" is one break). */
  function NextLine(s: string, k: nat): (n: nat)
    requires k < |s| && IsLineBreak(s[k])
    ensures k < n <= |s|
  {
    if s[k] == '\r' && k + 1 < |s| && s[k + 1] == '\n' then k + 2 else k + 1
  }

  /** `s.splitlines()`: the lines of `s` without their terminators; text after
      the last terminator forms a final line only when it is not empty. */
  function SplitLines(s: string): (r: seq<string>)
    ensures forall i :: 0 <= i < |r| ==> NoLineBreak(r[i])
    decreases |s|
  {
    if s == [] then []
    else
      var k := BreakIndex(s);
      if k == |s| then
        assert s[..k] == s;
        [s]
      else [s[..k]] + SplitLines(s[NextLine(s, k)..])
  }

  /** `sep.join(xs)` */
  function Join(sep: string, xs: seq<string>): (r: string)
    ensures |xs| == 1 ==> r == xs[0]
  {
    if |xs| == 0 then ""
    else if |xs| == 1 then xs[0]
    else xs[0] + sep + Join(sep, xs[1..])
  }

  lemma {:induction false} BreakIndexAfterLine(l: string, rest: string)
    requires NoLineBreak(l)
    ensures BreakIndex(l + "\n" + rest) == |l|
  {
    if l == [] {
      assert (l + "\n" + rest)[0] == '\n';
    } else {
      assert (l + "\n" + rest)[1..] == l[1..] + "\n" + rest;
      assert !IsLineBreak(l[0]);
      BreakIndexAfterLine(l[1..], rest);
    }
  }

  /** Splitting lines joined by "\n" gives the lines back, provided the lines
      hold no line break and the last one is not empty. */
  lemma {:induction false} SplitJoinLines(ls: seq<string>)
    requires forall i :: 0 <= i < |ls| ==> NoLineBreak(ls[i])
    requires ls != [] ==> ls[|ls| - 1] != []
    ensures SplitLines(Join("\n", ls)) == ls
  {
    if |ls| == 1 {
      assert BreakIndex(ls[0]) == |ls[0]|;
    } else if |ls| > 1 {
      var s := Join("\n", ls);
      var rest := Join("\n", ls[1..]);
      assert s == ls[0] + "\n" + rest;
      BreakIndexAfterLine(ls[0], rest);
      assert s[|ls[0]|] == '\n';
      assert NextLine(s, |ls[0]|) == |ls[0]| + 1;
      assert s[|ls[0]| + 1..] == rest;
      assert s[..|ls[0]|] == ls[0];
      SplitJoinLines(ls[1..]);
    }
  }

  // --------------------------------------------------------- substrings

  predicate StartsWith(s: string, p: string) {
    |p| <= |s| && s[..|p|] == p
  }

  predicate EndsWith(s: string, p: string) {
    |p| <= |s| && s[|s| - |p|..] == p
  }

  /** `t in s` for strings. */
  function Contains(s: string, t: string): (b: bool)
    ensures b <==> exists i :: OccursAt(s, t, i)
  {
    if StartsWith(s, t) then
      assert OccursAt(s, t, 0);
      true
    else if s == [] then
      assert forall i :: !OccursAt(s, t, i);
      false
    else
      var b := Contains(s[1..], t);
      ContainsStep(s, t);
      b
  }

  lemma ContainsStep(s: string, t: string)
    requires s != [] && !StartsWith(s, t)
    ensures (exists i :: OccursAt(s, t, i)) <==> (exists i :: OccursAt(s[1..], t, i))
  {
    var u := s[1..];
    if i :| OccursAt(s, t, i) {
      assert i != 0;
      assert u[i - 1..i - 1 + |t|] == s[i..i + |t|];
      assert OccursAt(u, t, i - 1);
    }
    if i :| OccursAt(u, t, i) {
      assert s[i + 1..i + 1 + |t|] == u[i..i + |t|];
      assert OccursAt(s, t, i + 1);
    }
  }

  /** A string that lacks one of the characters of `t` does not contain `t`. */
  lemma MissingCharNotContained(s: string, t: string, j: nat)
    requires j < |t| && t[j] !in s
    ensures !Contains(s, t)
  {
  }

  /** The text of `s` before the first `c` (all of `s` when there is none). */
  function TakeUntil(s: string, c: char): (r: string)
    ensures |r| <= |s| && r == s[..|r|]
    ensures c !in r
    ensures |r| < |s| ==> s[|r|] == c
  {
    if s == [] || s[0] == c then []
    else [s[0]] + TakeUntil(s[1..], c)
  }

  lemma {:induction false} TakeUntilBefore(a: string, c: char, b: string)
    requires c !in a
    ensures TakeUntil(a + [c] + b, c) == a
  {
    if a != [] {
      assert (a + [c] + b)[1..] == a[1..] + [c] + b;
      TakeUntilBefore(a[1..], c, b);
    }
  }

  // ------------------------------------------------------------ split

  /** `s.split(c)` with a one-character separator. */
  function Split(s: string, c: char): (r: seq<string>)
    ensures |r| >= 1
    ensures forall i :: 0 <= i < |r| ==> c !in r[i]
    decreases |s|
  {
    var k := TakeUntil(s, c);
    if |k| == |s| then [s] else [k] + Split(s[|k| + 1..], c)
  }

  /** `split` undoes `join` when no part holds the separator. */
  lemma {:induction false} SplitJoin(xs: seq<string>, c: char)
    requires |xs| >= 1
    requires forall i :: 0 <= i < |xs| ==> c !in xs[i]
    ensures Split(Join([c], xs), c) == xs
  {
    if |xs| == 1 {
      assert TakeUntil(xs[0], c) == xs[0];
    } else {
      var rest := Join([c], xs[1..]);
      assert Join([c], xs) == xs[0] + [c] + rest;
      TakeUntilBefore(xs[0], c, rest);
      assert (xs[0] + [c] + rest)[|xs[0]| + 1..] == rest;
      SplitJoin(xs[1..], c);
    }
  }

  /** `join` undoes `split`: splitting loses no character. */
  lemma {:induction false} JoinSplit(s: string, c: char)
    ensures Join([c], Split(s, c)) == s
    decreases |s|
  {
    var k := TakeUntil(s, c);
    if |k| < |s| {
      var rest := s[|k| + 1..];
      JoinSplit(rest, c);
      var parts := Split(rest, c);
      assert Split(s, c) == [k] + parts;
      JoinCons([c], k, parts);
      assert s == s[..|k|] + [s[|k|]] + rest;
    } else {
      assert Split(s, c) == [s];
    }
  }

  lemma JoinCons(sep: string, x: string, xs: seq<string>)
    requires xs != []
    ensures Join(sep, [x] + xs) == x + sep + Join(sep, xs)
  {
    assert ([x] + xs)[1..] == xs;
  }

  /** Number of occurrences of `c` in `s`. */
  function Count(s: string, c: char): nat {
    if s == [] then 0 else (if s[0] == c then 1 else 0) + Count(s[1..], c)
  }

  /** `s.split(c)` has one more part than `s` has separators. */
  lemma {:induction false} SplitLength(s: string, c: char)
    ensures |Split(s, c)| == Count(s, c) + 1
    decreases |s|
  {
    var k := TakeUntil(s, c);
    CountPrefixFree(k, c);
    if |k| < |s| {
      SplitLength(s[|k| + 1..], c);
      assert s == k + ([c] + s[|k| + 1..]);
      CountConcat(k, [c] + s[|k| + 1..], c);
      assert ([c] + s[|k| + 1..])[1..] == s[|k| + 1..];
    } else {
      assert k == s;
    }
  }

  lemma {:induction false} CountPrefixFree(s: string, c: char)
    requires c !in s
    ensures Count(s, c) == 0
  {
    if s != [] { CountPrefixFree(s[1..], c); }
  }

  lemma {:induction false} CountConcat(a: string, b: string, c: char)
    ensures Count(a + b, c) == Count(a, c) + Count(b, c)
  {
    if a == [] {
      assert a + b == b;
    } else {
      assert (a + b)[1..] == a[1..] + b;
      CountConcat(a[1..], b, c);
    }
  }

  lemma {:induction false} CountZeroFree(s: string, c: char)
    ensures Count(s, c) == 0 <==> c !in s
  {
    if s != [] {
      CountZeroFree(s[1..], c);
      assert c in s <==> s[0] == c || c in s[1..];
    }
  }

  // ------------------------------------------------------------- numbers

  function DigitChar(d: nat): (c: char)
    requires d < 10
  {
    "0123456789"[d]
  }

  predicate IsDigit(c: char) {
    '0' <= c <= '9'
  }

  function DigitValue(c: char): (d: nat)
    requires IsDigit(c)
    ensures d < 10
  {
    (c as int - '0' as int) as nat
  }

  /** Decimal digits of `n`, most significant first, without leading zeros. */
  function Digits(n: nat): (r: string)
    ensures r != [] && forall i :: 0 <= i < |r| ==> IsDigit(r[i])
  {
    if n < 10 then [DigitChar(n)] else Digits(n / 10) + [DigitChar(n % 10)]
  }

  /** The number a non-empty run of decimal digits denotes. */
  function DigitsValue(s: string): nat
    requires forall i :: 0 <= i < |s| ==> IsDigit(s[i])
  {
    if s == [] then 0 else 10 * DigitsValue(s[..|s| - 1]) + DigitValue(s[|s| - 1])
  }

  /** `str(n)` for a Python int. */
  function IntToString(n: int): (r: string)
  {
    if n < 0 then "-" + Digits(-n) else Digits(n)
  }

  /** `int(s)` for a Python 2 string: surrounding whitespace, an optional sign,
      more whitespace after a sign, and at least one decimal digit; `None`
      where Python raises ValueError. */
  function ParseInt(s: string): (r: Option<int>)
  {
    ParseSigned(Strip(s))
  }

  /** `LONG_MAX` of a 64-bit C `long`. */
  const LongMax: int := 0x7fff_ffff_ffff_ffff

  /** A stripped `int()` argument. CPython reads it with `strtol`, which skips
      whitespace after the sign; a value outside the C `long` range is read
      again by `PyLong_FromString`, which does not, so a spaced sign then raises. */
  function ParseSigned(t: string): (r: Option<int>)
  {
    var k := SignLength(t);
    var gap := Lead(t[k..], 0);
    ReadDigits(k == 1 && t[0] == '-', gap > 0, t[k..][gap..])
  }

  /** 1 when `t` starts with a sign, 0 otherwise. */
  function SignLength(t: string): (k: nat)
    ensures k <= |t|
  {
    if t != [] && (t[0] == '-' || t[0] == '+') then 1 else 0
  }

  predicate AllDigits(s: string) {
    forall i :: 0 <= i < |s| ==> IsDigit(s[i])
  }

  /** The value of the digits after the sign and the gap; `spaced` says whether
      whitespace separated them from the sign. */
  function ReadDigits(neg: bool, spaced: bool, body: string): (r: Option<int>)
  {
    if body != [] && AllDigits(body) then
      var v: int := if neg then -(DigitsValue(body) as int) else DigitsValue(body);
      if spaced && !(-LongMax - 1 <= v <= LongMax) then None else Some(v)
    else None
  }

  lemma {:induction false} DigitsRoundTrip(n: nat)
    ensures DigitsValue(Digits(n)) == n
  {
    if n < 10 {
      assert DigitValue(DigitChar(n)) == n;
    } else {
      var d := Digits(n);
      assert d[..|d| - 1] == Digits(n / 10);
      DigitsRoundTrip(n / 10);
      assert DigitValue(DigitChar(n % 10)) == n % 10;
    }
  }

  lemma StripDigits(s: string)
    requires s != [] && (s[0] == '-' || s[0] == '+' || IsDigit(s[0])) && IsDigit(s[|s| - 1])
    ensures Strip(s) == s
  {
    assert Lead(s, 0) == 0;
    assert Trail(s, 0, |s|) == |s|;
  }

  /** A run of digits parses as the number it denotes. */
  lemma ParseDigits(d: string)
    requires d != [] && forall i :: 0 <= i < |d| ==> IsDigit(d[i])
    ensures ParseInt(d) == Some(DigitsValue(d) as int)
  {
    StripDigits(d);
    SignedDigits(d);
  }

  lemma SignedDigits(d: string)
    requires d != [] && forall i :: 0 <= i < |d| ==> IsDigit(d[i])
    ensures ParseSigned(d) == Some(DigitsValue(d) as int)
  {
    assert SignLength(d) == 0 by { assert IsDigit(d[0]); }
    assert Lead(d, 0) == 0 by { assert IsDigit(d[0]); }
    assert d[0..] == d;
    SignedNoGap(d, 0, d);
  }

  /** Digits straight after the sign, or with no sign at all. */
  lemma SignedNoGap(t: string, k: nat, d: string)
    requires SignLength(t) == k && Lead(t[k..], 0) == 0 && t[k..] == d
    requires d != [] && forall i :: 0 <= i < |d| ==> IsDigit(d[i])
    ensures ParseSigned(t) == Some(if k == 1 && t[0] == '-' then -(DigitsValue(d) as int) else DigitsValue(d))
  {
    assert AllDigits(d);
    assert t[k..][0..] == d;
  }

  /** A minus sign followed by a run of digits parses as its negation. */
  lemma ParseNegative(d: string)
    requires d != [] && forall i :: 0 <= i < |d| ==> IsDigit(d[i])
    ensures ParseInt("-" + d) == Some(-(DigitsValue(d) as int))
  {
    var s := "-" + d;
    StripDigits(s);
    assert Strip(s) == s;
    SignedNegative(d);
  }

  lemma SignedNegative(d: string)
    requires d != [] && forall i :: 0 <= i < |d| ==> IsDigit(d[i])
    ensures ParseSigned("-" + d) == Some(-(DigitsValue(d) as int))
  {
    var s := "-" + d;
    assert SignLength(s) == 1 && s[0] == '-' && s[1..] == d;
    assert Lead(d, 0) == 0 by { assert IsDigit(d[0]); }
    SignedNoGap(s, 1, d);
  }

  /** Whitespace may follow the sign while the value fits a C `long`; beyond
      that range the same text raises. */
  lemma SpacedSign(sign: char, w: string, d: string)
    requires sign == '-' || sign == '+'
    requires w != [] && AllSpace(w)
    requires d != [] && forall i :: 0 <= i < |d| ==> IsDigit(d[i])
    ensures var v: int := if sign == '-' then -(DigitsValue(d) as int) else DigitsValue(d);
            ParseInt([sign] + w + d) == if -LongMax - 1 <= v <= LongMax then Some(v) else None
  {
    var s := [sign] + w + d;
    assert s[0] == sign && IsDigit(s[|s| - 1]);
    StripDigits(s);
    SignedSpaced(sign, w, d);
  }

  lemma SignedSpaced(sign: char, w: string, d: string)
    requires sign == '-' || sign == '+'
    requires w != [] && AllSpace(w)
    requires d != [] && forall i :: 0 <= i < |d| ==> IsDigit(d[i])
    ensures var v: int := if sign == '-' then -(DigitsValue(d) as int) else DigitsValue(d);
            ParseSigned([sign] + w + d) == if -LongMax - 1 <= v <= LongMax then Some(v) else None
  {
    AfterSign(sign, w, d);
    SignedGap([sign] + w + d, |w|, d);
  }

  lemma SignedGap(t: string, n: nat, d: string)
    requires t != [] && SignLength(t) == 1
    requires n > 0 && Lead(t[1..], 0) == n && t[1..][n..] == d
    requires d != [] && forall i :: 0 <= i < |d| ==> IsDigit(d[i])
    ensures var v: int := if t[0] == '-' then -(DigitsValue(d) as int) else DigitsValue(d);
            ParseSigned(t) == if -LongMax - 1 <= v <= LongMax then Some(v) else None
  {
    assert AllDigits(d);
  }

  /** The sign is one character, and the gap after it is exactly `w`. */
  lemma AfterSign(sign: char, w: string, d: string)
    requires sign == '-' || sign == '+'
    requires w != [] && AllSpace(w)
    requires d != [] && IsDigit(d[0])
    ensures var t := [sign] + w + d;
            SignLength(t) == 1 && t[0] == sign && Lead(t[1..], 0) == |w| && t[1..][|w|..] == d
  {
    var t := [sign] + w + d;
    var rest := t[1..];
    assert rest == w + d;
    assert !IsSpace(rest[|w|]);
    LeadOver(rest, 0, |w|);
  }

  /** `int(str(n)) == n` */
  lemma IntRoundTrip(n: int)
    ensures ParseInt(IntToString(n)) == Some(n)
  {
    if n < 0 {
      var k: nat := -n;
      assert IntToString(n) == "-" + Digits(k);
      NegativeRoundTrip(k);
    } else {
      var k: nat := n;
      assert IntToString(n) == Digits(k);
      PositiveRoundTrip(k);
    }
  }

  lemma PositiveRoundTrip(k: nat)
    ensures ParseInt(Digits(k)) == Some(k as int)
  {
    DigitsRoundTrip(k);
    ParseDigits(Digits(k));
  }

  lemma NegativeRoundTrip(k: nat)
    ensures ParseInt("-" + Digits(k)) == Some(-(k as int))
  {
    DigitsRoundTrip(k);
    ParseNegative(Digits(k));
  }
}
