/** The few Python string operations the tools rely on, over `seq<char>`:
    `str.strip()`, `str.split(sep, maxsplit)`, `str.upper()`, slicing `[:n]`
    and the decimal rendering of integers used by f-strings. */
module PyStr {
  import opened Wrappers

  /** Python's `str.isspace()`: the 29 code points CPython treats as
      whitespace, which are exactly the ones `str.strip()` removes. */
  predicate IsSpace(c: char) {
    || ('\t' <= c <= '\r')
    || ('\U{1C}' <= c <= ' ')
    || c == '\U{85}' || c == '\U{A0}' || c == '\U{1680}'
    || ('\U{2000}' <= c <= '\U{200A}')
    || c == '\U{2028}' || c == '\U{2029}' || c == '\U{202F}' || c == '\U{205F}'
    || c == '\U{3000}'
  }

  predicate AllSpace(s: string) {
    forall k :: 0 <= k < |s| ==> IsSpace(s[k])
  }

  lemma AllSpaceAppend(a: string, b: string)
    requires AllSpace(a) && AllSpace(b)
    ensures AllSpace(a + b)
  {
    assert forall k :: 0 <= k < |a + b| ==> (a + b)[k] == if k < |a| then a[k] else b[k - |a|];
  }

  /** A string that `strip()` leaves alone: empty, or with non-space ends. */
  predicate Trimmed(s: string) {
    s == [] || (!IsSpace(s[0]) && !IsSpace(s[|s| - 1]))
  }

  /** `str.lstrip()`: the suffix left after the leading whitespace. */
  function LStrip(s: string): (r: string)
    ensures |r| <= |s| && r == s[|s| - |r|..]
    ensures AllSpace(s[..|s| - |r|])
    ensures r == [] || !IsSpace(r[0])
    decreases |s|
  {
    if |s| > 0 && IsSpace(s[0]) then
      var r := LStrip(s[1..]);
      var n := |s| - |r|;
      assert s[..n] == [s[0]] + s[1..][..n - 1];
      AllSpaceAppend([s[0]], s[1..][..n - 1]);
      r
    else s
  }

  /** `str.rstrip()`: the prefix left before the trailing whitespace. */
  function RStrip(s: string): (r: string)
    ensures |r| <= |s| && r == s[..|r|]
    ensures AllSpace(s[|r|..])
    ensures r == [] || !IsSpace(r[|r| - 1])
    decreases |s|
  {
    if |s| > 0 && IsSpace(s[|s| - 1]) then
      var r := RStrip(s[..|s| - 1]);
      assert s[|r|..] == s[..|s| - 1][|r|..] + [s[|s| - 1]];
      AllSpaceAppend(s[..|s| - 1][|r|..], [s[|s| - 1]]);
      r
    else s
  }

  /** `str.strip()`: what is left between the leading and the trailing
      whitespace. */
  function Strip(s: string): (r: string)
    ensures Trimmed(r)
    ensures |r| <= |s|
  {
    RStrip(LStrip(s))
  }

  /** `strip()` removes only whitespace, and only from the two ends: the
      result is an infix of the input with whitespace on either side. */
  lemma StripIsInfix(s: string)
    ensures var r := Strip(s);
      exists i :: 0 <= i <= |s| - |r| && AllSpace(s[..i])
                  && r == s[i..i + |r|] && AllSpace(s[i + |r|..])
  {
    var l := LStrip(s);
    assert Strip(s) == RStrip(l);
    InfixBetweenSpaces(s, l, RStrip(l));
  }

  /** Cutting leading whitespace and then trailing whitespace leaves an
      infix with whitespace on both sides. */
  lemma InfixBetweenSpaces(s: string, l: string, r: string)
    requires |l| <= |s| && l == s[|s| - |l|..] && AllSpace(s[..|s| - |l|])
    requires |r| <= |l| && r == l[..|r|] && AllSpace(l[|r|..])
    ensures exists i :: 0 <= i <= |s| - |r| && AllSpace(s[..i])
                        && r == s[i..i + |r|] && AllSpace(s[i + |r|..])
  {
    var i := |s| - |l|;
    assert s[i..i + |r|] == r;
    assert s[i + |r|..] == l[|r|..];
  }

  /** `strip()` is the identity on trimmed strings, so stripping twice is
      the same as stripping once. */
  lemma StripTrimmed(s: string)
    requires Trimmed(s)
    ensures Strip(s) == s
  {
  }

  lemma StripIdempotent(s: string)
    ensures Strip(Strip(s)) == Strip(s)
  {
    StripTrimmed(Strip(s));
  }

  /** Surrounding whitespace does not survive `strip()`. */
  lemma {:induction false} StripPadded(a: string, m: string, b: string)
    requires AllSpace(a) && AllSpace(b) && Trimmed(m)
    ensures Strip(a + m + b) == m
  {
    if m == [] {
      assert a + m + b == (a + b) + [];
      assert AllSpace(a + b) by {
        forall k | 0 <= k < |a + b| ensures IsSpace((a + b)[k]) {
          if k < |a| { assert (a + b)[k] == a[k]; } else { assert (a + b)[k] == b[k - |a|]; }
        }
      }
      LStripPadded(a + b, []);
    } else {
      assert a + m + b == a + (m + b);
      LStripPadded(a, m + b);
      RStripPadded(m, b);
    }
  }

  lemma {:induction false} LStripPadded(a: string, m: string)
    requires AllSpace(a) && (m == [] || !IsSpace(m[0]))
    ensures LStrip(a + m) == m
    decreases |a|
  {
    if a != [] {
      assert (a + m)[1..] == a[1..] + m;
      LStripPadded(a[1..], m);
    } else {
      assert a + m == m;
    }
  }

  lemma {:induction false} RStripPadded(m: string, b: string)
    requires AllSpace(b) && (m == [] || !IsSpace(m[|m| - 1]))
    ensures RStrip(m + b) == m
    decreases |b|
  {
    if b != [] {
      assert (m + b)[..|m + b| - 1] == m + b[..|b| - 1];
      RStripPadded(m, b[..|b| - 1]);
    } else {
      assert m + b == m;
    }
  }

  /** `str.startswith(prefix)`. */
  predicate StartsWith(s: string, prefix: string) {
    |prefix| <= |s| && s[..|prefix|] == prefix
  }

  /** Number of occurrences of `c` in `s`. */
  function Count(s: string, c: char): nat {
    if s == [] then 0 else (if s[0] == c then 1 else 0) + Count(s[1..], c)
  }

  lemma {:induction false} CountAppend(a: string, b: string, c: char)
    ensures Count(a + b, c) == Count(a, c) + Count(b, c)
    decreases |a|
  {
    if a != [] {
      assert (a + b)[1..] == a[1..] + b;
      CountAppend(a[1..], b, c);
    } else {
      assert a + b == b;
    }
  }

  lemma {:induction false} CountAbsent(s: string, c: char)
    requires c !in s
    ensures Count(s, c) == 0
    decreases |s|
  {
    if s != [] {
      CountAbsent(s[1..], c);
    }
  }

  lemma {:induction false} CountPresent(s: string, c: char)
    requires c in s
    ensures Count(s, c) > 0
    decreases |s|
  {
    if s[0] != c {
      CountPresent(s[1..], c);
    }
  }

  /** `str.find(c)`: the first index of `c`, if any. */
  function Find(s: string, c: char): (r: Option<nat>)
    ensures r.None? <==> c !in s
    ensures r.Some? ==> r.value < |s| && s[r.value] == c && c !in s[..r.value]
    decreases |s|
  {
    if s == [] then None
    else if s[0] == c then Some(0)
    else match Find(s[1..], c)
      case None => None
      case Some(i) =>
        assert s[..i + 1] == [s[0]] + s[1..][..i];
        Some(i + 1)
  }

  /** `sep.join(parts)`. */
  function Join(parts: seq<string>, sep: string): string {
    if |parts| == 0 then ""
    else if |parts| == 1 then parts[0]
    else parts[0] + sep + Join(parts[1..], sep)
  }

  function Min(a: nat, b: nat): nat {
    if a <= b then a else b
  }

  /** One cut at the first separator, in front of the pieces of the rest. */
  lemma SplitCons(s: string, sep: char, i: nat, rest: seq<string>, n: nat)
    requires i < |s| && s[i] == sep && sep !in s[..i]
    requires |rest| == 1 + Min(n, Count(s[i + 1..], sep))
    requires Join(rest, [sep]) == s[i + 1..]
    requires forall k :: 0 <= k < |rest| - 1 ==> sep !in rest[k]
    ensures |[s[..i]] + rest| == 1 + Min(n + 1, Count(s, sep))
    ensures Join([s[..i]] + rest, [sep]) == s
    ensures forall k :: 0 <= k < |[s[..i]] + rest| - 1 ==> sep !in ([s[..i]] + rest)[k]
  {
    var parts := [s[..i]] + rest;
    assert s == s[..i] + [sep] + s[i + 1..];
    CountAppend(s[..i] + [sep], s[i + 1..], sep);
    CountAppend(s[..i], [sep], sep);
    CountAbsent(s[..i], sep);
    assert parts[1..] == rest;
    assert forall k :: 1 <= k < |parts| ==> parts[k] == rest[k - 1];
  }

  /** `s.split(sep, maxsplit)` for a one-character separator: at most
      `maxsplit` cuts, made at the leftmost separators, so any later
      separator stays inside the last piece. */
  function SplitN(s: string, sep: char, maxsplit: nat): (parts: seq<string>)
    ensures |parts| == 1 + Min(maxsplit, Count(s, sep))
    ensures Join(parts, [sep]) == s
    ensures forall k :: 0 <= k < |parts| - 1 ==> sep !in parts[k]
    decreases maxsplit
  {
    if maxsplit == 0 then
      [s]
    else
      match Find(s, sep)
      case None =>
        CountAbsent(s, sep);
        [s]
      case Some(i) =>
        var rest := SplitN(s[i + 1..], sep, maxsplit - 1);
        SplitCons(s, sep, i, rest, maxsplit - 1);
        [s[..i]] + rest
  }

  /** The first separator of `a + [sep] + b` is the one after `a` when `a`
      has none. */
  lemma {:induction false} FindAfter(a: string, b: string, sep: char)
    requires sep !in a
    ensures Find(a + [sep] + b, sep) == Some(|a|)
    decreases |a|
  {
    if a != [] {
      assert (a + [sep] + b)[1..] == a[1..] + [sep] + b;
      FindAfter(a[1..], b, sep);
    }
  }

  /** Rebuilding from pieces: splitting `a|b` with one cut gives back `a` and
      `b` exactly when `a` holds no separator. */
  lemma {:induction false} SplitOnceJoin(a: string, b: string, sep: char)
    requires sep !in a
    ensures SplitN(a + [sep] + b, sep, 1) == [a, b]
  {
    var s := a + [sep] + b;
    FindAfter(a, b, sep);
    var i := |a|;
    assert s[..i] == a;
    assert s[i + 1..] == b;
  }

  /** Rebuilding from pieces with two cuts. */
  lemma {:induction false} SplitTwiceJoin(a: string, b: string, c: string, sep: char)
    requires sep !in a && sep !in b
    ensures SplitN(a + [sep] + b + [sep] + c, sep, 2) == [a, b, c]
  {
    var s := a + [sep] + (b + [sep] + c);
    assert s == a + [sep] + b + [sep] + c;
    FindAfter(a, b + [sep] + c, sep);
    var i := |a|;
    assert s[..i] == a;
    assert s[i + 1..] == b + [sep] + c;
    SplitOnceJoin(b, c, sep);
  }

  /** With one cut, `split` yields two pieces exactly when the separator
      occurs, and then cuts at its first occurrence. */
  lemma SplitOnceShape(s: string, sep: char)
    ensures |SplitN(s, sep, 1)| == 2 <==> sep in s
    ensures sep in s ==>
      var i := Find(s, sep).value;
      SplitN(s, sep, 1) == [s[..i], s[i + 1..]]
  {
    if sep in s {
      CountPresent(s, sep);
    } else {
      CountAbsent(s, sep);
    }
  }

  /** `str.upper()` on one character; only ASCII letters are case-mapped. */
  function UpperChar(c: char): char {
    if 'a' <= c <= 'z' then (c as int - 32) as char else c
  }

  /** `str.upper()`, character by character. */
  function Upper(s: string): (r: string)
    ensures |r| == |s|
    ensures forall k :: 0 <= k < |s| ==> r[k] == UpperChar(s[k])
  {
    if s == [] then [] else [UpperChar(s[0])] + Upper(s[1..])
  }

  /** Upper-casing distributes over concatenation and is idempotent. */
  lemma UpperAppend(a: string, b: string)
    ensures Upper(a + b) == Upper(a) + Upper(b)
  {
    assert forall k :: 0 <= k < |a + b| ==> Upper(a + b)[k] == (Upper(a) + Upper(b))[k];
  }

  lemma UpperIdempotent(s: string)
    ensures Upper(Upper(s)) == Upper(s)
  {
  }

  /** Python slicing `s[:n]`: the first `n` elements, or all of them. */
  function Take<T>(s: seq<T>, n: nat): (r: seq<T>)
    ensures |r| <= n && |r| <= |s|
    ensures |s| <= n ==> r == s
    ensures |s| > n ==> |r| == n
    ensures r == s[..|r|]
  {
    if |s| <= n then s else s[..n]
  }

  predicate IsDigit(c: char) {
    '0' <= c <= '9'
  }

  function DigitChar(d: nat): (c: char)
    requires d < 10
    ensures IsDigit(c)
  {
    ('0' as int + d) as char
  }

  /** Decimal rendering of a natural number, as `str(n)` prints it. */
  function NatToString(n: nat): (r: string)
    ensures |r| > 0
    ensures forall k :: 0 <= k < |r| ==> IsDigit(r[k])
    ensures r[0] == '0' ==> n == 0
  {
    if n < 10 then [DigitChar(n)] else NatToString(n / 10) + [DigitChar(n % 10)]
  }

  function DigitValue(c: char): nat
    requires IsDigit(c)
  {
    c as int - '0' as int
  }

  /** Value of a string of decimal digits: the inverse of `NatToString`. */
  function DigitsValue(s: string): nat
    requires forall k :: 0 <= k < |s| ==> IsDigit(s[k])
  {
    if s == [] then 0 else 10 * DigitsValue(s[..|s| - 1]) + DigitValue(s[|s| - 1])
  }

  lemma {:induction false} NatToStringRoundTrip(n: nat)
    ensures DigitsValue(NatToString(n)) == n
  {
    if n >= 10 {
      var s := NatToString(n);
      assert s[..|s| - 1] == NatToString(n / 10);
      NatToStringRoundTrip(n / 10);
    }
  }

  /** `str(i)` for any integer: a minus sign before the magnitude. */
  function IntToString(i: int): (r: string)
    ensures |r| > 0
    ensures i >= 0 ==> r == NatToString(i)
    ensures i < 0 ==> r == "-" + NatToString(-i)
  {
    if i < 0 then "-" + NatToString(-i) else NatToString(i)
  }
}
