/**
 * The handful of string operations the crawler relies on, written out so that
 * their edge cases are visible: decimal rendering, `str.startswith`, the `in`
 * substring test, `str.replace(p, "")`, `str.split(sep)[0]` and "read up to a
 * delimiter" (the `[^"]+` style regex groups).
 */
module Text {

  predicate IsDigit(c: char) {
    '0' <= c <= '9'
  }

  function DigitValue(c: char): (v: int)
    requires IsDigit(c)
    ensures 0 <= v < 10
  {
    c as int - '0' as int
  }

  function DigitChar(n: int): (c: char)
    requires 0 <= n < 10
    ensures IsDigit(c) && DigitValue(c) == n
  {
    ('0' as int + n) as char
  }

  /** The number a string of decimal digits denotes, most significant digit first. */
  function DigitsValue(s: string): nat
    requires forall i :: 0 <= i < |s| ==> IsDigit(s[i])
  {
    if s == [] then 0 else DigitsValue(s[..|s| - 1]) * 10 + DigitValue(s[|s| - 1])
  }

  /**
   * Decimal rendering of a natural number, as `f"{n}"` does: the digits
   * denote `n`, and there is no leading zero unless `n` is 0 itself.
   */
  function NatToString(n: nat): (s: string)
    ensures |s| > 0
    ensures forall i :: 0 <= i < |s| ==> IsDigit(s[i])
    ensures DigitsValue(s) == n
    ensures |s| > 1 ==> s[0] != '0'
  {
    if n < 10 then [DigitChar(n)]
    else
      var h := NatToString(n / 10);
      assert (h + [DigitChar(n % 10)])[..|h|] == h;
      h + [DigitChar(n % 10)]
  }

  predicate StartsWith(s: string, prefix: string) {
    |prefix| <= |s| && s[..|prefix|] == prefix
  }

  /** Python's `t in s` for strings: `t` occurs somewhere in `s`. */
  predicate Contains(s: string, t: string)
    decreases |s|
  {
    StartsWith(s, t) || (s != [] && Contains(s[1..], t))
  }

  lemma {:induction false} ContainsAt(s: string, t: string, i: nat)
    requires i + |t| <= |s| && s[i..i + |t|] == t
    ensures Contains(s, t)
    decreases i
  {
    if i > 0 {
      assert s[1..][i - 1..i - 1 + |t|] == s[i..i + |t|];
      ContainsAt(s[1..], t, i - 1);
    }
  }

  /** A string whose first character never occurs in `s` is not a substring of `s`. */
  lemma {:induction false} NotContainsWithoutHead(s: string, t: string)
    requires |t| > 0 && forall i :: 0 <= i < |s| ==> s[i] != t[0]
    ensures !Contains(s, t)
    decreases |s|
  {
    if s != [] {
      assert !StartsWith(s, t) by {
        if |t| <= |s| { assert s[..|t|][0] == s[0]; }
      }
      NotContainsWithoutHead(s[1..], t);
    }
  }

  /** `s.replace(p, "")`: delete every non-overlapping occurrence of `p`, scanning left to right. */
  function RemoveAll(s: string, p: string): string
    requires |p| > 0
    decreases |s|
  {
    if |s| < |p| then s
    else if s[..|p|] == p then RemoveAll(s[|p|..], p)
    else [s[0]] + RemoveAll(s[1..], p)
  }

  /** A string in which the pattern's first character never occurs loses nothing. */
  lemma {:induction false} RemoveAllNoHead(s: string, p: string)
    requires |p| > 0 && forall i :: 0 <= i < |s| ==> s[i] != p[0]
    ensures RemoveAll(s, p) == s
    decreases |s|
  {
    if |s| >= |p| {
      assert s[..|p|][0] == s[0];
      RemoveAllNoHead(s[1..], p);
    }
  }

  /**
   * `s.split(sep)[0]`: the prefix of `s` before the first occurrence of `sep`
   * (all of `s` when `sep` does not occur).
   */
  function SplitHead(s: string, sep: string): (h: string)
    requires |sep| > 0
    ensures |h| <= |s| && s[..|h|] == h
    ensures forall i :: 0 <= i < |h| ==> !StartsWith(s[i..], sep)
    ensures |h| < |s| ==> StartsWith(s[|h|..], sep)
    decreases |s|
  {
    if StartsWith(s, sep) || s == [] then []
    else
      var t := SplitHead(s[1..], sep);
      assert forall i :: 1 <= i <= |t| ==> s[i..] == s[1..][i - 1..];
      [s[0]] + t
  }

  /** The longest prefix of `s` free of `c` (what a `[^c]*` group consumes). */
  function Before(s: string, c: char): (r: string)
    ensures |r| <= |s| && s[..|r|] == r
    ensures forall i :: 0 <= i < |r| ==> r[i] != c
    ensures |r| < |s| ==> s[|r|] == c
    decreases |s|
  {
    if s == [] || s[0] == c then [] else [s[0]] + Before(s[1..], c)
  }

  lemma {:induction false} BeforeAppend(a: string, c: char, b: string)
    requires forall i :: 0 <= i < |a| ==> a[i] != c
    requires b == [] || b[0] == c
    ensures Before(a + b, c) == a
    decreases |a|
  {
    if a != [] {
      assert (a + b)[1..] == a[1..] + b;
      BeforeAppend(a[1..], c, b);
    }
  }
}
