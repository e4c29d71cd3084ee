/**
 * The few pieces of Python's string handling the modelled code relies on:
 * `str()` of an integer, `int()` of a string, `str.split`, `str.join` and
 * `str.replace`.
 */
module Text {
  import opened Wrappers

  predicate IsDigit(c: char) { '0' <= c <= '9' }

  function DigitValue(c: char): (d: nat)
    requires IsDigit(c)
    ensures d < 10
  {
    (c as int) - ('0' as int)
  }

  function DigitChar(d: nat): (c: char)
    requires d < 10
    ensures IsDigit(c) && DigitValue(c) == d
  {
    (('0' as int) + d) as char
  }

  /** The ASCII characters Python's `int()` strips as white space. */
  predicate IsSpace(c: char)
  {
    c == ' ' || c == '\t' || c == '\n' || c == '\r' || c == '\U{000B}' || c == '\U{000C}'
    || c == '\U{001C}' || c == '\U{001D}' || c == '\U{001E}' || c == '\U{001F}'
  }

  // ---------------------------------------------------------------------
  // str(n) for integers
  // ---------------------------------------------------------------------

  /** Decimal digits of `n`, most significant first, no leading zero. */
  function NatToString(n: nat): (s: string)
    ensures |s| > 0
    ensures forall i :: 0 <= i < |s| ==> IsDigit(s[i])
    ensures s[0] == '0' ==> n == 0
  {
    if n < 10 then [DigitChar(n)] else NatToString(n / 10) + [DigitChar(n % 10)]
  }

  /** Python's `str(i)` for an integer `i`. */
  function IntToString(i: int): string
  {
    if i < 0 then "-" + NatToString(-i) else NatToString(i)
  }

  // ---------------------------------------------------------------------
  // int(s) for strings
  // ---------------------------------------------------------------------

  function TrimLeft(s: string): string
  {
    if |s| > 0 && IsSpace(s[0]) then TrimLeft(s[1..]) else s
  }

  function TrimRight(s: string): string
  {
    if |s| > 0 && IsSpace(s[|s| - 1]) then TrimRight(s[..|s| - 1]) else s
  }

  /**
   * A decimal literal as `int()` accepts it after the sign: digits, where a
   * single underscore may separate two digits.
   */
  predicate IsNumeral(s: string)
  {
    && |s| > 0
    && IsDigit(s[0])
    && IsDigit(s[|s| - 1])
    && (forall i :: 0 <= i < |s| ==> IsDigit(s[i]) || s[i] == '_')
    && (forall i :: 0 < i < |s| - 1 && s[i] == '_' ==> IsDigit(s[i - 1]) && IsDigit(s[i + 1]))
  }

  /** The value of the digits of `s`, underscores skipped. */
  function NumeralValue(s: string): nat
  {
    if |s| == 0 then 0
    else if IsDigit(s[|s| - 1]) then NumeralValue(s[..|s| - 1]) * 10 + DigitValue(s[|s| - 1])
    else NumeralValue(s[..|s| - 1])
  }

  /**
   * Python's `int(s)` on a string: `None` where Python raises ValueError.
   * Surrounding ASCII white space and one leading sign are accepted.
   */
  function ParseInt(s: string): (r: Option<int>)
    ensures r.Some? ==> exists k :: 0 <= k < |s| && IsDigit(s[k])
  {
    var t := TrimRight(TrimLeft(s));
    TrimmedInside(s);
    if |t| > 0 && (t[0] == '+' || t[0] == '-') then
      var body := t[1..];
      if IsNumeral(body) then
        assert body[0] == s[Offset(s) + 1];
        var v: int := NumeralValue(body);
        Some(if t[0] == '-' then -v else v)
      else None
    else if IsNumeral(t) then
      assert t[0] == s[Offset(s)];
      Some(NumeralValue(t))
    else None
  }

  /** Number of characters TrimLeft drops. */
  function Offset(s: string): nat
    ensures Offset(s) <= |s|
  {
    if |s| > 0 && IsSpace(s[0]) then 1 + Offset(s[1..]) else 0
  }

  lemma {:induction false} TrimRightPrefix(s: string)
    ensures exists n :: 0 <= n <= |s| && TrimRight(s) == s[..n]
    decreases |s|
  {
    if |s| > 0 && IsSpace(s[|s| - 1]) {
      TrimRightPrefix(s[..|s| - 1]);
      var n :| 0 <= n <= |s| - 1 && TrimRight(s[..|s| - 1]) == s[..|s| - 1][..n];
      assert TrimRight(s) == s[..n];
    } else {
      assert TrimRight(s) == s[..|s|];
    }
  }

  lemma {:induction false} TrimLeftSuffix(s: string)
    ensures TrimLeft(s) == s[Offset(s)..]
    decreases |s|
  {
    if |s| > 0 && IsSpace(s[0]) {
      TrimLeftSuffix(s[1..]);
      assert s[1..][Offset(s[1..])..] == s[1 + Offset(s[1..])..];
    }
  }

  /** The trimmed string is a piece of `s` starting at Offset(s). */
  lemma TrimmedInside(s: string)
    ensures forall k :: 0 <= k < |TrimRight(TrimLeft(s))| ==>
      Offset(s) + k < |s| && TrimRight(TrimLeft(s))[k] == s[Offset(s) + k]
  {
    TrimLeftSuffix(s);
    TrimRightPrefix(TrimLeft(s));
  }

  lemma {:induction false} NumeralOfNat(n: nat)
    ensures IsNumeral(NatToString(n)) && NumeralValue(NatToString(n)) == n
  {
    var s := NatToString(n);
    if n >= 10 {
      NumeralOfNat(n / 10);
      assert s[..|s| - 1] == NatToString(n / 10);
    }
  }

  /** `int(str(i)) == i` for every integer. */
  lemma ParseIntToString(i: int)
    ensures ParseInt(IntToString(i)) == Some(i)
  {
    var s := IntToString(i);
    var m: nat := if i < 0 then -i else i;
    NumeralOfNat(m);
    assert TrimLeft(s) == s;
    assert TrimRight(s) == s;
    if i < 0 {
      assert s[1..] == NatToString(m);
    }
  }

  /** `str` of integers is injective: distinct numbers print differently. */
  lemma IntToStringInjective(i: int, j: int)
    requires IntToString(i) == IntToString(j)
    ensures i == j
  {
    ParseIntToString(i);
    ParseIntToString(j);
  }

  // ---------------------------------------------------------------------
  // split, join, replace
  // ---------------------------------------------------------------------

  predicate StartsWith(s: string, p: string)
  {
    |s| >= |p| && s[..|p|] == p
  }

  /**
   * Python's `s.replace(pat, rep)`: occurrences of `pat` are replaced from
   * left to right, never overlapping.
   */
  function ReplaceAll(s: string, pat: string, rep: string): string
    requires |pat| > 0
    decreases |s|
  {
    if |s| == 0 then ""
    else if StartsWith(s, pat) then rep + ReplaceAll(s[|pat|..], pat, rep)
    else [s[0]] + ReplaceAll(s[1..], pat, rep)
  }

  /** Splitting helper: `cur` is the part read so far. */
  function SplitFrom(s: string, sep: string, cur: string): (parts: seq<string>)
    requires |sep| > 0
    ensures |parts| > 0
    decreases |s|
  {
    if |s| == 0 then [cur]
    else if StartsWith(s, sep) then [cur] + SplitFrom(s[|sep|..], sep, "")
    else SplitFrom(s[1..], sep, cur + [s[0]])
  }

  /** Python's `s.split(sep)` for a non-empty separator. */
  function Split(s: string, sep: string): seq<string>
    requires |sep| > 0
  {
    SplitFrom(s, sep, "")
  }

  /** Python's `sep.join(parts)`. */
  function Join(parts: seq<string>, sep: string): string
  {
    if |parts| == 0 then ""
    else if |parts| == 1 then parts[0]
    else parts[0] + sep + Join(parts[1..], sep)
  }

  lemma {:induction false} JoinSplitFrom(s: string, sep: string, cur: string, rep: string)
    requires |sep| > 0
    ensures Join(SplitFrom(s, sep, cur), rep) == cur + ReplaceAll(s, sep, rep)
    decreases |s|
  {
    if |s| == 0 {
    } else if StartsWith(s, sep) {
      var rest := SplitFrom(s[|sep|..], sep, "");
      JoinSplitFrom(s[|sep|..], sep, "", rep);
      assert ([cur] + rest)[1..] == rest;
    } else {
      JoinSplitFrom(s[1..], sep, cur + [s[0]], rep);
    }
  }

  /** Splitting at `sep` and joining with `rep` replaces every `sep` by `rep`. */
  lemma JoinSplit(s: string, sep: string, rep: string)
    requires |sep| > 0
    ensures Join(Split(s, sep), rep) == ReplaceAll(s, sep, rep)
  {
    JoinSplitFrom(s, sep, "", rep);
  }

  lemma {:induction false} ReplaceBySelf(s: string, pat: string)
    requires |pat| > 0
    ensures ReplaceAll(s, pat, pat) == s
    decreases |s|
  {
    if |s| == 0 {
    } else if StartsWith(s, pat) {
      ReplaceBySelf(s[|pat|..], pat);
      assert s == s[..|pat|] + s[|pat|..];
    } else {
      ReplaceBySelf(s[1..], pat);
      assert s == [s[0]] + s[1..];
    }
  }

  /** `sep.join(s.split(sep)) == s`. */
  lemma JoinSplitRoundTrip(s: string, sep: string)
    requires |sep| > 0
    ensures Join(Split(s, sep), sep) == s
  {
    JoinSplit(s, sep, sep);
    ReplaceBySelf(s, sep);
  }

  /** A string without the first character of `pat` is left unchanged. */
  lemma {:induction false} ReplaceAbsent(s: string, pat: string, rep: string)
    requires |pat| > 0
    requires forall k :: 0 <= k < |s| ==> s[k] != pat[0]
    ensures ReplaceAll(s, pat, rep) == s
    decreases |s|
  {
    if |s| > 0 {
      if |s| >= |pat| {
        assert s[..|pat|][0] == s[0];
      }
      ReplaceAbsent(s[1..], pat, rep);
      assert s == [s[0]] + s[1..];
    }
  }

  /** A first character that cannot start a match is copied unchanged. */
  lemma ReplaceSkip(s: string, pat: string, rep: string)
    requires |pat| > 0 && |s| > 0 && s[0] != pat[0]
    ensures ReplaceAll(s, pat, rep) == [s[0]] + ReplaceAll(s[1..], pat, rep)
  {
    if |s| >= |pat| {
      assert s[..|pat|][0] == s[0];
    }
  }

  /** Replacing works piecewise across a concatenation when `b` cannot be reached by a match in `a`. */
  lemma {:induction false} ReplaceAppend(a: string, b: string, pat: string, rep: string)
    requires |pat| > 0
    requires forall k :: 0 <= k < |a| ==> a[k] != pat[0]
    ensures ReplaceAll(a + b, pat, rep) == a + ReplaceAll(b, pat, rep)
    decreases |a|
  {
    if |a| > 0 {
      var rest := a[1..];
      assert (a + b)[0] == a[0] != pat[0];
      ReplaceSkip(a + b, pat, rep);
      assert (a + b)[1..] == rest + b;
      forall k | 0 <= k < |rest|
        ensures rest[k] != pat[0]
      {
        assert rest[k] == a[k + 1];
      }
      ReplaceAppend(rest, b, pat, rep);
      assert a == [a[0]] + rest;
    } else {
      assert a + b == b;
    }
  }
}
