/**
 * The checks on the participant's background form: an age and an email
 * address.  The same two functions appear, unchanged, in the experiment's
 * top-level utilities and in the interface's utilities.
 */
module Validation {
  import opened Wrappers
  import opened Text

  // ---------------------------------------------------------------------
  // Age
  // ---------------------------------------------------------------------

  /**
   * `test_age_validity(age)`: 1 for a string `int()` reads as an age from
   * 15 to 80, 0 otherwise; a string that is not a number is a 0, not an
   * error.
   */
  function AgeValidity(age: string): (r: int)
    ensures r == 0 || r == 1
    ensures r == 1 <==> ParseInt(age).Some? && 15 <= ParseInt(age).value <= 80
  {
    match ParseInt(age)
    case None => 0
    case Some(v) => if v < 15 || v > 80 then 0 else 1
  }

  /** An age typed as Python prints the number is accepted exactly within the bounds. */
  lemma AgeOfNumber(n: int)
    ensures AgeValidity(IntToString(n)) == 1 <==> 15 <= n <= 80
  {
    ParseIntToString(n);
  }

  /** A string with no digit in it is never an age. */
  lemma AgeNeedsDigit(age: string)
    requires forall k :: 0 <= k < |age| ==> !IsDigit(age[k])
    ensures AgeValidity(age) == 0
  {
  }

  // ---------------------------------------------------------------------
  // Email: the pattern ^[a-zA-Z0-9_.+-]+@[a-zA-Z0-9-]+\.[a-zA-Z0-9-.]+$
  // ---------------------------------------------------------------------

  predicate IsAlnum(c: char)
  {
    'a' <= c <= 'z' || 'A' <= c <= 'Z' || '0' <= c <= '9'
  }

  /** `[a-zA-Z0-9_.+-]`, the characters of the part before '@'. */
  predicate LocalChar(c: char)
  {
    IsAlnum(c) || c == '_' || c == '.' || c == '+' || c == '-'
  }

  /** `[a-zA-Z0-9-]`, the characters of the domain name before its first dot. */
  predicate DomainChar(c: char)
  {
    IsAlnum(c) || c == '-'
  }

  /** `[a-zA-Z0-9-.]`, the characters after that dot. */
  predicate TailChar(c: char)
  {
    IsAlnum(c) || c == '-' || c == '.'
  }

  predicate AllLocal(s: string)
  {
    forall k :: 0 <= k < |s| ==> LocalChar(s[k])
  }

  predicate AllDomain(s: string)
  {
    forall k :: 0 <= k < |s| ==> DomainChar(s[k])
  }

  predicate AllTail(s: string)
  {
    forall k :: 0 <= k < |s| ==> TailChar(s[k])
  }

  /**
   * `s` matches the whole pattern with its '@' at `at` and the escaped dot
   * at `dot`: each of the three runs around them is non-empty.
   */
  predicate MatchesAt(s: string, at: nat, dot: nat)
  {
    && 0 < at && at + 1 < dot && dot + 1 < |s|
    && s[at] == '@' && s[dot] == '.'
    && AllLocal(s[..at]) && AllDomain(s[at + 1..dot]) && AllTail(s[dot + 1..])
  }

  /** The language of the pattern, anchored at both ends. */
  predicate FullMatch(s: string)
  {
    exists at: nat, dot: nat | at < dot < |s| :: MatchesAt(s, at, dot)
  }

  /** The first position at or after `from` holding `c`, or `|s|`. */
  function FirstIndex(s: string, c: char, from: nat): (i: nat)
    requires from <= |s|
    ensures from <= i <= |s|
    ensures i < |s| ==> s[i] == c
    ensures forall k :: from <= k < i ==> s[k] != c
    decreases |s| - from
  {
    if from == |s| || s[from] == c then from else FirstIndex(s, c, from + 1)
  }

  /**
   * How the pattern is matched: the local part runs to the first '@',
   * since no character of the pattern's runs is an '@', and the domain
   * name to the first dot after it, since its run has no dot.
   */
  function Recognize(s: string): (b: bool)
    ensures b <==> FullMatch(s)
  {
    var at := FirstIndex(s, '@', 0);
    if at == |s| then
      false
    else
      var dot := FirstIndex(s, '.', at + 1);
      var b := dot < |s| && MatchesAt(s, at, dot);
      assert b <==> FullMatch(s) by {
        if a: nat, d: nat :| a < d < |s| && MatchesAt(s, a, d) {
          FirstSplit(s, a, d, at, dot);
        }
      }
      b
  }

  /** A match's '@' and dot are the first ones. */
  lemma FirstSplit(s: string, a: nat, d: nat, at: nat, dot: nat)
    requires MatchesAt(s, a, d)
    requires at <= |s| && (at < |s| ==> s[at] == '@') && forall k :: 0 <= k < at ==> s[k] != '@'
    requires at < dot <= |s| && (dot < |s| ==> s[dot] == '.') && forall k :: at < k < dot ==> s[k] != '.'
    ensures at == a && dot == d
  {
    if at < a {
      assert false;
    }
    if dot < d {
      assert false;
    }
  }

  /**
   * `test_email_validity(email)`: `re.match` anchors the pattern at the
   * start, and its `$` matches at the end of the string or just before a
   * final newline.
   */
  function EmailValidity(email: string): (r: bool)
    ensures r <==> FullMatch(email) || (|email| > 0 && email[|email| - 1] == '\n' && FullMatch(email[..|email| - 1]))
  {
    Recognize(email) || (|email| > 0 && email[|email| - 1] == '\n' && Recognize(email[..|email| - 1]))
  }

  /**
   * The address part of an accepted email, the whole string or all of it
   * but the final newline, has exactly one '@', with a non-empty local part
   * over `[a-zA-Z0-9_.+-]` before it and, after it, a non-empty domain name
   * over `[a-zA-Z0-9-]`, a dot and a non-empty run over `[a-zA-Z0-9-.]`.
   */
  lemma EmailShape(email: string)
    requires EmailValidity(email)
    ensures exists addr :: (addr == email || addr + "\n" == email) && OneAt(addr)
  {
    if FullMatch(email) {
      MatchOneAt(email);
    } else {
      var addr := email[..|email| - 1];
      MatchOneAt(addr);
      assert addr + "\n" == email;
    }
  }

  /** Exactly one '@', with the pattern's three runs around it and the dot. */
  predicate OneAt(s: string)
  {
    exists at: nat :: at < |s| && s[at] == '@' && (forall k :: 0 <= k < |s| && s[k] == '@' ==> k == at)
      && at > 0 && AllLocal(s[..at])
      && exists dot: nat :: at + 1 < dot < |s| - 1 && s[dot] == '.' && AllDomain(s[at + 1..dot]) && AllTail(s[dot + 1..])
  }

  lemma MatchOneAt(s: string)
    requires FullMatch(s)
    ensures OneAt(s)
  {
    var at: nat, dot: nat :| at < dot < |s| && MatchesAt(s, at, dot);
    forall k | 0 <= k < |s| && s[k] == '@'
      ensures k == at
    {
      if k < at {
        assert false;
      } else if at < k < dot {
        assert false;
      } else if dot < k {
        assert false;
      }
    }
  }
}
