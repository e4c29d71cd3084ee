/**
 * Candidate birthdays ("worlds"): a month of the `Month` enumeration and a
 * day, and the text label `"<Month name>, <day>"` the solver reports.
 */
module Worlds {
  import opened Wrappers
  import opened Text

  datatype Month = May | June | July | August | Sept

  /** The enumeration value the Python `Month` enum assigns. */
  function Value(m: Month): int
  {
    match m
    case May => 4
    case June => 3
    case July => 2
    case August => 1
    case Sept => 0
  }

  /** The enumeration member's name. */
  function Name(m: Month): string
  {
    match m
    case May => "May"
    case June => "June"
    case July => "July"
    case August => "August"
    case Sept => "Sept"
  }

  /** The month's number in the calendar (May is the fifth month). */
  function CalendarNumber(m: Month): nat
  {
    match m
    case May => 5
    case June => 6
    case July => 7
    case August => 8
    case Sept => 9
  }

  /** The enumeration values run against the calendar: a later month has a smaller value. */
  lemma ValueReversesCalendar(m1: Month, m2: Month)
    ensures CalendarNumber(m1) < CalendarNumber(m2) <==> Value(m1) > Value(m2)
    ensures Value(m1) == Value(m2) <==> m1 == m2
  {
  }

  /** Python's `Month[name]`: the member with that name, if any. */
  function MonthNamed(name: string): (r: Option<Month>)
    ensures r.Some? ==> Name(r.value) == name
  {
    if name == "May" then Some(May)
    else if name == "June" then Some(June)
    else if name == "July" then Some(July)
    else if name == "August" then Some(August)
    else if name == "Sept" then Some(Sept)
    else None
  }

  lemma MonthNamedName(m: Month)
    ensures MonthNamed(Name(m)) == Some(m)
  {
  }

  datatype World = World(month: Month, day: int)

  /** The label of a world, `"<name>, <day>"`. */
  function FormatState(w: World): string
  {
    Name(w.month) + ", " + IntToString(w.day)
  }

  /** Position of the first `c` in `s` at or after `k`. */
  function FindFrom(s: string, c: char, k: nat): (r: Option<nat>)
    ensures r.Some? ==> k <= r.value < |s| && s[r.value] == c
    ensures r.None? ==> forall i :: k <= i < |s| ==> s[i] != c
    decreases |s| - k
  {
    if k >= |s| then None else if s[k] == c then Some(k) else FindFrom(s, c, k + 1)
  }

  /** Reads a label back: the month name before the first comma, then ", ", then the day. */
  function ParseState(s: string): Option<World>
  {
    match FindFrom(s, ',', 0)
    case None => None
    case Some(i) =>
      if !StartsWith(s[i..], ", ") then None
      else
        match (MonthNamed(s[..i]), ParseInt(s[i + 2..]))
        case (Some(m), Some(d)) => Some(World(m, d))
        case _ => None
  }

  lemma NoCommaInName(m: Month)
    ensures forall i :: 0 <= i < |Name(m)| ==> Name(m)[i] != ','
  {
  }

  lemma {:induction false} FindAfterPrefix(s: string, n: nat, k: nat)
    requires n < |s| && s[n] == ',' && k <= n
    requires forall i :: 0 <= i < n ==> s[i] != ','
    ensures FindFrom(s, ',', k) == Some(n)
    decreases n - k
  {
    if k < n {
      FindAfterPrefix(s, n, k + 1);
    }
  }

  /** Labels can be read back, so distinct worlds have distinct labels. */
  lemma ParseFormat(w: World)
    ensures ParseState(FormatState(w)) == Some(w)
  {
    var s := FormatState(w);
    var n := |Name(w.month)|;
    NoCommaInName(w.month);
    FindAfterPrefix(s, n, 0);
    assert s[..n] == Name(w.month);
    assert s[n..][..2] == ", ";
    assert s[n + 2..] == IntToString(w.day);
    MonthNamedName(w.month);
    ParseIntToString(w.day);
  }

  lemma FormatStateInjective(w1: World, w2: World)
    requires FormatState(w1) == FormatState(w2)
    ensures w1 == w2
  {
    ParseFormat(w1);
    ParseFormat(w2);
  }

  /** Every label holds a comma. */
  lemma LabelHasComma(w: World)
    ensures ',' in FormatState(w)
  {
    assert FormatState(w)[|Name(w.month)|] == ',';
  }
}
