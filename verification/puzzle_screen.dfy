/**
 * The logic behind the puzzle screen: the time limits and their warnings,
 * how a puzzle is numbered around the p-beauty game in the middle of the
 * session, how the instruction text is assembled from a scenario's text
 * file and the question bank, and the answer menu.
 */
module Screens {
  import opened Wrappers
  import opened Text
  import opened Shuffling

  // ---------------------------------------------------------------------
  // Time
  // ---------------------------------------------------------------------

  /** `minutes_to_milliseconds(t)`. */
  function MinutesToMs(minutes: int): (ms: int)
    ensures minutes >= 0 ==> ms >= minutes
    ensures minutes < 0 ==> ms < 0
  {
    minutes * 60_000
  }

  /** `milliseconds_to_minutes(t)`: `int(t / 60_000)`, the quotient truncated toward zero. */
  function MsToMinutes(ms: int): (minutes: int)
    ensures ms >= 0 ==> 0 <= minutes && minutes * 60_000 <= ms < minutes * 60_000 + 60_000
    ensures ms < 0 ==> minutes <= 0 && minutes * 60_000 - 60_000 < ms <= minutes * 60_000
  {
    if ms >= 0 then ms / 60_000 else -((-ms) / 60_000)
  }

  /** Converting whole minutes to milliseconds and back loses nothing. */
  lemma MinutesRoundTrip(minutes: int)
    ensures MsToMinutes(MinutesToMs(minutes)) == minutes
  {
    var ms := MinutesToMs(minutes);
    var back := MsToMinutes(ms);
    if minutes >= 0 {
      assert back * 60_000 <= minutes * 60_000 < back * 60_000 + 60_000;
      assert (back - minutes) * 60_000 <= 0 < (back - minutes + 1) * 60_000;
    } else {
      assert back * 60_000 - 60_000 < minutes * 60_000 <= back * 60_000;
      assert (back - minutes - 1) * 60_000 < 0 <= (back - minutes) * 60_000;
    }
  }

  /** The session ends after 45 minutes; warnings come at 30 and 40. */
  const TimeOut: int := MinutesToMs(45)
  const FirstWarning: int := MinutesToMs(30)
  const SecondWarning: int := MinutesToMs(40)

  /** The warnings come in order before the end, and announce 15 and then 5 minutes left. */
  lemma WarningSchedule(timeOut: int, first: int, second: int)
    requires timeOut == TimeOut && first == FirstWarning && second == SecondWarning
    ensures 0 < first < second < timeOut
    ensures MsToMinutes(timeOut - first) == 15 && MsToMinutes(timeOut - second) == 5
  {
    assert timeOut - first == MinutesToMs(15);
    MinutesRoundTrip(15);
    assert timeOut - second == MinutesToMs(5);
    MinutesRoundTrip(5);
  }

  // ---------------------------------------------------------------------
  // Warnings, each shown once
  // ---------------------------------------------------------------------

  predicate NoRepeats(xs: seq<int>)
  {
    forall i, j :: 0 <= i < j < |xs| ==> xs[i] != xs[j]
  }

  /** The list of shown warnings after one more is asked for: appended if new. */
  function Record(previous: seq<int>, remaining: int): (next: seq<int>)
    ensures remaining in next
    ensures (set x | x in next) == (set x | x in previous) + {remaining}
    ensures NoRepeats(previous) ==> NoRepeats(next)
  {
    if remaining in previous then previous else previous + [remaining]
  }

  /** The shown warnings after a series of requests, one after the other. */
  function RecordAll(previous: seq<int>, requests: seq<int>): seq<int>
  {
    if |requests| == 0 then previous
    else Record(RecordAll(previous, requests[..|requests| - 1]), requests[|requests| - 1])
  }

  /** However often a warning is asked for, it is in the list exactly once. */
  lemma {:induction false} RecordAllOnce(requests: seq<int>)
    ensures NoRepeats(RecordAll([], requests))
    ensures forall x :: x in RecordAll([], requests) <==> x in requests
  {
    if |requests| > 0 {
      var init := requests[..|requests| - 1];
      RecordAllOnce(init);
      assert requests == init + [requests[|requests| - 1]];
    }
  }

  /** The module-level `previous_warnings` list and `show_warning`. */
  class WarningLog {
    var previous: seq<int>

    constructor ()
      ensures previous == []
    {
      previous := [];
    }

    /**
     * `show_warning(remaining_time)`: a warning not shown before is
     * recorded and its message returned; a repeated one shows nothing.
     */
    method ShowWarning(remaining: int) returns (message: Option<string>)
      modifies this
      ensures previous == Record(old(previous), remaining)
      ensures message.Some? <==> remaining !in old(previous)
      ensures message.Some? ==> message.value == "You have " + IntToString(remaining) + " minutes left"
    {
      if remaining !in previous {
        previous := previous + [remaining];
        return Some("You have " + IntToString(remaining) + " minutes left");
      }
      return None;
    }
  }

  // ---------------------------------------------------------------------
  // Numbering
  // ---------------------------------------------------------------------

  /** `int(n / 2)`: half, truncated toward zero. */
  function Half(n: int): int
  {
    if n >= 0 then n / 2 else -((-n) / 2)
  }

  /**
   * The slot `count` of a session of `noPuzzles` puzzles, with the p-beauty
   * game inserted in the middle: `None` for the game, otherwise the number
   * the puzzle is shown with.
   */
  function PuzzleNumber(count: int, noPuzzles: int): (r: Option<int>)
    ensures r.None? <==> count == Half(noPuzzles)
    ensures r.Some? ==> r.value == if count < Half(noPuzzles) then count + 1 else count
  {
    var questionCount := count + 1;
    var middle := Half(noPuzzles) + 1;
    if questionCount == middle then None
    else if questionCount > middle then Some(questionCount - 1)
    else Some(questionCount)
  }

  /**
   * Over the `noPuzzles + 1` slots of a session, one is the game and the
   * others number the puzzles 1 to `noPuzzles`, each number once.
   */
  lemma NumberingBijective(noPuzzles: nat)
    ensures exists c :: 0 <= c <= noPuzzles && PuzzleNumber(c, noPuzzles).None?
    ensures forall c :: 0 <= c <= noPuzzles && PuzzleNumber(c, noPuzzles).Some? ==>
      1 <= PuzzleNumber(c, noPuzzles).value <= noPuzzles
    ensures forall c1, c2 :: 0 <= c1 < c2 <= noPuzzles && PuzzleNumber(c1, noPuzzles).Some? && PuzzleNumber(c2, noPuzzles).Some? ==>
      PuzzleNumber(c1, noPuzzles).value < PuzzleNumber(c2, noPuzzles).value
    ensures forall v :: 1 <= v <= noPuzzles ==> exists c :: 0 <= c <= noPuzzles && PuzzleNumber(c, noPuzzles) == Some(v)
  {
    var h := Half(noPuzzles);
    assert 0 <= h <= noPuzzles;
    assert PuzzleNumber(h, noPuzzles).None?;
    forall v | 1 <= v <= noPuzzles
      ensures exists c :: 0 <= c <= noPuzzles && PuzzleNumber(c, noPuzzles) == Some(v)
    {
      if v <= h {
        assert PuzzleNumber(v - 1, noPuzzles) == Some(v);
      } else {
        assert PuzzleNumber(v, noPuzzles) == Some(v);
      }
    }
  }

  // ---------------------------------------------------------------------
  // Instruction text
  // ---------------------------------------------------------------------

  /** An option of the question bank: a month (or its scenario word) and its days, as `str` prints them. */
  type OptionItem = (string, seq<string>)

  /** The bullet line listing one option's days. */
  function OptionLine(option: OptionItem): string
  {
    "\n• " + option.0 + ": " + Join(option.1, ",")
  }

  function OptionLines(options: seq<OptionItem>): string
  {
    if |options| == 0 then ""
    else OptionLines(options[..|options| - 1]) + OptionLine(options[|options| - 1])
  }

  /** Every dialogue line on a line of its own. */
  function DialogueLines(lines: seq<string>): string
  {
    if |lines| == 0 then "" else "\n" + lines[0] + DialogueLines(lines[1..])
  }

  lemma {:induction false} DialogueLinesSnoc(lines: seq<string>, line: string)
    ensures DialogueLines(lines + [line]) == DialogueLines(lines) + "\n" + line
  {
    if |lines| > 0 {
      DialogueLinesSnoc(lines[1..], line);
      assert (lines + [line])[1..] == lines[1..] + [line];
    }
  }

  /** Lines each after a newline are the lines joined by newlines, after one. */
  lemma {:induction false} DialogueLinesJoin(lines: seq<string>)
    requires |lines| > 0
    ensures DialogueLines(lines) == "\n" + Join(lines, "\n")
  {
    if |lines| > 1 {
      DialogueLinesJoin(lines[1..]);
    }
  }

  /** The text the screen shows, from the three parts of the scenario's text file. */
  function InstructionText(text: seq<string>, options: seq<OptionItem>, dialogue: string): string
    requires |text| >= 3
  {
    text[0] + OptionLines(options) + "\n" + text[1] + DialogueLines(Split(dialogue, "; ")) + text[2]
  }

  /**
   * The dialogue of the question bank, its lines separated by "; ", is
   * shown with every separator turned into a line break.
   */
  lemma InstructionDialogue(text: seq<string>, options: seq<OptionItem>, dialogue: string)
    requires |text| >= 3
    ensures InstructionText(text, options, dialogue)
      == text[0] + OptionLines(options) + "\n" + text[1] + "\n" + ReplaceAll(dialogue, "; ", "\n") + text[2]
  {
    DialogueLinesJoin(Split(dialogue, "; "));
    JoinSplit(dialogue, "; ", "\n");
  }

  /**
   * `format_instruction_text(dict_options, dialogue, scenario)`, with the
   * contents of the scenario's text file passed in: the file is split at
   * "; " into the text before the options, the text between options and
   * dialogue, and the text after; fewer than three parts is an IndexError.
   */
  method FormatInstructionText(options: seq<OptionItem>, dialogue: string, fileText: string) returns (r: Result<string, Error>)
    ensures r.Err? <==> |Split(fileText, "; ")| < 3
    ensures r.Err? ==> r.error == IndexError
    ensures r.Ok? ==> |Split(fileText, "; ")| >= 3 && r.value == InstructionText(Split(fileText, "; "), options, dialogue)
  {
    var text := Split(fileText, "; ");
    var instruction := text[0];
    var i := 0;
    while i < |options|
      invariant 0 <= i <= |options| && instruction == text[0] + OptionLines(options[..i])
    {
      assert options[..i + 1][..i] == options[..i];
      instruction := instruction + OptionLine(options[i]);
      i := i + 1;
    }
    assert options[..i] == options;
    if |text| < 2 {
      return Err(IndexError);
    }
    instruction := instruction + "\n" + text[1];
    ghost var head := instruction;
    var lines := Split(dialogue, "; ");
    var j := 0;
    while j < |lines|
      invariant 0 <= j <= |lines| && instruction == head + DialogueLines(lines[..j])
    {
      DialogueLinesSnoc(lines[..j], lines[j]);
      assert lines[..j + 1] == lines[..j] + [lines[j]];
      instruction := instruction + "\n" + lines[j];
      j := j + 1;
    }
    assert lines[..j] == lines;
    if |text| < 3 {
      return Err(IndexError);
    }
    instruction := instruction + text[2];
    return Ok(instruction);
  }

  // ---------------------------------------------------------------------
  // Answer menu
  // ---------------------------------------------------------------------

  /** "month, day" for every day of every option, option by option. */
  function OptionEntries(options: seq<OptionItem>): (entries: seq<string>)
  {
    if |options| == 0 then []
    else seq(|options[0].1|, j requires 0 <= j < |options[0].1| => options[0].0 + ", " + options[0].1[j])
         + OptionEntries(options[1..])
  }

  /** How many days the options list. */
  function DayCount(options: seq<OptionItem>): nat
  {
    if |options| == 0 then 0 else |options[0].1| + DayCount(options[1..])
  }

  /** There is one entry per listed day, and each has the ", " between month and day. */
  lemma {:induction false} OptionEntriesShape(options: seq<OptionItem>)
    ensures |OptionEntries(options)| == DayCount(options)
    ensures forall k :: 0 <= k < |OptionEntries(options)| ==> ',' in OptionEntries(options)[k]
  {
    if |options| > 0 {
      OptionEntriesShape(options[1..]);
      var first := seq(|options[0].1|, j requires 0 <= j < |options[0].1| => options[0].0 + ", " + options[0].1[j]);
      var all := first + OptionEntries(options[1..]);
      forall k | 0 <= k < |all|
        ensures ',' in all[k]
      {
        if k < |first| {
          assert all[k][|options[0].0|] == ',';
        } else {
          assert all[k] == OptionEntries(options[1..])[k - |first|];
        }
      }
    }
  }

  /** The two verdicts every menu ends with. */
  const Verdicts: seq<string> := ["No solution", "Multiple solutions"]

  /**
   * The drop-down menu: the option entries reordered by the draw `perm` of
   * `random.shuffle`, then the two verdicts.  No entry can be mistaken for
   * a verdict.
   */
  function AnswerMenu(options: seq<OptionItem>, perm: seq<nat>): (menu: seq<string>)
    requires IsPerm(perm, |OptionEntries(options)|)
    ensures |menu| == DayCount(options) + 2
    ensures menu[|menu| - 2..] == Verdicts
    ensures Shuffles(menu[..|menu| - 2], OptionEntries(options))
    ensures forall k :: 0 <= k < |menu| - 2 ==> menu[k] !in Verdicts
  {
    OptionEntriesShape(options);
    var shuffled := Apply(OptionEntries(options), perm);
    var menu := shuffled + Verdicts;
    assert menu[..|menu| - 2] == shuffled;
    assert ',' !in Verdicts[0] && ',' !in Verdicts[1];
    menu
  }
}
