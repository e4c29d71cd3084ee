/**
 * The answer-translation tables: every puzzle scenario (drink, toy, hair)
 * is the birthday puzzle with months and days renamed, and a mirror table
 * may swap the months or the days around.  An answer given in a scenario
 * is translated back to the birthday puzzle it stands for.
 *
 * A dictionary literal is kept as its items in the order written: later
 * items overwrite earlier ones with the same key, as in Python.
 */
module Translation {
  import opened Wrappers
  import opened Text

  /** A value of a table: the tables hold strings and, for days, integers. */
  datatype Value = Str(s: string) | Num(n: int)

  /** Python's `str(v)`. */
  function Show(v: Value): string
  {
    match v
    case Str(s) => s
    case Num(n) => IntToString(n)
  }

  type Items = seq<(string, Value)>

  /** The dictionary a literal with these items builds. */
  function ToMap(items: Items): (m: map<string, Value>)
    ensures forall k :: k in m <==> exists i :: 0 <= i < |items| && items[i].0 == k
  {
    if |items| == 0 then map[]
    else
      var init := items[..|items| - 1];
      var m := ToMap(init);
      assert forall i :: 0 <= i < |init| ==> init[i] == items[i];
      m[items[|items| - 1].0 := items[|items| - 1].1]
  }

  /** `{str(v): str(k) for (k, v) in items}`: the table read backwards. */
  function Invert(items: Items): (m: map<string, string>)
    ensures forall k :: k in m <==> exists i :: 0 <= i < |items| && Show(items[i].1) == k
  {
    if |items| == 0 then map[]
    else
      var init := items[..|items| - 1];
      var m := Invert(init);
      assert forall i :: 0 <= i < |init| ==> init[i] == items[i];
      m[Show(items[|items| - 1].1) := items[|items| - 1].0]
  }

  predicate Distinct(words: seq<string>)
  {
    forall i, j :: 0 <= i < j < |words| ==> words[i] != words[j]
  }

  function Keys(items: Items): (keys: seq<string>)
    ensures |keys| == |items| && forall i :: 0 <= i < |items| ==> keys[i] == items[i].0
  {
    seq(|items|, i requires 0 <= i < |items| => items[i].0)
  }

  /** The values as `str` prints them. */
  function Shows(items: Items): (shows: seq<string>)
    ensures |shows| == |items| && forall i :: 0 <= i < |items| ==> shows[i] == Show(items[i].1)
  {
    seq(|items|, i requires 0 <= i < |items| => Show(items[i].1))
  }

  /** No key is written twice. */
  predicate DistinctKeys(items: Items)
  {
    Distinct(Keys(items))
  }

  /** No two values print the same. */
  predicate DistinctShows(items: Items)
  {
    Distinct(Shows(items))
  }

  /** With distinct keys every item survives in the dictionary. */
  lemma {:induction false} ToMapAt(items: Items, i: nat)
    requires DistinctKeys(items) && i < |items|
    ensures items[i].0 in ToMap(items) && ToMap(items)[items[i].0] == items[i].1
  {
    if i < |items| - 1 {
      var init := items[..|items| - 1];
      assert forall a :: 0 <= a < |init| ==> Keys(init)[a] == Keys(items)[a];
      ToMapAt(init, i);
    }
  }

  /** With distinct printed values every item survives in the inverted dictionary. */
  lemma {:induction false} InvertAt(items: Items, i: nat)
    requires DistinctShows(items) && i < |items|
    ensures Show(items[i].1) in Invert(items) && Invert(items)[Show(items[i].1)] == items[i].0
  {
    if i < |items| - 1 {
      var init := items[..|items| - 1];
      assert forall a :: 0 <= a < |init| ==> Shows(init)[a] == Shows(items)[a];
      InvertAt(init, i);
    }
  }

  /**
   * A table whose keys and printed values are both distinct is a
   * bijection: reading it backwards undoes it, for every key.
   */
  lemma InvertUndoes(items: Items, k: string)
    requires DistinctKeys(items) && DistinctShows(items) && k in ToMap(items)
    ensures Show(ToMap(items)[k]) in Invert(items) && Invert(items)[Show(ToMap(items)[k])] == k
  {
    var i :| 0 <= i < |items| && items[i].0 == k;
    ToMapAt(items, i);
    InvertAt(items, i);
  }

  /** A table whose values print as its keys reads every key back as itself. */
  lemma IdentityTable(items: Items, k: string)
    requires DistinctKeys(items) && Shows(items) == Keys(items) && k in ToMap(items)
    ensures Show(ToMap(items)[k]) == k
  {
    var i :| 0 <= i < |items| && items[i].0 == k;
    ToMapAt(items, i);
    assert Shows(items)[i] == Keys(items)[i];
  }

  /** Through a table that is its own inverse, every key comes back to itself. */
  lemma MirrorSelfInverse(items: Items, perm: seq<nat>, k: string)
    requires DistinctKeys(items) && Mirror(perm) && |items| == |perm|
    requires forall i :: 0 <= i < |items| ==> Shows(items)[i] == Keys(items)[perm[i]]
    requires k in ToMap(items)
    ensures Show(ToMap(items)[k]) in ToMap(items)
    ensures Show(ToMap(items)[Show(ToMap(items)[k])]) == k
    ensures k in Keys(items)[..5] <==> Show(ToMap(items)[k]) in Keys(items)[..5]
  {
    var i :| 0 <= i < |items| && items[i].0 == k;
    ToMapAt(items, i);
    var j := perm[i];
    assert Show(ToMap(items)[k]) == Keys(items)[j] == items[j].0;
    ToMapAt(items, j);
    assert Shows(items)[j] == Keys(items)[i];
    var front := Keys(items)[..5];
    assert k in front <==> i < 5 by {
      if k in front {
        var a :| 0 <= a < 5 && front[a] == k;
        assert Keys(items)[a] == Keys(items)[i];
      }
    }
    assert items[j].0 in front <==> j < 5 by {
      if items[j].0 in front {
        var a :| 0 <= a < 5 && front[a] == items[j].0;
        assert Keys(items)[a] == Keys(items)[j];
      }
    }
  }

  // ---------------------------------------------------------------------
  // The tables
  // ---------------------------------------------------------------------

  /** The ten words of the birthday puzzle, the keys of every table, in the order written. */
  const BirthdayWords: seq<string> := ["May", "June", "July", "August", "September", "14", "15", "16", "17", "18"]

  /** The items of a dictionary literal whose keys are the birthday words. */
  function Table(values: seq<Value>): (items: Items)
    requires |values| == |BirthdayWords|
    ensures Keys(items) == BirthdayWords
    ensures forall i :: 0 <= i < |values| ==> items[i].1 == values[i]
  {
    seq(|values|, i requires 0 <= i < |values| => (BirthdayWords[i], values[i]))
  }

  /** A table of words only. */
  function Words(words: seq<string>): (values: seq<Value>)
    ensures |values| == |words| && forall i :: 0 <= i < |words| ==> values[i] == Str(words[i])
  {
    seq(|words|, i requires 0 <= i < |words| => Str(words[i]))
  }

  const DrinkWords: seq<string> := ["Extra small", "Small", "Regular", "Large", "Extra large",
                                     "hot", "lukewarm", "room temperature", "cold", "iced"]
  const ToyWords: seq<string> := ["On the table", "On the bed", "On the floor", "On the armchair", "On the windowsill",
                                   "doll", "bunny", "clown", "cat", "train"]
  const HairWords: seq<string> := ["Curly", "Spiky", "Straight", "Pixie", "With bangs",
                                    "green", "blue", "purple", "pink", "orange"]

  /** The values of `birthday_original`: months to themselves, day words to day numbers. */
  const OriginalValues: seq<Value> :=
    [Str("May"), Str("June"), Str("July"), Str("August"), Str("September"), Num(14), Num(15), Num(16), Num(17), Num(18)]
  /** The values of `birthday_new_month`: the months in reverse order. */
  const NewMonthValues: seq<Value> :=
    [Str("September"), Str("August"), Str("July"), Str("June"), Str("May"), Num(14), Num(15), Num(16), Num(17), Num(18)]
  /** The values of `birthday_new_day`: the days in reverse order. */
  const NewDayValues: seq<Value> :=
    [Str("May"), Str("June"), Str("July"), Str("August"), Str("September"), Num(18), Num(17), Num(16), Num(15), Num(14)]
  /** The values of `birthday_new_month_day`: both in reverse order. */
  const NewMonthDayValues: seq<Value> :=
    [Str("September"), Str("August"), Str("July"), Str("June"), Str("May"), Num(18), Num(17), Num(16), Num(15), Num(14)]

  const BirthdayOriginal: Items := Table(OriginalValues)
  const Drink: Items := Table(Words(DrinkWords))
  const Toy: Items := Table(Words(ToyWords))
  const Hair: Items := Table(Words(HairWords))

  /** The scenarios a puzzle is told in. */
  datatype Scenario = Birthday | DrinkScenario | ToyScenario | HairScenario

  /** The table that renames the birthday puzzle into the scenario. */
  function ScenarioTable(s: Scenario): Items
  {
    match s
    case Birthday => BirthdayOriginal
    case DrinkScenario => Drink
    case ToyScenario => Toy
    case HairScenario => Hair
  }

  /** `<scenario>_to_bday`: from the scenario's words back to the birthday's. */
  function ScenarioKey(s: Scenario): map<string, string>
  {
    Invert(ScenarioTable(s))
  }

  /**
   * `translate_answer(ans, scenario, config_key)`, with `key` the table
   * the scenario selects: every component of the answer is read back into
   * the birthday puzzle and then through the mirror table `config`; the
   * first two, printed, make the translated answer.  A component missing
   * from either table is a KeyError, which comes before a too-short
   * answer's IndexError.
   */
  function TranslateAnswer(ans: seq<string>, key: map<string, string>, config: map<string, Value>): (r: Result<string, Error>)
    ensures r.Ok? <==>
      |ans| >= 2 && forall i :: 0 <= i < |ans| ==> ans[i] in key && key[ans[i]] in config
    ensures r.Err? ==> r.error == KeyError || (r.error == IndexError && |ans| < 2)
    ensures r.Ok? ==> r.value == Show(config[key[ans[0]]]) + ", " + Show(config[key[ans[1]]])
  {
    if exists i :: 0 <= i < |ans| && ans[i] !in key then Err(KeyError)
    else if exists i :: 0 <= i < |ans| && key[ans[i]] !in config then Err(KeyError)
    else if |ans| < 2 then Err(IndexError)
    else Ok(Show(config[key[ans[0]]]) + ", " + Show(config[key[ans[1]]]))
  }

  /**
   * How the analysis uses `translate_answer`: the given answer is split at
   * ", " and translated; when a word is missing from a table the answer is
   * kept as given.  A too-short answer's IndexError is not caught.
   */
  function TranslateOrKeep(given: string, key: map<string, string>, config: map<string, Value>): (r: Result<string, Error>)
    ensures r.Err? <==>
      |Split(given, ", ")| < 2 && forall i :: 0 <= i < |Split(given, ", ")| ==>
        Split(given, ", ")[i] in key && key[Split(given, ", ")[i]] in config
    ensures r.Err? ==> r.error == IndexError
    ensures (exists i :: 0 <= i < |Split(given, ", ")| &&
               (Split(given, ", ")[i] !in key || key[Split(given, ", ")[i]] !in config)) ==> r == Ok(given)
    ensures TranslateAnswer(Split(given, ", "), key, config).Ok? ==> r == TranslateAnswer(Split(given, ", "), key, config)
  {
    match TranslateAnswer(Split(given, ", "), key, config)
    case Ok(t) => Ok(t)
    case Err(e) => if e == KeyError then Ok(given) else Err(e)
  }

  // ---------------------------------------------------------------------
  // What the tables promise
  // ---------------------------------------------------------------------

  lemma BirthdayWordsDistinct(words: seq<string>)
    requires words == BirthdayWords
    ensures Distinct(words)
  {
  }

  /** A table of distinct words renames the birthday words one to one. */
  lemma WordTable(words: seq<string>)
    requires |words| == |BirthdayWords| && Distinct(words)
    ensures Shows(Table(Words(words))) == words
    ensures DistinctKeys(Table(Words(words))) && DistinctShows(Table(Words(words)))
  {
    BirthdayWordsDistinct(BirthdayWords);
  }

  lemma DrinkWordsDistinct(words: seq<string>)
    requires words == DrinkWords
    ensures |words| == |BirthdayWords| && Distinct(words)
  {
  }

  lemma ToyWordsDistinct(words: seq<string>)
    requires words == ToyWords
    ensures |words| == |BirthdayWords| && Distinct(words)
  {
  }

  lemma HairWordsDistinct(words: seq<string>)
    requires words == HairWords
    ensures |words| == |BirthdayWords| && Distinct(words)
  {
  }

  /** Positions 5 to 9 are the days, 14 to 18. */
  lemma DayShows(d: nat)
    requires 5 <= d < 10
    ensures IntToString(d + 9) == BirthdayWords[d]
  {
    assert DigitChar(1) == '1';
    if d == 5 {
      assert DigitChar(4) == '4';
      assert NatToString(14) == NatToString(1) + [DigitChar(4)];
      assert IntToString(14) == "14";
    } else if d == 6 {
      assert DigitChar(5) == '5';
      assert NatToString(15) == NatToString(1) + [DigitChar(5)];
      assert IntToString(15) == "15";
    } else if d == 7 {
      assert DigitChar(6) == '6';
      assert NatToString(16) == NatToString(1) + [DigitChar(6)];
      assert IntToString(16) == "16";
    } else if d == 8 {
      assert DigitChar(7) == '7';
      assert NatToString(17) == NatToString(1) + [DigitChar(7)];
      assert IntToString(17) == "17";
    } else {
      assert DigitChar(8) == '8';
      assert NatToString(18) == NatToString(1) + [DigitChar(8)];
      assert IntToString(18) == "18";
    }
  }

  /** A permutation of the ten positions that is its own inverse and keeps months and days apart. */
  predicate Mirror(perm: seq<nat>)
  {
    && |perm| == 10
    && (forall i :: 0 <= i < 10 ==> perm[i] < 10)
    && (forall i :: 0 <= i < 10 ==> perm[perm[i]] == i)
    && (forall i :: 0 <= i < 10 ==> (i < 5 <==> perm[i] < 5))
  }

  /** The values a mirror table gives the birthday word at position `i`: the word at `perm[i]`, a day as a number. */
  predicate MirrorValues(values: seq<Value>, perm: seq<nat>)
    requires Mirror(perm)
  {
    |values| == 10 &&
    forall i :: 0 <= i < 10 ==>
      values[i] == if perm[i] < 5 then Str(BirthdayWords[perm[i]]) else Num(perm[i] + 9)
  }

  /** The positions the four mirror tables send each birthday word to. */
  const Identity: seq<nat> := [0, 1, 2, 3, 4, 5, 6, 7, 8, 9]
  const MonthsReversed: seq<nat> := [4, 3, 2, 1, 0, 5, 6, 7, 8, 9]
  const DaysReversed: seq<nat> := [0, 1, 2, 3, 4, 9, 8, 7, 6, 5]
  const BothReversed: seq<nat> := [4, 3, 2, 1, 0, 9, 8, 7, 6, 5]

  /** The translation key of a question: which mirror table it was made with. */
  datatype MirrorKey = Original | NewMonth | NewDay | NewMonthDay

  function MirrorValuesOf(m: MirrorKey): (values: seq<Value>)
    ensures |values| == |BirthdayWords|
  {
    match m
    case Original => OriginalValues
    case NewMonth => NewMonthValues
    case NewDay => NewDayValues
    case NewMonthDay => NewMonthDayValues
  }

  function MirrorPerm(m: MirrorKey): seq<nat>
  {
    match m
    case Original => Identity
    case NewMonth => MonthsReversed
    case NewDay => DaysReversed
    case NewMonthDay => BothReversed
  }

  /** The mirror table a translation key names. */
  function MirrorTable(m: MirrorKey): Items
  {
    Table(MirrorValuesOf(m))
  }

  /** Position `i` of a mirror table: the permutation and the value there agree with `Mirror` and `MirrorValues`. */
  predicate MirrorAt(values: seq<Value>, perm: seq<nat>, i: nat)
    requires |values| == 10 && |perm| == 10 && i < 10
  {
    && perm[i] < 10
    && perm[perm[i]] == i
    && (i < 5 <==> perm[i] < 5)
    && values[i] == if perm[i] < 5 then Str(BirthdayWords[perm[i]]) else Num(perm[i] + 9)
  }

  /** The ten position facts, gathered under one quantifier. */
  lemma AllPositions(values: seq<Value>, perm: seq<nat>)
    requires |values| == 10 && |perm| == 10
    requires MirrorAt(values, perm, 0) && MirrorAt(values, perm, 1) && MirrorAt(values, perm, 2)
    requires MirrorAt(values, perm, 3) && MirrorAt(values, perm, 4) && MirrorAt(values, perm, 5)
    requires MirrorAt(values, perm, 6) && MirrorAt(values, perm, 7) && MirrorAt(values, perm, 8)
    requires MirrorAt(values, perm, 9)
    ensures forall i: nat | i < 10 :: MirrorAt(values, perm, i)
  {
    forall i: nat | i < 10
      ensures MirrorAt(values, perm, i)
    {
      assert i == 0 || i == 1 || i == 2 || i == 3 || i == 4 || i == 5 || i == 6 || i == 7 || i == 8 || i == 9;
    }
  }

  /** A table follows a mirror permutation when it does so at each of the ten positions. */
  lemma MirrorByPositions(values: seq<Value>, perm: seq<nat>)
    requires |values| == 10 && |perm| == 10
    requires forall i: nat | i < 10 :: MirrorAt(values, perm, i)
    ensures Mirror(perm) && MirrorValues(values, perm)
  {
    forall i | 0 <= i < 10
      ensures perm[i] < 10 && perm[perm[i]] == i && (i < 5 <==> perm[i] < 5)
    {
      assert MirrorAt(values, perm, i);
    }
    assert Mirror(perm);
    forall i | 0 <= i < 10
      ensures values[i] == if perm[i] < 5 then Str(BirthdayWords[perm[i]]) else Num(perm[i] + 9)
    {
      assert MirrorAt(values, perm, i);
    }
  }

  lemma OriginalMirror(values: seq<Value>, perm: seq<nat>)
    requires values == OriginalValues && perm == Identity
    ensures Mirror(perm) && MirrorValues(values, perm)
  {
    AllPositions(values, perm);
    MirrorByPositions(values, perm);
  }

  lemma NewMonthMirror(values: seq<Value>, perm: seq<nat>)
    requires values == NewMonthValues && perm == MonthsReversed
    ensures Mirror(perm) && MirrorValues(values, perm)
  {
    AllPositions(values, perm);
    MirrorByPositions(values, perm);
  }

  lemma NewDayMirror(values: seq<Value>, perm: seq<nat>)
    requires values == NewDayValues && perm == DaysReversed
    ensures Mirror(perm) && MirrorValues(values, perm)
  {
    AllPositions(values, perm);
    MirrorByPositions(values, perm);
  }

  lemma NewMonthDayMirror(values: seq<Value>, perm: seq<nat>)
    requires values == NewMonthDayValues && perm == BothReversed
    ensures Mirror(perm) && MirrorValues(values, perm)
  {
    AllPositions(values, perm);
    MirrorByPositions(values, perm);
  }

  /** Each of the four mirror tables follows its permutation. */
  lemma MirrorTables(m: MirrorKey)
    ensures Mirror(MirrorPerm(m)) && MirrorValues(MirrorValuesOf(m), MirrorPerm(m))
  {
    match m
    case Original => OriginalMirror(OriginalValues, Identity);
    case NewMonth => NewMonthMirror(NewMonthValues, MonthsReversed);
    case NewDay => NewDayMirror(NewDayValues, DaysReversed);
    case NewMonthDay => NewMonthDayMirror(NewMonthDayValues, BothReversed);
  }

  /** A table built from mirror values prints each key's value as the key at the mirrored position. */
  lemma MirrorShows(values: seq<Value>, perm: seq<nat>)
    requires Mirror(perm) && MirrorValues(values, perm)
    ensures DistinctKeys(Table(values))
    ensures forall i :: 0 <= i < 10 ==> Shows(Table(values))[i] == Keys(Table(values))[perm[i]]
  {
    BirthdayWordsDistinct(BirthdayWords);
    forall i | 0 <= i < 10 ensures Shows(Table(values))[i] == Keys(Table(values))[perm[i]] {
      if perm[i] >= 5 {
        DayShows(perm[i]);
      }
    }
  }

  /** `birthday_original` prints every value as its own key, so `birthday_to_bday` is the identity. */
  lemma OriginalShows()
    ensures DistinctKeys(BirthdayOriginal) && Shows(BirthdayOriginal) == Keys(BirthdayOriginal)
  {
    MirrorTables(Original);
    MirrorShows(OriginalValues, Identity);
  }

  /**
   * Each of the mirror tables maps months to months and days to days, one
   * to one, and undoes itself when its value is read back as text.
   */
  lemma MirrorTableSelfInverse(m: MirrorKey, k: string)
    requires k in ToMap(MirrorTable(m))
    ensures Show(ToMap(MirrorTable(m))[k]) in ToMap(MirrorTable(m))
    ensures Show(ToMap(MirrorTable(m))[Show(ToMap(MirrorTable(m))[k])]) == k
    ensures k in BirthdayWords[..5] <==> Show(ToMap(MirrorTable(m))[k]) in BirthdayWords[..5]
  {
    MirrorTables(m);
    MirrorShows(MirrorValuesOf(m), MirrorPerm(m));
    MirrorSelfInverse(MirrorTable(m), MirrorPerm(m), k);
  }

  /** Every scenario table renames the ten birthday words to ten distinct words. */
  lemma ScenarioTableBijective(s: Scenario)
    ensures Keys(ScenarioTable(s)) == BirthdayWords
    ensures DistinctKeys(ScenarioTable(s)) && DistinctShows(ScenarioTable(s))
  {
    match s
    case Birthday =>
      OriginalShows();
    case DrinkScenario =>
      DrinkWordsDistinct(DrinkWords);
      WordTable(DrinkWords);
    case ToyScenario =>
      ToyWordsDistinct(ToyWords);
      WordTable(ToyWords);
    case HairScenario =>
      HairWordsDistinct(HairWords);
      WordTable(HairWords);
  }

  /** Reading a scenario word back gives the birthday word it renames. */
  lemma ScenarioKeyUndoes(s: Scenario, k: string)
    requires k in ToMap(ScenarioTable(s))
    ensures Show(ToMap(ScenarioTable(s))[k]) in ScenarioKey(s)
    ensures ScenarioKey(s)[Show(ToMap(ScenarioTable(s))[k])] == k
  {
    ScenarioTableBijective(s);
    InvertUndoes(ScenarioTable(s), k);
  }

  /** A two-word answer whose words both translate is translated word by word. */
  lemma TranslatePair(a: string, b: string, key: map<string, string>, config: map<string, Value>)
    requires a in key && b in key && key[a] in config && key[b] in config
    ensures TranslateAnswer([a, b], key, config) == Ok(Show(config[key[a]]) + ", " + Show(config[key[b]]))
  {
    assert forall i :: 0 <= i < |[a, b]| ==> [a, b][i] in key && key[[a, b][i]] in config;
  }

  /** Two tables with the same keys define the same words. */
  lemma SameKeys(items: Items, config: Items, k: string)
    requires Keys(config) == Keys(items) && k in ToMap(items)
    ensures k in ToMap(config)
  {
    var i :| 0 <= i < |items| && items[i].0 == k;
    assert config[i].0 == Keys(config)[i] == k;
  }

  /**
   * An answer made of two words of a one-to-one table, translated through
   * any table `config` over the same keys, reads through `config` the two
   * keys the words rename.
   */
  lemma TranslateThrough(items: Items, config: Items, first: string, second: string)
    requires DistinctKeys(items) && DistinctShows(items) && Keys(config) == Keys(items)
    requires first in ToMap(items) && second in ToMap(items)
    ensures first in ToMap(config) && second in ToMap(config)
    ensures TranslateAnswer([Show(ToMap(items)[first]), Show(ToMap(items)[second])], Invert(items), ToMap(config))
      == Ok(Show(ToMap(config)[first]) + ", " + Show(ToMap(config)[second]))
  {
    InvertUndoes(items, first);
    InvertUndoes(items, second);
    SameKeys(items, config, first);
    SameKeys(items, config, second);
    TranslatePair(Show(ToMap(items)[first]), Show(ToMap(items)[second]), Invert(items), ToMap(config));
  }

  /**
   * Translating an answer given in a scenario, with the identity mirror,
   * gives back the birthday the answer renames: the tables let no answer
   * be confused with another.
   */
  lemma TranslateRoundTrip(s: Scenario, month: string, day: string)
    requires month in ToMap(ScenarioTable(s)) && day in ToMap(ScenarioTable(s))
    ensures TranslateAnswer([Show(ToMap(ScenarioTable(s))[month]), Show(ToMap(ScenarioTable(s))[day])],
                            ScenarioKey(s), ToMap(MirrorTable(Original)))
      == Ok(month + ", " + day)
  {
    ScenarioTableBijective(s);
    TranslateThrough(ScenarioTable(s), MirrorTable(Original), month, day);
    OriginalShows();
    IdentityTable(MirrorTable(Original), month);
    IdentityTable(MirrorTable(Original), day);
  }
}
