/**
 * The model-evidence arithmetic: how the solver's answers become
 * predictions, how predictions are compared with a participant's answers,
 * and the log-likelihood terms of the strategy models and of the random
 * model.
 *
 * Logarithms are kept symbolic: a log-likelihood is a list of terms
 * `coeff * ln(arg)`, and Python's `math.log` raising ValueError on an
 * argument that is not positive is modelled by checking every argument.
 * Python floats are modelled as exact reals.
 */
module Fitting {
  import opened Wrappers
  import opened Text
  import opened Worlds

  // ---------------------------------------------------------------------
  // Predictions
  // ---------------------------------------------------------------------

  /** `model_answer.replace("Sept", "September")`. */
  function Prediction(answer: string): string
  {
    ReplaceAll(answer, "Sept", "September")
  }

  lemma IntToStringChars(i: int)
    ensures forall k :: 0 <= k < |IntToString(i)| ==> IntToString(i)[k] != 'S'
  {
    if i < 0 {
      assert forall k :: 1 <= k < |IntToString(i)| ==> IntToString(i)[k] == NatToString(-i)[k - 1];
    }
  }

  /**
   * A world's label becomes its prediction by spelling September out;
   * every other month, and the day, are left as they are.
   */
  lemma PredictionOfLabel(w: World)
    ensures Prediction(FormatState(w)) ==
      (if w.month == Sept then "September" else Name(w.month)) + ", " + IntToString(w.day)
  {
    var tail := ", " + IntToString(w.day);
    IntToStringChars(w.day);
    assert forall k :: 0 <= k < |tail| ==> tail[k] != 'S';
    if w.month == Sept {
      var s := FormatState(w);
      assert s == "Sept" + tail;
      assert StartsWith(s, "Sept");
      assert s[4..] == tail;
      ReplaceAbsent(tail, "Sept", "September");
    } else {
      assert forall k :: 0 <= k < |Name(w.month)| ==> Name(w.month)[k] != 'S';
      ReplaceAbsent(FormatState(w), "Sept", "September");
    }
  }

  /** The two answers that are not labels pass through unchanged. */
  lemma PredictionKeepsVerdicts(answer: string)
    requires answer == "No solution" || answer == "Multiple solutions"
    ensures Prediction(answer) == answer
  {
    ReplaceAbsent(answer, "Sept", "September");
  }

  /** The two directions in which a formula can be cut down. */
  datatype Direction = LeftRight | RightLeft

  /**
   * The strategy configuration at position `k` of a trial's predictions:
   * level 0 once, left to right, then every higher level in both
   * directions.
   */
  function Config(k: nat): (c: (nat, Direction))
  {
    if k == 0 then (0, LeftRight) else ((k + 1) / 2, if k % 2 == 1 then LeftRight else RightLeft)
  }

  /** Number of configurations for levels `0 .. maxLevel - 1`. */
  function ConfigCount(maxLevel: int): (n: nat)
    ensures maxLevel > 0 ==> n == 2 * maxLevel - 1
    ensures maxLevel <= 0 ==> n == 0
  {
    if maxLevel <= 0 then 0 else 2 * maxLevel - 1
  }

  /** Where a configuration sits in the list. */
  function Position(level: nat, d: Direction): nat
  {
    if level == 0 then 0 else 2 * level - 1 + (if d == RightLeft then 1 else 0)
  }

  /**
   * The configurations are exactly the pairs (level, direction) with level
   * below the maximum, except level 0 from right to left, each listed once.
   */
  lemma ConfigsEnumerate(maxLevel: int, level: nat, d: Direction, k: nat)
    ensures k < ConfigCount(maxLevel) ==> Config(k).0 < maxLevel && Config(k) != (0, RightLeft)
    ensures Position(Config(k).0, Config(k).1) == k
    ensures (level, d) != (0, RightLeft) ==> Config(Position(level, d)) == (level, d)
    ensures level < maxLevel && (level, d) != (0, RightLeft) ==> Position(level, d) < ConfigCount(maxLevel)
  {
  }

  /**
   * The strategy loop of `generate_all_predictions` for one trial: for
   * every configuration, the prediction made with it (`run` is the solver
   * run, before the September rewrite) and whether it is the correct
   * answer.
   */
  method TrialPredictions(maxLevel: int, correct: string, run: (nat, Direction) -> string)
    returns (predictions: seq<string>, isCorrect: seq<bool>)
    ensures |predictions| == |isCorrect| == ConfigCount(maxLevel)
    ensures forall k :: 0 <= k < |predictions| ==>
      predictions[k] == Prediction(run(Config(k).0, Config(k).1)) && (isCorrect[k] <==> predictions[k] == correct)
  {
    predictions, isCorrect := [], [];
    var level := 0;
    while level < maxLevel
      invariant 0 <= level <= (if maxLevel > 0 then maxLevel else 0)
      invariant |predictions| == |isCorrect| == ConfigCount(level)
      invariant forall k :: 0 <= k < |predictions| ==>
        predictions[k] == Prediction(run(Config(k).0, Config(k).1)) && (isCorrect[k] <==> predictions[k] == correct)
    {
      var directions := [LeftRight, RightLeft];
      var j := 0;
      while j < 2
        invariant 0 <= j <= 2 && |predictions| == |isCorrect|
        invariant |predictions| == ConfigCount(level) + (if level == 0 then (if j > 0 then 1 else 0) else j)
        invariant forall k :: 0 <= k < |predictions| ==>
          predictions[k] == Prediction(run(Config(k).0, Config(k).1)) && (isCorrect[k] <==> predictions[k] == correct)
      {
        if !(level == 0 && directions[j] == RightLeft) {
          ghost var k := |predictions|;
          assert level > 0 ==> k + 1 == 2 * level + j;
          assert Config(k) == (level, directions[j]);
          var answer := Prediction(run(level, directions[j]));
          predictions := predictions + [answer];
          isCorrect := isCorrect + [answer == correct];
        }
        j := j + 1;
      }
      level := level + 1;
    }
    assert ConfigCount(level) == ConfigCount(maxLevel);
  }

  // ---------------------------------------------------------------------
  // Accuracy and agreement
  // ---------------------------------------------------------------------

  /** `sum(bools)`: the number of `True` entries. */
  function CountTrue(bs: seq<bool>): (n: nat)
    ensures n <= |bs|
    ensures n == |bs| <==> forall i :: 0 <= i < |bs| ==> bs[i]
    ensures n == 0 <==> forall i :: 0 <= i < |bs| ==> !bs[i]
  {
    if |bs| == 0 then 0
    else
      var init := bs[..|bs| - 1];
      assert forall i :: 0 <= i < |init| ==> init[i] == bs[i];
      CountTrue(init) + (if bs[|bs| - 1] then 1 else 0)
  }

  /**
   * `get_accuracy`: the fraction of correct answers, between 0 and 1, all
   * correct exactly when it is 1 and none exactly when it is 0.  An empty
   * list divides by zero.
   */
  function GetAccuracy(bs: seq<bool>): (r: Result<real, Error>)
    ensures |bs| == 0 <==> r == Err(ZeroDivisionError)
    ensures r.Ok? ==> 0.0 <= r.value <= 1.0
    ensures r.Ok? ==> (r.value == 1.0 <==> forall i :: 0 <= i < |bs| ==> bs[i])
    ensures r.Ok? ==> (r.value == 0.0 <==> forall i :: 0 <= i < |bs| ==> !bs[i])
  {
    if |bs| == 0 then Err(ZeroDivisionError)
    else
      var c := CountTrue(bs) as real;
      var n := |bs| as real;
      Fraction(c, n);
      Ok(c / n)
  }

  /** Number of positions below `n` where the two answer lists agree. */
  function Matches(subj: seq<string>, model: seq<string>, n: nat): (c: nat)
    requires n <= |subj| && n <= |model|
    ensures c <= n
  {
    if n == 0 then 0 else Matches(subj, model, n - 1) + (if subj[n - 1] == model[n - 1] then 1 else 0)
  }

  /**
   * `count_common_answers`: the number of the participant's answers the
   * model predicted at the same position.  A model list shorter than the
   * participant's runs off its end.
   */
  method CountCommonAnswers(subj: seq<string>, model: seq<string>) returns (r: Result<nat, Error>)
    ensures |model| < |subj| ==> r == Err(IndexError)
    ensures |subj| <= |model| ==> r == Ok(Matches(subj, model, |subj|))
  {
    var count := 0;
    var idx := 0;
    while idx < |subj|
      invariant 0 <= idx <= |subj| && idx <= |model|
      invariant count == Matches(subj, model, idx)
    {
      if idx >= |model| {
        return Err(IndexError);
      }
      if subj[idx] == model[idx] {
        count := count + 1;
      }
      idx := idx + 1;
    }
    return Ok(count);
  }

  /**
   * The count is everything exactly when the model repeats the
   * participant's answers, and nothing exactly when it never does.
   */
  lemma {:induction false} MatchesBounds(subj: seq<string>, model: seq<string>, n: nat)
    requires n <= |subj| && n <= |model|
    ensures Matches(subj, model, n) == n <==> subj[..n] == model[..n]
    ensures Matches(subj, model, n) == 0 <==> forall i :: 0 <= i < n ==> subj[i] != model[i]
  {
    if n > 0 {
      MatchesBounds(subj, model, n - 1);
      assert subj[..n] == subj[..n - 1] + [subj[n - 1]];
      assert model[..n] == model[..n - 1] + [model[n - 1]];
      if subj[..n] == model[..n] {
        assert subj[..n - 1] == subj[..n][..n - 1];
        assert model[..n - 1] == model[..n][..n - 1];
        assert subj[n - 1] == subj[..n][n - 1];
      }
    }
  }

  // ---------------------------------------------------------------------
  // Answer histograms
  // ---------------------------------------------------------------------

  /** The distinct answers in order of first occurrence. */
  function Distinct(xs: seq<string>): seq<string>
  {
    if |xs| == 0 then []
    else
      var d := Distinct(xs[..|xs| - 1]);
      if xs[|xs| - 1] in xs[..|xs| - 1] then d else d + [xs[|xs| - 1]]
  }

  lemma {:induction false} DistinctMembers(xs: seq<string>)
    ensures forall x :: x in Distinct(xs) <==> x in xs
    ensures forall i, j :: 0 <= i < j < |Distinct(xs)| ==> Distinct(xs)[i] != Distinct(xs)[j]
  {
    if |xs| > 0 {
      var init := xs[..|xs| - 1];
      DistinctMembers(init);
      assert xs == init + [xs[|xs| - 1]];
    }
  }

  /**
   * The dictionary `count_subject_answers` builds, as its items in
   * insertion order: every distinct answer, first occurrences first, with
   * the number of times it occurs.
   */
  function Tally(xs: seq<string>): (t: seq<(string, nat)>)
    ensures |t| == |Distinct(xs)|
    ensures forall k :: 0 <= k < |t| ==> t[k] == (Distinct(xs)[k], multiset(xs)[Distinct(xs)[k]])
  {
    var d := Distinct(xs);
    seq(|d|, k requires 0 <= k < |d| => (d[k], multiset(xs)[d[k]]))
  }

  /** Python's `key in dict` on the items: the position of the key. */
  function Find(entries: seq<(string, nat)>, key: string): (r: Option<nat>)
    ensures r.Some? ==> r.value < |entries| && entries[r.value].0 == key
    ensures r.None? ==> forall k :: 0 <= k < |entries| ==> entries[k].0 != key
  {
    if |entries| == 0 then None
    else if entries[|entries| - 1].0 == key then Some(|entries| - 1)
    else Find(entries[..|entries| - 1], key)
  }

  lemma TallySnoc(xs: seq<string>, a: string)
    ensures a in xs ==> exists j :: 0 <= j < |Tally(xs)| && Tally(xs)[j].0 == a
    ensures forall j :: 0 <= j < |Tally(xs)| && Tally(xs)[j].0 == a ==>
      Tally(xs + [a]) == Tally(xs)[j := (a, Tally(xs)[j].1 + 1)]
    ensures a !in xs ==> Tally(xs + [a]) == Tally(xs) + [(a, 1)]
  {
    var ys := xs + [a];
    assert ys[..|ys| - 1] == xs;
    DistinctMembers(xs);
    assert multiset(ys) == multiset(xs) + multiset{a};
    if a in xs {
      var i :| 0 <= i < |Distinct(xs)| && Distinct(xs)[i] == a;
      assert Tally(xs)[i].0 == a;
    }
  }

  /**
   * `count_subject_answers`: the answer histogram, its keys in the order
   * the answers first appear.
   */
  method CountSubjectAnswers(answers: seq<string>) returns (entries: seq<(string, nat)>)
    ensures entries == Tally(answers)
  {
    entries := [];
    var i := 0;
    while i < |answers|
      invariant 0 <= i <= |answers| && entries == Tally(answers[..i])
    {
      var a := answers[i];
      assert answers[..i + 1] == answers[..i] + [a];
      TallySnoc(answers[..i], a);
      match Find(entries, a) {
        case Some(j) =>
          entries := entries[j := (a, entries[j].1 + 1)];
        case None =>
          DistinctMembers(answers[..i]);
          entries := entries + [(a, 1)];
      }
      i := i + 1;
    }
    assert answers[..i] == answers;
  }

  /** The counts of the items, `dict.values()`. */
  function Counts(entries: seq<(string, nat)>): (v: seq<nat>)
    ensures |v| == |entries| && forall k :: 0 <= k < |v| ==> v[k] == entries[k].1
  {
    seq(|entries|, k requires 0 <= k < |entries| => entries[k].1)
  }

  /** `sum(values)`. */
  function Total(v: seq<nat>): nat
  {
    if |v| == 0 then 0 else Total(v[..|v| - 1]) + v[|v| - 1]
  }

  lemma {:induction false} TotalBump(v: seq<nat>, j: nat)
    requires j < |v|
    ensures Total(v[j := v[j] + 1]) == Total(v) + 1
  {
    var w := v[j := v[j] + 1];
    if j < |v| - 1 {
      TotalBump(v[..|v| - 1], j);
      assert w[..|w| - 1] == v[..|v| - 1][j := v[j] + 1];
    } else {
      assert w[..|w| - 1] == v[..|v| - 1];
    }
  }

  /** Counting one more occurrence of the answer at position `j` adds one to the total. */
  lemma TotalAfterBump(t: seq<(string, nat)>, j: nat, e: (string, nat))
    requires j < |t| && e.1 == t[j].1 + 1
    ensures Total(Counts(t[j := e])) == Total(Counts(t)) + 1
  {
    assert Counts(t[j := e]) == Counts(t)[j := Counts(t)[j] + 1];
    TotalBump(Counts(t), j);
  }

  /** A new answer counted once adds one to the total. */
  lemma TotalAfterNew(t: seq<(string, nat)>, e: (string, nat))
    requires e.1 == 1
    ensures Total(Counts(t + [e])) == Total(Counts(t)) + 1
  {
    var v := Counts(t + [e]);
    assert v[..|v| - 1] == Counts(t);
  }

  /** Every answer is counted once: the counts add up to the number of answers. */
  lemma {:induction false} TallyTotal(xs: seq<string>)
    ensures Total(Counts(Tally(xs))) == |xs|
  {
    if |xs| > 0 {
      var ys := xs[..|xs| - 1];
      var a := xs[|xs| - 1];
      assert xs == ys + [a];
      TallyTotal(ys);
      TallySnoc(ys, a);
      var t := Tally(ys);
      if a in ys {
        var j :| 0 <= j < |t| && t[j].0 == a;
        assert Tally(xs) == t[j := (a, t[j].1 + 1)];
        TotalAfterBump(t, j, (a, t[j].1 + 1));
      } else {
        assert Tally(xs) == t + [(a, 1)];
        TotalAfterNew(t, (a, 1));
      }
    }
  }

  /** Every distinct answer occurs at least once. */
  lemma TallyPositive(xs: seq<string>)
    ensures forall k :: 0 <= k < |Tally(xs)| ==> Tally(xs)[k].1 >= 1
  {
    DistinctMembers(xs);
    forall k | 0 <= k < |Tally(xs)| ensures Tally(xs)[k].1 >= 1 {
      var x := Distinct(xs)[k];
      assert x in xs;
      assert x in multiset(xs);
    }
  }

  // ---------------------------------------------------------------------
  // Log-likelihoods
  // ---------------------------------------------------------------------

  /** The term `coeff * ln(arg)`. */
  datatype LogTerm = LogTerm(coeff: real, arg: real)

  /** `math.log` accepts only positive arguments. */
  predicate Defined(terms: seq<LogTerm>)
  {
    forall k :: 0 <= k < |terms| ==> terms[k].arg > 0.0
  }

  /** The default penalty `p` of `compute_likelihood`. */
  const DefaultPenalty: real := 0.5

  /**
   * `compute_likelihood(correct, incorrect, penalty)`: with error rate
   * `e = incorrect / (correct + incorrect)`, the terms
   * `correct * ln(1 - e)` (only when correct > 0) and
   * `incorrect * ln(e * penalty)` (only when incorrect > 0).
   */
  function Likelihood(correct: int, incorrect: int, penalty: real): (r: Result<seq<LogTerm>, Error>)
    ensures correct + incorrect == 0 <==> r == Err(ZeroDivisionError)
    ensures r.Ok? ==> Defined(r.value) && |r.value| == (if correct > 0 then 1 else 0) + (if incorrect > 0 then 1 else 0)
  {
    if correct + incorrect == 0 then Err(ZeroDivisionError)
    else
      var e := incorrect as real / (correct + incorrect) as real;
      var first := if correct > 0 then [LogTerm(correct as real, 1.0 - e)] else [];
      var second := if incorrect > 0 then [LogTerm(incorrect as real, e * penalty)] else [];
      if Defined(first + second) then Ok(first + second) else Err(ValueError)
  }

  /**
   * For counts as the caller passes them and a penalty in (0, 1], every
   * logarithm is taken of a value in (0, 1], so every term is at most 0;
   * with no incorrect answer the only term is `correct * ln(1)`, which is 0.
   */
  lemma LikelihoodArguments(correct: nat, incorrect: nat, penalty: real)
    requires correct + incorrect > 0 && 0.0 < penalty <= 1.0
    ensures Likelihood(correct, incorrect, penalty).Ok?
    ensures forall t :: t in Likelihood(correct, incorrect, penalty).value ==> 0.0 < t.arg <= 1.0 && t.coeff > 0.0
    ensures incorrect == 0 ==> Likelihood(correct, incorrect, penalty) == Ok([LogTerm(correct as real, 1.0)])
  {
    var n := (correct + incorrect) as real;
    var e := incorrect as real / n;
    Fraction(incorrect as real, n);
    Fraction(correct as real, n);
    Complement(correct as real, incorrect as real);
    if incorrect > 0 {
      Scaled(penalty, e);
    } else {
      assert e == 0.0 && 1.0 - e == 1.0;
      var first := [LogTerm(correct as real, 1.0 - e)];
      assert first == [LogTerm(correct as real, 1.0)] == first + [];
      assert Defined(first);
      assert Likelihood(correct, incorrect, penalty) == Ok(first + []);
    }
  }

  /**
   * `compute_error_likelihood_random`: the term `a * ln(a / n)` for every
   * count `a`, where `n` is the sum of the counts.
   */
  method ErrorLikelihoodRandom(entries: seq<(string, nat)>) returns (r: Result<seq<LogTerm>, Error>)
    ensures |entries| > 0 && Total(Counts(entries)) == 0 ==> r == Err(ZeroDivisionError)
    ensures Total(Counts(entries)) > 0 && (exists k :: 0 <= k < |entries| && entries[k].1 == 0) ==> r == Err(ValueError)
    ensures (forall k :: 0 <= k < |entries| ==> entries[k].1 > 0) ==>
      r.Ok? && |r.value| == |entries| &&
      forall k :: 0 <= k < |entries| ==>
        r.value[k] == LogTerm(entries[k].1 as real, entries[k].1 as real / Total(Counts(entries)) as real)
    ensures r.Ok? ==> forall t :: t in r.value ==> 0.0 < t.arg <= 1.0
  {
    var values := Counts(entries);
    var n := Total(values);
    var terms := [];
    var i := 0;
    while i < |values|
      invariant 0 <= i <= |values| && |terms| == i
      invariant i > 0 ==> n > 0
      invariant forall k :: 0 <= k < i ==> values[k] > 0
      invariant forall k :: 0 <= k < i ==> terms[k] == LogTerm(values[k] as real, values[k] as real / n as real)
      invariant forall k :: 0 <= k < i ==> 0.0 < terms[k].arg <= 1.0
    {
      var a := values[i];
      if n == 0 {
        TotalZero(values, i);
        return Err(ZeroDivisionError);
      }
      if a == 0 {
        return Err(ValueError);
      }
      TotalBounds(values, i);
      Fraction(a as real, n as real);
      terms := terms + [LogTerm(a as real, a as real / n as real)];
      i := i + 1;
    }
    return Ok(terms);
  }

  lemma {:induction false} TotalBounds(v: seq<nat>, i: nat)
    requires i < |v|
    ensures v[i] <= Total(v)
  {
    if i < |v| - 1 {
      TotalBounds(v[..|v| - 1], i);
    }
  }

  lemma TotalZero(v: seq<nat>, i: nat)
    requires i < |v| && Total(v) == 0
    ensures v[i] == 0
  {
    TotalBounds(v, i);
  }

  /**
   * For a participant's histogram of at least one answer, the random
   * model's log-likelihood is defined: every logarithm is of a share in
   * (0, 1].
   */
  method TallyLikelihood(answers: seq<string>) returns (r: Result<seq<LogTerm>, Error>)
    requires |answers| > 0
    ensures r.Ok? && |r.value| == |Distinct(answers)|
    ensures forall t :: t in r.value ==> 0.0 < t.arg <= 1.0
  {
    var entries := CountSubjectAnswers(answers);
    TallyTotal(answers);
    TallyPositive(answers);
    r := ErrorLikelihoodRandom(entries);
  }

  // ---------------------------------------------------------------------
  // The random model's agreement rate
  // ---------------------------------------------------------------------

  /** `sum(a * (a / n) for a in values)`. */
  function ScaledSum(v: seq<nat>, n: nat): real
    requires n > 0
  {
    if |v| == 0 then 0.0 else ScaledSum(v[..|v| - 1], n) + v[|v| - 1] as real * (v[|v| - 1] as real / n as real)
  }

  /**
   * `compute_correct_rate_random`: the chance that an answer drawn like
   * the participant's matches one of the participant's answers.
   */
  function CorrectRateRandom(entries: seq<(string, nat)>): (r: Result<real, Error>)
    ensures Total(Counts(entries)) == 0 <==> r == Err(ZeroDivisionError)
  {
    var n := Total(Counts(entries));
    if n == 0 then Err(ZeroDivisionError) else Ok(ScaledSum(Counts(entries), n) / n as real)
  }

  function SumSquares(v: seq<nat>): nat
  {
    if |v| == 0 then 0 else SumSquares(v[..|v| - 1]) + v[|v| - 1] * v[|v| - 1]
  }

  /** At most one count is not zero. */
  predicate Concentrated(v: seq<nat>)
  {
    forall i, j :: 0 <= i < j < |v| ==> v[i] == 0 || v[j] == 0
  }

  lemma {:induction false} ScaledSumSquares(v: seq<nat>, n: nat)
    requires n > 0
    ensures ScaledSum(v, n) * n as real == SumSquares(v) as real
  {
    if |v| > 0 {
      ScaledSumSquares(v[..|v| - 1], n);
      var a := v[|v| - 1] as real;
      Divide(a, n as real);
      assert (a * (a / n as real)) * n as real == a * ((a / n as real) * n as real);
    }
  }

  lemma {:induction false} TotalZeroAll(v: seq<nat>)
    ensures Total(v) == 0 <==> forall i :: 0 <= i < |v| ==> v[i] == 0
  {
    if |v| > 0 {
      TotalZeroAll(v[..|v| - 1]);
    }
  }

  /** Adding one count `a` to a list with total `t` and sum of squares `q`. */
  lemma SquareStep(t: nat, q: nat, a: nat)
    requires q <= t * t && (t > 0 ==> q > 0)
    ensures q + a * a <= (t + a) * (t + a)
    ensures q + a * a == (t + a) * (t + a) <==> q == t * t && (t == 0 || a == 0)
    ensures t + a > 0 ==> q + a * a > 0
  {
    assert (t + a) * (t + a) == t * t + 2 * t * a + a * a;
    assert t * a >= 0;
    assert t * a == 0 <==> t == 0 || a == 0;
    assert a > 0 ==> a * a > 0;
  }

  /** The sum of squares is at most the square of the sum, with equality exactly when one count holds everything. */
  lemma {:induction false} SquaresBound(v: seq<nat>)
    ensures SumSquares(v) <= Total(v) * Total(v)
    ensures SumSquares(v) == Total(v) * Total(v) <==> Concentrated(v)
    ensures Total(v) > 0 ==> SumSquares(v) > 0
  {
    if |v| > 0 {
      var init := v[..|v| - 1];
      var a := v[|v| - 1];
      SquaresBound(init);
      TotalZeroAll(init);
      SquareStep(Total(init), SumSquares(init), a);
      if Concentrated(v) {
        assert Concentrated(init) by {
          forall i, j | 0 <= i < j < |init| ensures init[i] == 0 || init[j] == 0 {
            assert init[i] == v[i] && init[j] == v[j];
          }
        }
        if a > 0 {
          forall i | 0 <= i < |init| ensures init[i] == 0 {
            assert init[i] == v[i] && v[|v| - 1] == a;
          }
        }
      }
    }
  }

  /**
   * The rate is a probability above 0, and it is 1 exactly when a single
   * answer carries all the counts.
   */
  lemma RateBounds(entries: seq<(string, nat)>)
    requires Total(Counts(entries)) > 0
    ensures CorrectRateRandom(entries).Ok?
    ensures 0.0 < CorrectRateRandom(entries).value <= 1.0
    ensures CorrectRateRandom(entries).value == 1.0 <==> Concentrated(Counts(entries))
  {
    var v := Counts(entries);
    var n := Total(v);
    ScaledSumSquares(v, n);
    SquaresBound(v);
    RateOfSquares(ScaledSum(v, n), SumSquares(v), n);
    assert CorrectRateRandom(entries) == Ok(ScaledSum(v, n) / n as real);
  }

  /** A scaled sum `s` with `s * n == sq` and `0 < sq <= n * n`, divided by `n`, is a probability. */
  lemma RateOfSquares(s: real, sq: nat, n: nat)
    requires n > 0 && s * n as real == sq as real && 0 < sq <= n * n
    ensures 0.0 < s / n as real <= 1.0
    ensures s / n as real == 1.0 <==> sq == n * n
  {
    var nn := n as real;
    Chain(s, sq as real, nn);
    assert (n * n) as real == nn * nn;
    RatioBounds(s / nn, sq as real, nn * nn);
  }

  /**
   * For a participant's histogram, the rate is 1 exactly when the
   * participant always gave the same answer.
   */
  lemma TallyRate(answers: seq<string>)
    requires |answers| > 0
    ensures CorrectRateRandom(Tally(answers)).Ok?
    ensures CorrectRateRandom(Tally(answers)).value == 1.0 <==> |Distinct(answers)| == 1
  {
    TallyTotal(answers);
    TallyPositive(answers);
    RateBounds(Tally(answers));
    var v := Counts(Tally(answers));
    if |v| >= 2 {
      assert v[0] >= 1 && v[1] >= 1;
    }
    DistinctMembers(answers);
    assert answers[0] in Distinct(answers);
  }

  // ---------------------------------------------------------------------
  // Real arithmetic
  // ---------------------------------------------------------------------

  lemma Fraction(c: real, n: real)
    requires 0.0 <= c <= n && n > 0.0
    ensures 0.0 <= c / n <= 1.0
    ensures c / n == 1.0 <==> c == n
    ensures c / n == 0.0 <==> c == 0.0
    ensures c > 0.0 ==> c / n > 0.0
  {
    var q := c / n;
    assert q * n == c;
  }

  lemma Complement(c: real, i: real)
    requires c + i != 0.0
    ensures 1.0 - i / (c + i) == c / (c + i)
  {
    var n := c + i;
    var x, y := i / n, c / n;
    assert x * n == i && y * n == c;
    assert (x + y) * n == x * n + y * n == i + c;
    if n > 0.0 {
      Scaled(x + y, n);
    } else {
      Scaled(x + y, -n);
      assert (x + y) * -n == -n;
    }
  }

  lemma Divide(q: real, n: real)
    requires n > 0.0
    ensures (q / n) * n == q
  {
  }

  lemma Scaled(r: real, big: real)
    requires big > 0.0
    ensures r * big <= big <==> r <= 1.0
    ensures r * big == big <==> r == 1.0
    ensures r * big > 0.0 <==> r > 0.0
  {
    if r > 1.0 {
      assert r * big - big == (r - 1.0) * big;
    }
    if r < 1.0 {
      assert big - r * big == (1.0 - r) * big;
    }
  }

  lemma RatioBounds(r: real, q: real, big: real)
    requires big > 0.0 && r * big == q && 0.0 < q <= big
    ensures 0.0 < r <= 1.0 && (r == 1.0 <==> q == big)
  {
    Scaled(r, big);
  }

  lemma Chain(s: real, q: real, n: real)
    requires n > 0.0 && s * n == q
    ensures (s / n) * (n * n) == q
  {
    Divide(s, n);
    assert (s / n) * (n * n) == ((s / n) * n) * n;
  }
}
