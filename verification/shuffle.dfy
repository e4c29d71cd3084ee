/**
 * How the experiment orders its trials and pays its participants: two
 * lists are shuffled together until no pair is left in its place, a trial
 * list is two such shuffles one after the other, and the reward adds a
 * bonus when one puzzle, picked at random, was answered correctly.
 *
 * Randomness is a parameter: `draws` lists the permutations
 * `random.shuffle` applies, one per call, and `choice` the position
 * `random.choice` picks.  When the draws run out before the loop stops the
 * result is `None`.
 */
module Shuffling {
  import opened Wrappers

  function Min(a: nat, b: nat): nat
  {
    if a <= b then a else b
  }

  /** Python's `zip(a, b)`, as long as the shorter list. */
  function Zip<T, U>(a: seq<T>, b: seq<U>): (z: seq<(T, U)>)
    ensures |z| == Min(|a|, |b|)
    ensures forall k :: 0 <= k < |z| ==> z[k] == (a[k], b[k])
  {
    seq(Min(|a|, |b|), k requires 0 <= k < Min(|a|, |b|) => (a[k], b[k]))
  }

  /** The two lists `zip(*pairs)` unpacks into. */
  function Firsts<T, U>(pairs: seq<(T, U)>): (a: seq<T>)
    ensures |a| == |pairs| && forall k :: 0 <= k < |pairs| ==> a[k] == pairs[k].0
  {
    seq(|pairs|, k requires 0 <= k < |pairs| => pairs[k].0)
  }

  function Seconds<T, U>(pairs: seq<(T, U)>): (b: seq<U>)
    ensures |b| == |pairs| && forall k :: 0 <= k < |pairs| ==> b[k] == pairs[k].1
  {
    seq(|pairs|, k requires 0 <= k < |pairs| => pairs[k].1)
  }

  /** `p` lists each of the positions `0..n` once. */
  predicate IsPerm(p: seq<nat>, n: nat)
  {
    && |p| == n
    && (forall k :: 0 <= k < n ==> p[k] < n)
    && (forall a, b :: 0 <= a < b < n ==> p[a] != p[b])
  }

  /** The list with position `k` taken from position `p[k]`. */
  function Apply<X>(xs: seq<X>, p: seq<nat>): (ys: seq<X>)
    requires forall k :: 0 <= k < |p| ==> p[k] < |xs|
    ensures |ys| == |p| && forall k :: 0 <= k < |p| ==> ys[k] == xs[p[k]]
  {
    seq(|p|, k requires 0 <= k < |p| => xs[p[k]])
  }

  /** `xs` is `ys` reordered. */
  ghost predicate Shuffles<X>(xs: seq<X>, ys: seq<X>)
  {
    exists p :: IsPerm(p, |ys|) && xs == Apply(ys, p)
  }

  /** No element is left where it was. */
  predicate Deranged<X(==)>(xs: seq<X>, ys: seq<X>)
  {
    |xs| == |ys| && forall k :: 0 <= k < |xs| ==> xs[k] != ys[k]
  }

  function Identity(n: nat): (p: seq<nat>)
    ensures IsPerm(p, n) && forall k :: 0 <= k < n ==> p[k] == k
  {
    seq(n, k requires 0 <= k < n => k)
  }

  /** Reordering by `p` after reordering by `q` is reordering by their composition. */
  lemma Compose<X>(xs: seq<X>, q: seq<nat>, p: seq<nat>) returns (c: seq<nat>)
    requires IsPerm(q, |xs|) && IsPerm(p, |xs|)
    ensures IsPerm(c, |xs|) && Apply(Apply(xs, q), p) == Apply(xs, c)
  {
    c := seq(|xs|, k requires 0 <= k < |xs| => q[p[k]]);
    forall a, b | 0 <= a < b < |xs|
      ensures c[a] != c[b]
    {
      assert p[a] != p[b];
      if p[a] < p[b] {
        assert q[p[a]] != q[p[b]];
      } else {
        assert q[p[b]] != q[p[a]];
      }
    }
  }

  /** The only reordering of one element leaves it in place. */
  lemma SinglePerm(p: seq<nat>)
    requires IsPerm(p, 1)
    ensures p == [0]
  {
  }

  /**
   * `shuffle_two_lists(list1, list2)`: the lists are paired up and the
   * pairs reordered until no pair is where it was.  On return the pairs
   * are a reordering of the input's with none in its old place, and each
   * element still has its partner.  A single pair can never be moved, so
   * the loop does not stop for it, whatever the draws.  The result of
   * `zip(*pairs)` is represented by its two unpacked lists.
   */
  method ShuffleTwoLists<T(==), U(==)>(list1: seq<T>, list2: seq<U>, draws: seq<seq<nat>>)
    returns (r: Option<(seq<T>, seq<U>)>)
    requires forall d :: 0 <= d < |draws| ==> IsPerm(draws[d], Min(|list1|, |list2|))
    ensures r.Some? ==>
      && |r.value.0| == |r.value.1| == Min(|list1|, |list2|)
      && Deranged(Zip(r.value.0, r.value.1), Zip(list1, list2))
      && Shuffles(Zip(r.value.0, r.value.1), Zip(list1, list2))
    // empty input: no pairs to unpack; represented as two empty lists,
    // which the caller turns into ValueError
    ensures Min(|list1|, |list2|) == 0 ==> r == Some(([], []))
    ensures Min(|list1|, |list2|) == 1 ==> r.None?
  {
    var list3 := Zip(list1, list2);
    var shuffled := list3;
    ghost var sigma := Identity(|list3|);
    var d := 0;
    while exists i :: 0 <= i < |list3| && shuffled[i] == list3[i]
      invariant 0 <= d <= |draws| && |shuffled| == |list3|
      invariant IsPerm(sigma, |list3|) && shuffled == Apply(list3, sigma)
      invariant |list3| == 1 ==> shuffled == list3 && shuffled[0] == list3[0]
      decreases |draws| - d
    {
      if d == |draws| {
        return None;
      }
      if |list3| == 1 {
        SinglePerm(draws[d]);
      }
      sigma := Compose(list3, sigma, draws[d]);
      shuffled := Apply(shuffled, draws[d]);
      d := d + 1;
    }
    if |list3| == 1 {
      assert false;
    }
    var a, b := Firsts(shuffled), Seconds(shuffled);
    assert Zip(a, b) == shuffled;
    return Some((a, b));
  }

  /** Unpacking a reordering of paired lists reorders each list the same way. */
  lemma UnzipShuffles<T, U>(a: seq<T>, b: seq<U>, list1: seq<T>, list2: seq<U>)
    requires |a| == |b| && Shuffles(Zip(a, b), Zip(list1, list2))
    ensures Shuffles(a, list1[..|a|]) && Shuffles(b, list2[..|b|])
  {
    var p :| IsPerm(p, |Zip(list1, list2)|) && Zip(a, b) == Apply(Zip(list1, list2), p);
    assert a == Apply(list1[..|a|], p);
    assert b == Apply(list2[..|b|], p);
  }

  /** A reordering of a reordering is a reordering. */
  lemma ShufflesTrans<X>(xs: seq<X>, ys: seq<X>, zs: seq<X>)
    requires Shuffles(xs, ys) && Shuffles(ys, zs)
    ensures Shuffles(xs, zs)
  {
    var p :| IsPerm(p, |ys|) && xs == Apply(ys, p);
    var q :| IsPerm(q, |zs|) && ys == Apply(zs, q);
    var c := Compose(zs, q, p);
  }

  /**
   * `get_shuffled_list(list_scenario, list_tom)`: the scenarios and levels
   * shuffled together, then the shuffled scenarios shuffled again with the
   * levels in their original order, the second shuffle after the first.
   * Each half of either result reorders the corresponding input; no input
   * pair is unpacked from an empty shuffle, which is a ValueError.
   */
  method GetShuffledList<T(==), U(==)>(scenarios: seq<T>, levels: seq<U>, draws1: seq<seq<nat>>, draws2: seq<seq<nat>>)
    returns (r: Option<Result<(seq<T>, seq<U>), Error>>)
    requires forall d :: 0 <= d < |draws1| ==> IsPerm(draws1[d], Min(|scenarios|, |levels|))
    requires forall d :: 0 <= d < |draws2| ==> IsPerm(draws2[d], Min(|scenarios|, |levels|))
    ensures Min(|scenarios|, |levels|) == 0 ==> r == Some(Err(ValueError))
    ensures Min(|scenarios|, |levels|) == 1 ==> r.None?
    ensures r.Some? && r.value.Ok? ==>
      var n := Min(|scenarios|, |levels|);
      var (s, l) := r.value.value;
      && |s| == |l| == 2 * n
      && Shuffles(s[..n], scenarios[..n]) && Shuffles(s[n..], scenarios[..n])
      && Shuffles(l[..n], levels[..n]) && Shuffles(l[n..], levels[..n])
      && Deranged(Zip(s[..n], l[..n]), Zip(scenarios, levels))
      && Deranged(Zip(s[n..], l[n..]), Zip(s[..n], levels))
  {
    var n := Min(|scenarios|, |levels|);
    var first := ShuffleTwoLists(scenarios, levels, draws1);
    if first.None? {
      return None;
    }
    var (fs, fl) := first.value;
    if |fs| == 0 {
      return Some(Err(ValueError));
    }
    assert Min(|fs|, |levels|) == n;
    var second := ShuffleTwoLists(fs, levels, draws2);
    if second.None? {
      return None;
    }
    var (ss, sl) := second.value;
    UnzipShuffles(fs, fl, scenarios, levels);
    UnzipShuffles(ss, sl, fs, levels);
    assert fs[..n] == fs;
    ShufflesTrans(ss, fs, scenarios[..n]);
    var s, l := fs + ss, fl + sl;
    assert s[..n] == fs && s[n..] == ss && l[..n] == fl && l[n..] == sl;
    return Some(Ok((s, l)));
  }

  // ---------------------------------------------------------------------
  // The reward
  // ---------------------------------------------------------------------

  /** One answered puzzle: its index and the given and correct answers. */
  datatype AnswerRecord = AnswerRecord(index: int, given: string, correct: string)

  const BaseReward: real := 7.5
  const BonusReward: real := 2.5

  /**
   * `compute_reward(answers_list)`: the puzzle at `choice` is picked; the
   * reward is the base of 7.5 plus 2.5 if that puzzle was answered
   * correctly.  Picking from no answers is an IndexError.
   */
  function ComputeReward(answers: seq<AnswerRecord>, choice: nat): (r: Result<(int, real), Error>)
    requires |answers| > 0 ==> choice < |answers|
    ensures |answers| == 0 <==> r == Err(IndexError)
    ensures r.Ok? ==> r.value.0 == answers[choice].index
    ensures r.Ok? ==> (r.value.1 == 7.5 || r.value.1 == 10.0)
    ensures r.Ok? ==> (r.value.1 == 10.0 <==> answers[choice].given == answers[choice].correct)
  {
    if |answers| == 0 then Err(IndexError)
    else
      var picked := answers[choice];
      var reward := if picked.given == picked.correct then BaseReward + BonusReward else BaseReward;
      Ok((picked.index, reward))
  }
}
