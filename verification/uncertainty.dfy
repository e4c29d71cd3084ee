/**
 * Players' uncertainty: for one player, the list of pairs of world indices
 * (x, y) such that the player cannot tell world x from world y, built from
 * the parts of each world the player can see; the pruning of such a list to
 * the surviving worlds; and the worlds reachable from one world.
 */
module Uncertainty {
  import opened Wrappers
  import opened Worlds

  type Edge = (int, int)

  /**
   * What a player sees of component `p` of a world: the one-element slice
   * `world[p:p+1]` of the (month, day) tuple, which is empty past the second
   * component.  The visible portion of a world is the sequence of the parts
   * the player sees; Python concatenates their `str()`s, an encoding that
   * keeps distinct sequences of parts distinct.
   */
  datatype Part = MonthPart(month: Month) | DayPart(day: int) | NoPart

  function Component(w: World, p: nat): Part
  {
    if p == 0 then MonthPart(w.month) else if p == 1 then DayPart(w.day) else NoPart
  }

  /** Parts of `w` at the positions `p..` that `vis` marks visible. */
  function VisibleFrom(w: World, vis: seq<bool>, p: nat): seq<Part>
    decreases |vis| - p
  {
    if p >= |vis| then [] else (if vis[p] then [Component(w, p)] else []) + VisibleFrom(w, vis, p + 1)
  }

  /** `w1` and `w2` agree on every component `vis` marks visible from position `p` on. */
  predicate SameView(w1: World, w2: World, vis: seq<bool>, p: nat)
    decreases |vis| - p
  {
    p >= |vis| || ((vis[p] ==> Component(w1, p) == Component(w2, p)) && SameView(w1, w2, vis, p + 1))
  }

  /** Comparing the visible portions is comparing the visible components one by one. */
  lemma {:induction false} VisibleEqualIffSameView(w1: World, w2: World, vis: seq<bool>, p: nat)
    ensures VisibleFrom(w1, vis, p) == VisibleFrom(w2, vis, p) <==> SameView(w1, w2, vis, p)
    decreases |vis| - p
  {
    if p < |vis| {
      VisibleEqualIffSameView(w1, w2, vis, p + 1);
      var h1: seq<Part> := if vis[p] then [Component(w1, p)] else [];
      var h2: seq<Part> := if vis[p] then [Component(w2, p)] else [];
      var t1 := VisibleFrom(w1, vis, p + 1);
      var t2 := VisibleFrom(w2, vis, p + 1);
      assert VisibleFrom(w1, vis, p) == h1 + t1;
      assert VisibleFrom(w2, vis, p) == h2 + t2;
      if h1 + t1 == h2 + t2 {
        assert h1 == (h1 + t1)[..|h1|] == (h2 + t2)[..|h2|] == h2;
        assert t1 == (h1 + t1)[|h1|..] == (h2 + t2)[|h2|..] == t2;
      }
    }
  }

  lemma {:induction false} SameViewSymmetric(w1: World, w2: World, vis: seq<bool>, p: nat)
    requires SameView(w1, w2, vis, p)
    ensures SameView(w2, w1, vis, p)
    decreases |vis| - p
  {
    if p < |vis| {
      SameViewSymmetric(w1, w2, vis, p + 1);
    }
  }

  lemma {:induction false} SameViewReflexive(w: World, vis: seq<bool>, p: nat)
    ensures SameView(w, w, vis, p)
    decreases |vis| - p
  {
    if p < |vis| {
      SameViewReflexive(w, vis, p + 1);
    }
  }

  lemma {:induction false} SameViewTransitive(w1: World, w2: World, w3: World, vis: seq<bool>, p: nat)
    requires SameView(w1, w2, vis, p) && SameView(w2, w3, vis, p)
    ensures SameView(w1, w3, vis, p)
    decreases |vis| - p
  {
    if p < |vis| {
      SameViewTransitive(w1, w2, w3, vis, p + 1);
    }
  }

  /** A player who sees the month and not the day tells worlds apart by month alone. */
  lemma SeesMonthOnly(w1: World, w2: World)
    ensures SameView(w1, w2, [true, false], 0) <==> w1.month == w2.month
  {
  }

  /** A player who sees the day and not the month tells worlds apart by day alone. */
  lemma SeesDayOnly(w1: World, w2: World)
    ensures SameView(w1, w2, [false, true], 0) <==> w1.day == w2.day
  {
  }

  /**
   * The one-directional test that keeps each unordered pair once: the first
   * world has a larger month value or a smaller day.
   */
  predicate Before(w1: World, w2: World)
  {
    Value(w1.month) > Value(w2.month) || w1.day < w2.day
  }

  /** Two different worlds are ordered one way or the other. */
  lemma BeforeTotal(w1: World, w2: World)
    requires w1 != w2
    ensures Before(w1, w2) || Before(w2, w1)
  {
    if !Before(w1, w2) && !Before(w2, w1) {
      ValueReversesCalendar(w1.month, w2.month);
    }
  }

  lemma BeforeIrreflexive(w: World)
    ensures !Before(w, w)
  {
  }

  /** The pair (i, j) recorded by the comparison pass. */
  predicate Linked(ws: seq<World>, vis: seq<bool>, i: nat, j: nat)
    requires i < |ws| && j < |ws|
  {
    Before(ws[i], ws[j]) && SameView(ws[i], ws[j], vis, 0)
  }

  /** Pairs (i, j), j = `j0`.. in order, recorded for world `i`. */
  function RowFrom(ws: seq<World>, vis: seq<bool>, i: nat, j0: nat): seq<Edge>
    requires i < |ws|
    decreases |ws| - j0
  {
    if j0 >= |ws| then []
    else (if Linked(ws, vis, i, j0) then [(i as int, j0 as int)] else []) + RowFrom(ws, vis, i, j0 + 1)
  }

  /** The comparison pass for worlds `i0`.. in order. */
  function PassFrom(ws: seq<World>, vis: seq<bool>, i0: nat): seq<Edge>
    decreases |ws| - i0
  {
    if i0 >= |ws| then [] else RowFrom(ws, vis, i0, 0) + PassFrom(ws, vis, i0 + 1)
  }

  /** `[(y, x) for (x, y) in es]` */
  function Mirror(es: seq<Edge>): (m: seq<Edge>)
    ensures |m| == |es|
    ensures forall k :: 0 <= k < |es| ==> m[k] == (es[k].1, es[k].0)
  {
    seq(|es|, k requires 0 <= k < |es| => (es[k].1, es[k].0))
  }

  /** `[(x, x) for x in range(n)]` */
  function Reflexive(n: nat): (r: seq<Edge>)
    ensures |r| == n
    ensures forall k :: 0 <= k < n ==> r[k] == (k, k)
  {
    seq(n, k => (k, k))
  }

  /**
   * One player's uncertainty over the worlds `ws`: the comparison pass, its
   * mirror image and the reflexive pairs, in that order.
   */
  function Edges(ws: seq<World>, vis: seq<bool>): seq<Edge>
  {
    var pass := PassFrom(ws, vis, 0);
    pass + Mirror(pass) + Reflexive(|ws|)
  }

  /** Every player's uncertainty, one relation per visibility row. */
  function Relations(ws: seq<World>, viss: seq<seq<bool>>): (rels: seq<seq<Edge>>)
    ensures |rels| == |viss|
    ensures forall p :: 0 <= p < |viss| ==> rels[p] == Edges(ws, viss[p])
  {
    seq(|viss|, p requires 0 <= p < |viss| => Edges(ws, viss[p]))
  }

  /** `list(range(n))` */
  function Range(n: nat): (r: seq<int>)
    ensures |r| == n && forall k :: 0 <= k < n ==> r[k] == k
  {
    seq(n, k => k)
  }

  lemma {:induction false} RowMember(ws: seq<World>, vis: seq<bool>, i: nat, j0: nat, e: Edge)
    requires i < |ws|
    ensures e in RowFrom(ws, vis, i, j0) <==>
      e.0 == i && j0 <= e.1 < |ws| && Linked(ws, vis, i, e.1)
    decreases |ws| - j0
  {
    if j0 < |ws| {
      RowMember(ws, vis, i, j0 + 1, e);
    }
  }

  lemma {:induction false} PassMember(ws: seq<World>, vis: seq<bool>, i0: nat, e: Edge)
    ensures e in PassFrom(ws, vis, i0) <==>
      i0 <= e.0 < |ws| && 0 <= e.1 < |ws| && Linked(ws, vis, e.0, e.1)
    decreases |ws| - i0
  {
    if i0 < |ws| {
      RowMember(ws, vis, i0, 0, e);
      PassMember(ws, vis, i0 + 1, e);
    }
  }

  /**
   * Which pairs a player's uncertainty holds: pairs of indices in range
   * that are equal, or whose worlds look the same to the player and are
   * ordered by the one-directional test one way or the other.
   */
  lemma EdgesMember(ws: seq<World>, vis: seq<bool>, e: Edge)
    ensures e in Edges(ws, vis) <==>
      0 <= e.0 < |ws| && 0 <= e.1 < |ws| &&
      (e.0 == e.1 || Linked(ws, vis, e.0, e.1) || Linked(ws, vis, e.1, e.0))
  {
    var pass := PassFrom(ws, vis, 0);
    PassMember(ws, vis, 0, e);
    PassMember(ws, vis, 0, (e.1, e.0));
    if e in Mirror(pass) {
      var k :| 0 <= k < |pass| && Mirror(pass)[k] == e;
      assert pass[k] == (e.1, e.0);
    }
    if 0 <= e.0 < |ws| && 0 <= e.1 < |ws| && Linked(ws, vis, e.1, e.0) {
      var k :| 0 <= k < |pass| && pass[k] == (e.1, e.0);
      assert Mirror(pass)[k] == e;
    }
    if 0 <= e.0 < |ws| && e.0 == e.1 {
      assert Reflexive(|ws|)[e.0] == e;
    }
  }

  /** No world occurs twice in the list of worlds. */
  predicate Distinct(ws: seq<World>)
  {
    forall a, b :: 0 <= a < b < |ws| ==> ws[a] != ws[b]
  }

  /**
   * Over distinct worlds, a player's uncertainty relates exactly the pairs
   * of worlds that agree on every part the player sees.
   */
  lemma EdgesMemberDistinct(ws: seq<World>, vis: seq<bool>, x: int, y: int)
    requires Distinct(ws)
    ensures (x, y) in Edges(ws, vis) <==>
      0 <= x < |ws| && 0 <= y < |ws| && SameView(ws[x], ws[y], vis, 0)
  {
    EdgesMember(ws, vis, (x, y));
    if 0 <= x < |ws| && 0 <= y < |ws| {
      if x == y {
        SameViewReflexive(ws[x], vis, 0);
      } else {
        assert ws[x] != ws[y] by {
          if x < y { assert ws[x] != ws[y]; } else { assert ws[y] != ws[x]; }
        }
        BeforeTotal(ws[x], ws[y]);
        if SameView(ws[y], ws[x], vis, 0) {
          SameViewSymmetric(ws[y], ws[x], vis, 0);
        }
        if SameView(ws[x], ws[y], vis, 0) {
          SameViewSymmetric(ws[x], ws[y], vis, 0);
        }
      }
    }
  }

  /** Every pair names two worlds of the list. */
  lemma EdgesInRange(ws: seq<World>, vis: seq<bool>)
    ensures forall e :: e in Edges(ws, vis) ==> 0 <= e.0 < |ws| && 0 <= e.1 < |ws|
  {
    forall e | e in Edges(ws, vis)
      ensures 0 <= e.0 < |ws| && 0 <= e.1 < |ws|
    {
      EdgesMember(ws, vis, e);
    }
  }

  /** Every world is related to itself. */
  lemma EdgesReflexive(ws: seq<World>, vis: seq<bool>, x: int)
    requires 0 <= x < |ws|
    ensures (x, x) in Edges(ws, vis)
  {
    EdgesMember(ws, vis, (x, x));
  }

  /** The relation is symmetric. */
  lemma EdgesSymmetric(ws: seq<World>, vis: seq<bool>, x: int, y: int)
    requires (x, y) in Edges(ws, vis)
    ensures (y, x) in Edges(ws, vis)
  {
    EdgesMember(ws, vis, (x, y));
    EdgesMember(ws, vis, (y, x));
  }

  /** Lexicographic order on pairs. */
  predicate LexBefore(a: Edge, b: Edge)
  {
    a.0 < b.0 || (a.0 == b.0 && a.1 < b.1)
  }

  predicate StrictlySorted(es: seq<Edge>)
  {
    forall a, b :: 0 <= a < b < |es| ==> LexBefore(es[a], es[b])
  }

  lemma SortedAppend(s: seq<Edge>, t: seq<Edge>)
    requires StrictlySorted(s) && StrictlySorted(t)
    requires forall a, b :: 0 <= a < |s| && 0 <= b < |t| ==> LexBefore(s[a], t[b])
    ensures StrictlySorted(s + t)
  {
  }

  lemma {:induction false} RowSorted(ws: seq<World>, vis: seq<bool>, i: nat, j0: nat)
    requires i < |ws|
    ensures StrictlySorted(RowFrom(ws, vis, i, j0))
    decreases |ws| - j0
  {
    if j0 < |ws| {
      RowSorted(ws, vis, i, j0 + 1);
      var rest := RowFrom(ws, vis, i, j0 + 1);
      forall b | 0 <= b < |rest|
        ensures rest[b].0 == i && rest[b].1 > j0
      {
        RowMember(ws, vis, i, j0 + 1, rest[b]);
      }
      var head: seq<Edge> := if Linked(ws, vis, i, j0) then [(i as int, j0 as int)] else [];
      SortedAppend(head, rest);
    }
  }

  lemma {:induction false} PassSorted(ws: seq<World>, vis: seq<bool>, i0: nat)
    ensures StrictlySorted(PassFrom(ws, vis, i0))
    decreases |ws| - i0
  {
    if i0 < |ws| {
      PassSorted(ws, vis, i0 + 1);
      RowSorted(ws, vis, i0, 0);
      var row := RowFrom(ws, vis, i0, 0);
      var rest := PassFrom(ws, vis, i0 + 1);
      forall a, b | 0 <= a < |row| && 0 <= b < |rest|
        ensures LexBefore(row[a], rest[b])
      {
        RowMember(ws, vis, i0, 0, row[a]);
        PassMember(ws, vis, i0 + 1, rest[b]);
      }
      SortedAppend(row, rest);
    }
  }

  /**
   * The comparison pass never records a pair twice, so its check against
   * duplicates never fires.
   */
  lemma PassNoDuplicates(ws: seq<World>, vis: seq<bool>)
    ensures forall a, b :: 0 <= a < b < |PassFrom(ws, vis, 0)| ==>
      PassFrom(ws, vis, 0)[a] != PassFrom(ws, vis, 0)[b]
  {
    PassSorted(ws, vis, 0);
  }

  /** The visible portion of `w` as the nested loop over players assembles it. */
  method VisiblePart(w: World, vis: seq<bool>) returns (v: seq<Part>)
    ensures v == VisibleFrom(w, vis, 0)
  {
    v := [];
    var p := 0;
    while p < |vis|
      invariant 0 <= p <= |vis|
      invariant v + VisibleFrom(w, vis, p) == VisibleFrom(w, vis, 0)
    {
      if vis[p] {
        v := v + [Component(w, p)];
      }
      p := p + 1;
    }
  }

  /**
   * The inner loop for world `i`: compare it with every world passing the
   * one-directional test and append the pairs that look the same and are
   * not yet recorded.
   */
  method AddRow(ws: seq<World>, vis: seq<bool>, i: nat, edges: seq<Edge>) returns (edges': seq<Edge>)
    requires i < |ws|
    requires forall e :: e in edges ==> e.0 < i
    ensures edges' == edges + RowFrom(ws, vis, i, 0)
  {
    var visible1 := VisiblePart(ws[i], vis);
    edges' := edges;
    var j := 0;
    while j < |ws|
      invariant 0 <= j <= |ws|
      invariant edges' + RowFrom(ws, vis, i, j) == edges + RowFrom(ws, vis, i, 0)
      invariant forall e :: e in edges' ==> e.0 < i || (e.0 == i && e.1 < j)
    {
      ghost var head: seq<Edge> := if Linked(ws, vis, i, j) then [(i as int, j as int)] else [];
      assert RowFrom(ws, vis, i, j) == head + RowFrom(ws, vis, i, j + 1);
      if Before(ws[i], ws[j]) {
        var visible2 := VisiblePart(ws[j], vis);
        VisibleEqualIffSameView(ws[i], ws[j], vis, 0);
        if visible1 == visible2 {
          if (i, j) !in edges' {
            edges' := edges' + [(i, j)];
          }
        }
      }
      j := j + 1;
    }
  }

  /**
   * The nested loops that build one player's uncertainty: for each ordered
   * pair of worlds passing the one-directional test, compare the visible
   * portions and record the pair once; then add the mirrored and the
   * reflexive pairs.
   */
  method BuildEdges(ws: seq<World>, vis: seq<bool>) returns (edges: seq<Edge>)
    ensures edges == Edges(ws, vis)
  {
    edges := [];
    var i := 0;
    while i < |ws|
      invariant 0 <= i <= |ws|
      invariant edges + PassFrom(ws, vis, i) == PassFrom(ws, vis, 0)
      invariant forall e :: e in edges ==> e.0 < i
    {
      ghost var before := edges;
      edges := AddRow(ws, vis, i, edges);
      forall e | e in RowFrom(ws, vis, i, 0)
        ensures e.0 == i
      {
        RowMember(ws, vis, i, 0, e);
      }
      calc {
        edges + PassFrom(ws, vis, i + 1);
        (before + RowFrom(ws, vis, i, 0)) + PassFrom(ws, vis, i + 1);
        before + (RowFrom(ws, vis, i, 0) + PassFrom(ws, vis, i + 1));
        before + PassFrom(ws, vis, i);
      }
      i := i + 1;
    }
    assert edges == PassFrom(ws, vis, 0) by {
      assert PassFrom(ws, vis, i) == [];
      assert edges + [] == edges;
    }
    edges := edges + Mirror(edges);
    edges := edges + Reflexive(|ws|);
  }

  // ---------------------------------------------------------------------
  // pruning and reachability
  // ---------------------------------------------------------------------

  /** The pairs of `r` whose two ends are both in `keep`, in their order in `r`. */
  function Prune(r: seq<Edge>, keep: seq<int>): (p: seq<Edge>)
    ensures forall e :: e in p <==> e in r && e.0 in keep && e.1 in keep
    ensures |p| <= |r|
  {
    if |r| == 0 then []
    else (if r[0].0 in keep && r[0].1 in keep then [r[0]] else []) + Prune(r[1..], keep)
  }

  /**
   * Pruning to `keep` and then to a smaller `keep2` is pruning to `keep2`
   * at once, so successive updates compose.
   */
  lemma {:induction false} PruneTwice(r: seq<Edge>, keep: seq<int>, keep2: seq<int>)
    requires forall x :: x in keep2 ==> x in keep
    ensures Prune(Prune(r, keep), keep2) == Prune(r, keep2)
  {
    if |r| > 0 {
      PruneTwice(r[1..], keep, keep2);
      var head: seq<Edge> := if r[0].0 in keep && r[0].1 in keep then [r[0]] else [];
      PruneAppend(head, Prune(r[1..], keep), keep2);
      if head != [] {
        assert head[1..] == [];
      }
    }
  }

  lemma {:induction false} PruneAppend(a: seq<Edge>, b: seq<Edge>, keep: seq<int>)
    ensures Prune(a + b, keep) == Prune(a, keep) + Prune(b, keep)
  {
    if |a| == 0 {
      assert a + b == b;
    } else {
      assert (a + b)[1..] == a[1..] + b;
      PruneAppend(a[1..], b, keep);
    }
  }

  /** Pruning a relation whose ends already lie in `keep` changes nothing. */
  lemma {:induction false} PruneKeepsAll(r: seq<Edge>, keep: seq<int>)
    requires forall e :: e in r ==> e.0 in keep && e.1 in keep
    ensures Prune(r, keep) == r
  {
    if |r| > 0 {
      PruneKeepsAll(r[1..], keep);
      assert r == [r[0]] + r[1..];
    }
  }

  /** Successors of `w` in `r` not yet in `seen`, appended in order of first occurrence. */
  function AccessibleAcc(r: seq<Edge>, w: int, seen: seq<int>): seq<int>
  {
    if |r| == 0 then seen
    else AccessibleAcc(r[1..], w, if r[0].0 == w && r[0].1 !in seen then seen + [r[0].1] else seen)
  }

  /** The worlds reachable from `w` in one step of `r`, each once. */
  function Accessible(r: seq<Edge>, w: int): (acc: seq<int>)
    ensures forall y :: y in acc <==> (w, y) in r
    ensures NoDuplicates(acc)
  {
    AccessibleAccFacts(r, w, []);
    AccessibleAcc(r, w, [])
  }

  predicate NoDuplicates(s: seq<int>)
  {
    forall a, b :: 0 <= a < b < |s| ==> s[a] != s[b]
  }

  lemma {:induction false} AccessibleAccFacts(r: seq<Edge>, w: int, seen: seq<int>)
    requires NoDuplicates(seen)
    ensures forall y :: y in AccessibleAcc(r, w, seen) <==> y in seen || (w, y) in r
    ensures NoDuplicates(AccessibleAcc(r, w, seen))
  {
    if |r| > 0 {
      var seen' := if r[0].0 == w && r[0].1 !in seen then seen + [r[0].1] else seen;
      AccessibleAccFacts(r[1..], w, seen');
      assert r == [r[0]] + r[1..];
    }
  }

  /**
   * A relation that is part of `full` and closed under the symmetric and
   * reflexive pairs of its members: what pruning a built relation leaves.
   */
  predicate Coherent(r: seq<Edge>, full: seq<Edge>)
  {
    forall e :: e in r ==> e in full && (e.1, e.0) in r && (e.0, e.0) in r && (e.1, e.1) in r
  }

  /** A built relation is coherent with itself. */
  lemma EdgesCoherent(ws: seq<World>, vis: seq<bool>)
    ensures Coherent(Edges(ws, vis), Edges(ws, vis))
  {
    forall e | e in Edges(ws, vis)
      ensures (e.1, e.0) in Edges(ws, vis) && (e.0, e.0) in Edges(ws, vis) && (e.1, e.1) in Edges(ws, vis)
    {
      EdgesSymmetric(ws, vis, e.0, e.1);
      EdgesInRange(ws, vis);
      EdgesReflexive(ws, vis, e.0);
      EdgesReflexive(ws, vis, e.1);
    }
  }

  /** Pruning keeps a relation coherent: no pair is left without its mirror or its loops. */
  lemma PruneCoherent(r: seq<Edge>, full: seq<Edge>, keep: seq<int>)
    requires Coherent(r, full)
    ensures Coherent(Prune(r, keep), full)
  {
  }
}
