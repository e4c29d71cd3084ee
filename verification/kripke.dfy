/**
 * A reference reading of the solver: Kripke semantics in which a player
 * holds world y possible at world x exactly when both are still in the
 * model and agree on every part of a world the player sees.  No relation
 * lists are built or pruned.
 *
 * The main theorem (`RunAgrees`) says that the engine, run on the
 * relations the uncertainty builder produces over distinct worlds, removes
 * exactly the worlds this reading removes.
 */
module Kripke {
  import opened Wrappers
  import opened Formulas
  import opened Worlds
  import opened Uncertainty
  import opened Engine

  /** Through `vis`, world `y` looks like world `x` (both index worlds of `ws`). */
  predicate Alike(ws: seq<World>, vis: seq<bool>, x: int, y: int)
  {
    0 <= x < |ws| && 0 <= y < |ws| && SameView(ws[x], ws[y], vis, 0)
  }

  /** How many worlds of `alive[k..]` look like world `w` through `vis`. */
  function CountFrom(ws: seq<World>, vis: seq<bool>, alive: seq<int>, w: int, k: nat): nat
    decreases |alive| - k
  {
    if k >= |alive| then 0
    else (if Alike(ws, vis, w, alive[k]) then 1 else 0) + CountFrom(ws, vis, alive, w, k + 1)
  }

  /**
   * Whether `f`, read over the worlds a player seeing `vis` cannot tell
   * from world `w`, marks `w`: an atom marks when there is not exactly one
   * such world (or, negated, when there is), a negation flips the flag, and
   * "a knows that g" marks when g, read through a's view, marks one of them.
   */
  function Holds(f: Formula, ws: seq<World>, viss: seq<seq<bool>>, players: seq<string>,
                 alive: seq<int>, vis: seq<bool>, w: int, neg: bool): bool
    decreases f, 1
  {
    match f
    case Atom(_) => CheckValidity(CountFrom(ws, vis, alive, w, 0), neg)
    case Not(g) => Holds(g, ws, viss, players, alive, vis, w, !neg)
    case Know(a, _) =>
      (match AgentIndex(players, a)
       case Some(i) => i < |viss| && SomeMarks(f, ws, viss, players, alive, vis, w, viss[i], 0, neg)
       case None => false)
    case Unary(_, _) => false
    case Bin(_, _, _) => false
  }

  /** Some world of `alive[k..]` that looks like `w` through `vis` is marked by `f.inner` read through `inner`. */
  function SomeMarks(f: Formula, ws: seq<World>, viss: seq<seq<bool>>, players: seq<string>,
                     alive: seq<int>, vis: seq<bool>, w: int, inner: seq<bool>, k: nat, neg: bool): bool
    requires f.Know?
    decreases f, 0, |alive| - k
  {
    k < |alive| &&
    ((Alike(ws, vis, w, alive[k]) && Holds(f.inner, ws, viss, players, alive, inner, alive[k], neg))
     || SomeMarks(f, ws, viss, players, alive, vis, w, inner, k + 1, neg))
  }

  /** The worlds of `alive[k..]` a knowledge target, read through `vis`, does not mark. */
  function KeptFrom(t: Target, ws: seq<World>, viss: seq<seq<bool>>, players: seq<string>,
                    alive: seq<int>, vis: seq<bool>, k: nat): seq<int>
    decreases |alive| - k
  {
    if k >= |alive| then []
    else
      (if Holds(t.inner, ws, viss, players, alive, vis, alive[k], t.negate) then [] else [alive[k]])
      + KeptFrom(t, ws, viss, players, alive, vis, k + 1)
  }

  /** The worlds that survive one announcement. */
  function Survivors(f: Formula, ws: seq<World>, viss: seq<seq<bool>>, players: seq<string>,
                     alive: seq<int>): seq<int>
  {
    match Spine(f, false)
    case None => alive
    case Some(t) =>
      (match AgentIndex(players, t.agent)
       case Some(i) => if i < |viss| then KeptFrom(t, ws, viss, players, alive, viss[i], 0) else alive
       case None => alive)
  }

  /** The worlds that survive all announcements in turn. */
  function Outcome(anns: seq<Formula>, ws: seq<World>, viss: seq<seq<bool>>, players: seq<string>,
                   alive: seq<int>): seq<int>
  {
    if |anns| == 0 then alive
    else Outcome(anns[1..], ws, viss, players, Survivors(anns[0], ws, viss, players, alive))
  }

  // ---------------------------------------------------------------------
  // agreement with the engine
  // ---------------------------------------------------------------------

  /** `rels` holds, for every player, exactly the view-based pairs among `alive`. */
  ghost predicate Represents(rels: seq<seq<Edge>>, ws: seq<World>, viss: seq<seq<bool>>, alive: seq<int>)
  {
    |rels| == |viss| &&
    forall p, x: int, y: int :: 0 <= p < |rels| ==>
      ((x, y) in rels[p] <==>
        x in alive && y in alive && 0 <= x < |ws| && 0 <= y < |ws| && SameView(ws[x], ws[y], viss[p], 0))
  }

  /** The relations the builder produces for every player represent the view-based reading. */
  lemma BuiltRepresents(ws: seq<World>, viss: seq<seq<bool>>)
    requires Distinct(ws)
    ensures Represents(Relations(ws, viss), ws, viss, Range(|ws|))
  {
    var rels := Relations(ws, viss);
    forall p, x: int, y: int | 0 <= p < |rels|
      ensures (x, y) in rels[p] <==>
        x in Range(|ws|) && y in Range(|ws|) && 0 <= x < |ws| && 0 <= y < |ws| && SameView(ws[x], ws[y], viss[p], 0)
    {
      EdgesMemberDistinct(ws, viss[p], x, y);
      if 0 <= x < |ws| && 0 <= y < |ws| {
        assert Range(|ws|)[x] == x && Range(|ws|)[y] == y;
      }
    }
  }

  /** The worlds of `alive[k..]`, in order, that look like world `w` through `vis`. */
  function ReachFrom(ws: seq<World>, vis: seq<bool>, alive: seq<int>, w: int, k: nat): seq<int>
    decreases |alive| - k
  {
    if k >= |alive| then []
    else (if Alike(ws, vis, w, alive[k]) then [alive[k]] else []) + ReachFrom(ws, vis, alive, w, k + 1)
  }

  lemma {:induction false} ReachFromMember(ws: seq<World>, vis: seq<bool>, alive: seq<int>, w: int, k: nat, y: int)
    requires NoDuplicates(alive)
    ensures y in ReachFrom(ws, vis, alive, w, k) <==>
      (exists j :: k <= j < |alive| && alive[j] == y) && Alike(ws, vis, w, y)
    ensures NoDuplicates(ReachFrom(ws, vis, alive, w, k))
    ensures |ReachFrom(ws, vis, alive, w, k)| == CountFrom(ws, vis, alive, w, k)
    decreases |alive| - k
  {
    if k < |alive| {
      ReachFromMember(ws, vis, alive, w, k + 1, y);
      ReachFromMember(ws, vis, alive, w, k + 1, alive[k]);
      var head: seq<int> := if Alike(ws, vis, w, alive[k]) then [alive[k]] else [];
      var tail := ReachFrom(ws, vis, alive, w, k + 1);
      assert alive[k] !in tail;
      forall a, b | 0 <= a < b < |head + tail|
        ensures (head + tail)[a] != (head + tail)[b]
      {
        assert (head + tail)[b] == tail[b - |head|];
        if a < |head| {
          assert tail[b - |head|] in tail;
        } else {
          assert (head + tail)[a] == tail[a - |head|];
        }
      }
    }
  }

  /** Two duplicate-free sequences with the same elements have the same length. */
  lemma SameElementsSameLength(s: seq<int>, t: seq<int>)
    requires NoDuplicates(s) && NoDuplicates(t)
    requires forall x :: x in s <==> x in t
    ensures |s| == |t|
  {
    DistinctCard(s);
    DistinctCard(t);
    assert (set x | x in s) == (set x | x in t);
  }

  lemma {:induction false} DistinctCard(s: seq<int>)
    requires NoDuplicates(s)
    ensures |set x | x in s| == |s|
  {
    if |s| > 0 {
      DistinctCard(s[1..]);
      assert (set x | x in s) == (set x | x in s[1..]) + {s[0]};
      assert forall j :: 0 <= j < |s[1..]| ==> s[1..][j] == s[j + 1];
    }
  }

  /** The worlds reachable in a represented relation are counted by `CountFrom`. */
  lemma AccessibleCount(rels: seq<seq<Edge>>, ws: seq<World>, viss: seq<seq<bool>>, alive: seq<int>, p: nat, w: int)
    requires Represents(rels, ws, viss, alive) && p < |rels|
    requires NoDuplicates(alive) && w in alive
    ensures forall y :: y in Accessible(rels[p], w) <==> y in alive && Alike(ws, viss[p], w, y)
    ensures |Accessible(rels[p], w)| == CountFrom(ws, viss[p], alive, w, 0)
  {
    var acc := Accessible(rels[p], w);
    var reach := ReachFrom(ws, viss[p], alive, w, 0);
    forall y
      ensures y in acc <==> y in reach
      ensures y in acc <==> y in alive && Alike(ws, viss[p], w, y)
    {
      ReachFromMember(ws, viss[p], alive, w, 0, y);
      if y in alive {
        var j :| 0 <= j < |alive| && alive[j] == y;
      }
    }
    ReachFromMember(ws, viss[p], alive, w, 0, w);
    SameElementsSameLength(acc, reach);
  }

  lemma {:induction false} ProcessEachAny(f: Formula, rels: seq<seq<Edge>>, players: seq<string>, r: seq<Edge>,
                                          W: seq<int>, k: nat, neg: bool)
    requires f.Know? && AgentsIn(f, players) && |rels| >= |players|
    ensures ProcessEach(f, rels, players, r, W, k, neg) ==
      Ok(exists j :: k <= j < |W| && Process(f.inner, rels, players, Accessible(r, W[j]), neg) == Ok(true))
    decreases |W| - k
  {
    if k < |W| {
      ProcessOk(f.inner, rels, players, Accessible(r, W[k]), neg);
      ProcessEachAny(f, rels, players, r, W, k + 1, neg);
    }
  }

  lemma {:induction false} SomeMarksAny(f: Formula, ws: seq<World>, viss: seq<seq<bool>>, players: seq<string>,
                                        alive: seq<int>, vis: seq<bool>, w: int, inner: seq<bool>, k: nat, neg: bool)
    requires f.Know?
    ensures SomeMarks(f, ws, viss, players, alive, vis, w, inner, k, neg) <==>
      exists j :: k <= j < |alive| && Alike(ws, vis, w, alive[j]) &&
        Holds(f.inner, ws, viss, players, alive, inner, alive[j], neg)
    decreases |alive| - k
  {
    if k < |alive| {
      SomeMarksAny(f, ws, viss, players, alive, vis, w, inner, k + 1, neg);
    }
  }

  /**
   * Reading a formula over the worlds a represented relation makes
   * reachable from a live world gives the engine's verdict there.
   */
  lemma {:induction false} ProcessAgrees(f: Formula, rels: seq<seq<Edge>>, ws: seq<World>, viss: seq<seq<bool>>,
                                         players: seq<string>, alive: seq<int>, p: nat, w: int, neg: bool)
    requires Represents(rels, ws, viss, alive) && |players| <= |rels| && p < |rels|
    requires AgentsIn(f, players) && NoDuplicates(alive) && w in alive
    ensures Process(f, rels, players, Accessible(rels[p], w), neg) ==
      Ok(Holds(f, ws, viss, players, alive, viss[p], w, neg))
    decreases f
  {
    var W := Accessible(rels[p], w);
    AccessibleCount(rels, ws, viss, alive, p, w);
    match f
    case Atom(_) =>
    case Not(g) =>
      ProcessAgrees(g, rels, ws, viss, players, alive, p, w, !neg);
    case Unary(_, _) =>
    case Bin(_, _, _) =>
    case Know(a, g) =>
      var i := AgentIndex(players, a).value;
      SomeMarksAny(f, ws, viss, players, alive, viss[p], w, viss[i], 0, neg);
      forall y | y in W
        ensures Process(g, rels, players, Accessible(rels[i], y), neg) ==
                Ok(Holds(g, ws, viss, players, alive, viss[i], y, neg))
      {
        ProcessAgrees(g, rels, ws, viss, players, alive, i, y, neg);
      }
      var e2 := exists j :: (0 <= j < |alive| && Alike(ws, viss[p], w, alive[j]) &&
        Holds(g, ws, viss, players, alive, viss[i], alive[j], neg));
      if |W| != 0 {
        ProcessEachAny(f, rels, players, rels[i], W, 0, neg);
        var e1 := exists j :: 0 <= j < |W| && Process(g, rels, players, Accessible(rels[i], W[j]), neg) == Ok(true);
        if e1 {
          var j :| 0 <= j < |W| && Process(g, rels, players, Accessible(rels[i], W[j]), neg) == Ok(true);
          assert W[j] in W;
          var j2 :| 0 <= j2 < |alive| && alive[j2] == W[j];
          assert Alike(ws, viss[p], w, alive[j2]);
        }
        if e2 {
          var j :| 0 <= j < |alive| && Alike(ws, viss[p], w, alive[j]) &&
            Holds(g, ws, viss, players, alive, viss[i], alive[j], neg);
          assert alive[j] in W;
          var j1 :| 0 <= j1 < |W| && W[j1] == alive[j];
          assert Process(g, rels, players, Accessible(rels[i], W[j1]), neg) == Ok(true);
        }
      }
  }

  lemma {:induction false} UnmarkedKept(t: Target, ws: seq<World>, viss: seq<seq<bool>>,
                                        players: seq<string>, alive: seq<int>, vis: seq<bool>,
                                        ms: seq<bool>, k: nat)
    requires k <= |alive| && |ms| == |alive|
    requires forall j :: 0 <= j < |alive| ==>
      ms[j] == Holds(t.inner, ws, viss, players, alive, vis, alive[j], t.negate)
    ensures Unmarked(alive[k..], ms[k..]) == KeptFrom(t, ws, viss, players, alive, vis, k)
    decreases |alive| - k
  {
    if k < |alive| {
      UnmarkedKept(t, ws, viss, players, alive, vis, ms, k + 1);
      assert alive[k..][1..] == alive[k + 1..];
      assert ms[k..][1..] == ms[k + 1..];
    }
  }

  /** One announcement removes the same worlds in both readings. */
  lemma StepAgrees(f: Formula, rels: seq<seq<Edge>>, ws: seq<World>, viss: seq<seq<bool>>,
                   players: seq<string>, alive: seq<int>)
    requires Represents(rels, ws, viss, alive) && |players| <= |rels|
    requires AgentsIn(f, players) && NoDuplicates(alive)
    ensures Step(f, rels, players, alive) == Ok(Survivors(f, ws, viss, players, alive))
  {
    match Spine(f, false)
    case None =>
    case Some(t) =>
      SpineAgents(f, false, players);
      var i := AgentIndex(players, t.agent).value;
      var r := rels[i];
      forall j | 0 <= j < |alive|
        ensures Mark(t, rels, players, r, alive[j]) ==
          Ok(Holds(t.inner, ws, viss, players, alive, viss[i], alive[j], t.negate))
      {
        ProcessAgrees(t.inner, rels, ws, viss, players, alive, i, alive[j], t.negate);
      }
      MarksFromAt(t, rels, players, r, alive, 0);
      if |alive| > 0 {
        var ms := MarksFrom(t, rels, players, r, alive, 0).value;
        UnmarkedKept(t, ws, viss, players, alive, viss[i], ms, 0);
        assert alive[0..] == alive && ms[0..] == ms;
      } else {
        assert KeptFrom(t, ws, viss, players, alive, viss[i], 0) == [];
      }
  }

  lemma {:induction false} SpineAgents(f: Formula, neg: bool, players: seq<string>)
    requires AgentsIn(f, players) && Spine(f, neg).Some?
    ensures Spine(f, neg).value.agent in players && AgentsIn(Spine(f, neg).value.inner, players)
  {
    match f
    case Not(g) => SpineAgents(g, !neg, players);
    case Know(_, _) =>
  }

  /** Pruning the represented relations to a subset of the live worlds represents that subset. */
  lemma PruneRepresents(rels: seq<seq<Edge>>, ws: seq<World>, viss: seq<seq<bool>>, alive: seq<int>, kept: seq<int>)
    requires Represents(rels, ws, viss, alive)
    requires forall x :: x in kept ==> x in alive
    ensures Represents(PruneAll(rels, kept), ws, viss, kept)
  {
  }

  /**
   * The engine, run from any state whose relations represent the
   * view-based reading, removes exactly the worlds the reading removes,
   * announcement after announcement.
   */
  lemma {:induction false} RunAgreesFrom(anns: seq<Formula>, rels: seq<seq<Edge>>, ws: seq<World>,
                                         viss: seq<seq<bool>>, players: seq<string>, alive: seq<int>)
    requires Represents(rels, ws, viss, alive) && |players| <= |rels|
    requires forall k :: 0 <= k < |anns| ==> AgentsIn(anns[k], players)
    requires NoDuplicates(alive)
    ensures Run(anns, rels, players, alive).Ok?
    ensures Run(anns, rels, players, alive).value.0 == Outcome(anns, ws, viss, players, alive)
  {
    if |anns| > 0 {
      StepAgrees(anns[0], rels, ws, viss, players, alive);
      var kept := Survivors(anns[0], ws, viss, players, alive);
      StepKeepsDistinct(anns[0], rels, players, alive);
      PruneRepresents(rels, ws, viss, alive, kept);
      RunAgreesFrom(anns[1..], PruneAll(rels, kept), ws, viss, players, kept);
    }
  }

  /**
   * From the full model — every world alive, the builder's relations for
   * every player — the engine's run and the view-based reading leave the
   * same worlds, provided the worlds are distinct, every player has a
   * visibility row and the announcements name only players.
   */
  lemma RunAgrees(anns: seq<Formula>, ws: seq<World>, viss: seq<seq<bool>>, players: seq<string>)
    requires Distinct(ws) && |players| <= |viss|
    requires forall k :: 0 <= k < |anns| ==> AgentsIn(anns[k], players)
    ensures Run(anns, Relations(ws, viss), players, Range(|ws|)).Ok?
    ensures Run(anns, Relations(ws, viss), players, Range(|ws|)).value.0
      == Outcome(anns, ws, viss, players, Range(|ws|))
  {
    BuiltRepresents(ws, viss);
    RunAgreesFrom(anns, Relations(ws, viss), ws, viss, players, Range(|ws|));
  }
}
