/**
 * The Kripke model of one puzzle and the processing of public
 * announcements on it.
 *
 * The graph is kept as its node list, in insertion order, and its set of
 * directed pairs.  The dictionary that records, per world, whether the
 * world is to be removed is a map whose keys are exactly the nodes; the
 * `None` the Python code stores after an update reads as false and is
 * modelled as false.  The methods are proved against the functions of the
 * `Engine` module.
 */
module Epistemic {
  import opened Wrappers
  import opened Formulas
  import opened Worlds
  import opened Uncertainty
  import opened Engine
  import opened Puzzles

  /** The dictionary's values in the order of `keys`. */
  function MarksOf(keys: seq<int>, states: map<int, bool>): (ms: seq<bool>)
    requires forall k :: 0 <= k < |keys| ==> keys[k] in states
    ensures |ms| == |keys| && forall k :: 0 <= k < |keys| ==> ms[k] == states[keys[k]]
  {
    seq(|keys|, k requires 0 <= k < |keys| => states[keys[k]])
  }

  /** A fresh dictionary: every key with value false. */
  function Cleared(keys: seq<int>): (states: map<int, bool>)
    ensures forall x :: x in states <==> x in keys
    ensures forall x :: x in states ==> !states[x]
  {
    map x | x in keys :: false
  }

  /** The keys whose value is false, in order: the nodes an update keeps. */
  method KeepUnmarked(keys: seq<int>, states: map<int, bool>) returns (kept: seq<int>)
    requires forall k :: 0 <= k < |keys| ==> keys[k] in states
    ensures kept == Unmarked(keys, MarksOf(keys, states))
  {
    kept := [];
    var k := 0;
    while k < |keys|
      invariant 0 <= k <= |keys|
      invariant kept == Unmarked(keys[..k], MarksOf(keys[..k], states))
    {
      assert keys[..k + 1] == keys[..k] + [keys[k]];
      assert MarksOf(keys[..k + 1], states) == MarksOf(keys[..k], states) + [states[keys[k]]];
      UnmarkedSnoc(keys[..k], MarksOf(keys[..k], states), keys[k], states[keys[k]]);
      if !states[keys[k]] {
        kept := kept + [keys[k]];
      }
      k := k + 1;
    }
    assert keys[..k] == keys;
  }

  /** Every player's relation at the puzzle's level pruned to `kept`, one player at a time. */
  method PruneEveryPlayer(puzzle: Puzzle, kept: seq<int>)
    requires puzzle.Valid() && LevelIndex(|puzzle.allStates|, puzzle.currLevel).Ok?
    modifies puzzle
    ensures puzzle.Valid() && puzzle.currLevel == old(puzzle.currLevel)
    ensures var l := LevelIndex(|puzzle.allStates|, puzzle.currLevel).value;
      puzzle.allUncertainty == old(puzzle.allUncertainty)[l := PruneAll(old(puzzle.allUncertainty)[l], kept)]
  {
    var l := LevelIndex(|puzzle.allStates|, puzzle.currLevel).value;
    ghost var rels := puzzle.allUncertainty[l];
    var p := 0;
    while p < |puzzle.players|
      invariant 0 <= p <= |puzzle.players|
      invariant puzzle.Valid() && puzzle.currLevel == old(puzzle.currLevel)
      invariant |puzzle.allUncertainty| == |old(puzzle.allUncertainty)|
      invariant forall l' :: 0 <= l' < |puzzle.allUncertainty| && l' != l ==>
        puzzle.allUncertainty[l'] == old(puzzle.allUncertainty)[l']
      invariant |puzzle.allUncertainty[l]| == |rels|
      invariant forall q :: 0 <= q < p ==> puzzle.allUncertainty[l][q] == Prune(rels[q], kept)
      invariant forall q :: p <= q < |rels| ==> puzzle.allUncertainty[l][q] == rels[q]
    {
      var _ := puzzle.UpdateUncertainty(p, kept);
      p := p + 1;
    }
    assert puzzle.allUncertainty[l] == PruneAll(rels, kept);
  }

  /**
   * The dictionary's values, in key order, after processing `f` with flag
   * `neg`: for a knowledge formula reached through negations, each key's
   * verdict on the inner formula; otherwise, or when the evaluation fails,
   * the values `before` it.
   */
  function Written(f: Formula, neg: bool, rels: seq<seq<Edge>>, players: seq<string>, keys: seq<int>,
                   before: seq<bool>): seq<bool>
  {
    match Spine(f, neg)
    case None => before
    case Some(t) =>
      match AgentIndex(players, t.agent)
      case None => before
      case Some(i) =>
        if i >= |rels| then before
        else
          match MarksFrom(t, rels, players, rels[i], keys, 0)
          case Err(_) => before
          case Ok(ms) => ms
  }

  /** Verdicts stored key by key are the list `Engine.MarksFrom` computes. */
  lemma MarksFromStored(t: Target, rels: seq<seq<Edge>>, players: seq<string>, r: seq<Edge>,
                        keys: seq<int>, stored: map<int, bool>)
    requires forall k :: 0 <= k < |keys| ==>
      keys[k] in stored && Ok(stored[keys[k]]) == Mark(t, rels, players, r, keys[k])
    ensures MarksFrom(t, rels, players, r, keys, 0) == Ok(MarksOf(keys, stored))
  {
    MarksFromAt(t, rels, players, r, keys, 0);
    if |keys| == 0 {
    } else {
      assert MarksFrom(t, rels, players, r, keys, 0).value == MarksOf(keys, stored);
    }
  }

  /**
   * Processing an announcement on the dictionary of current worlds, all
   * unmarked, writes the verdicts the model update of `Engine.Step` reads:
   * when the evaluation succeeds, the update keeps the unwritten and the
   * false-marked worlds.
   */
  lemma StepByWritten(f: Formula, rels: seq<seq<Edge>>, players: seq<string>, nodes: seq<int>)
    requires Process(f, rels, players, nodes, false).Ok?
    ensures Step(f, rels, players, nodes) ==
      Ok(Unmarked(nodes, Written(f, false, rels, players, nodes, MarksOf(nodes, Cleared(nodes)))))
  {
    ProcessStep(f, rels, players, nodes);
    match Spine(f, false)
    case None =>
      UnmarkedNone(nodes, MarksOf(nodes, Cleared(nodes)));
    case Some(t) =>
      if |nodes| == 0 {
        UnmarkedNone(nodes, Written(f, false, rels, players, nodes, MarksOf(nodes, Cleared(nodes))));
      }
  }

  /** `b or rest`, where `rest` may have failed. */
  function Either(b: bool, rest: Result<bool, Error>): (r: Result<bool, Error>)
    ensures rest.Err? ==> r == rest
    ensures rest.Ok? ==> r == Ok(b || rest.value)
  {
    if rest.Err? then rest else Ok(b || rest.value)
  }

  /** The pairs of `edges` between nodes of `keep`: what removing the other nodes leaves of a graph. */
  function Restrict(edges: set<Edge>, keep: seq<int>): (r: set<Edge>)
    ensures forall e :: e in r <==> e in edges && e.0 in keep && e.1 in keep
  {
    set e | e in edges && e.0 in keep && e.1 in keep
  }

  /** One more world of the loop over worlds, whose verdict is `b`, folded into the disjunction so far. */
  lemma EachStep(f: Formula, rels: seq<seq<Edge>>, players: seq<string>, r: seq<Edge>,
                 W: seq<int>, k: nat, neg: bool, acc: bool, b: bool)
    requires f.Know? && k < |W|
    requires Process(f.inner, rels, players, Accessible(r, W[k]), neg) == Ok(b)
    ensures Either(acc, ProcessEach(f, rels, players, r, W, k, neg)) ==
      Either(acc || b, ProcessEach(f, rels, players, r, W, k + 1, neg))
  {
  }

  /** Storing the verdict of key `k` keeps the verdicts already stored for the keys before it. */
  lemma WriteVerdict(t: Target, rels: seq<seq<Edge>>, players: seq<string>, r: seq<Edge>,
                     keys: seq<int>, k: nat, stored: map<int, bool>, v: bool)
    requires NoDuplicates(keys) && k < |keys|
    requires forall j :: 0 <= j < k ==>
      keys[j] in stored && Ok(stored[keys[j]]) == Mark(t, rels, players, r, keys[j])
    requires Ok(v) == Mark(t, rels, players, r, keys[k])
    ensures forall j :: 0 <= j < k + 1 ==>
      keys[j] in stored[keys[k] := v] && Ok(stored[keys[k] := v][keys[j]]) == Mark(t, rels, players, r, keys[j])
  {
    forall j | 0 <= j < k + 1
      ensures keys[j] in stored[keys[k] := v] && Ok(stored[keys[k] := v][keys[j]]) == Mark(t, rels, players, r, keys[j])
    {
      if j < k {
        assert keys[j] != keys[k];
      }
    }
  }

  /**
   * When the loop of a knowledge formula has run over every key, its
   * disjunction is the verdict `Engine.Process` defines and the stored
   * verdicts are the ones `Written` describes.
   */
  lemma KnowOutcome(f: Formula, neg: bool, rels: seq<seq<Edge>>, players: seq<string>, keys: seq<int>,
                    relation: seq<Edge>, anyMarked: bool, before: map<int, bool>, stored: map<int, bool>)
    requires f.Know?
    requires |keys| == 0 ==> !anyMarked
    requires |keys| > 0 ==>
      && AgentIndex(players, f.agent).Some?
      && AgentIndex(players, f.agent).value < |rels|
      && relation == rels[AgentIndex(players, f.agent).value]
      && ProcessEach(f, rels, players, relation, keys, 0, neg) ==
         Either(anyMarked, ProcessEach(f, rels, players, relation, keys, |keys|, neg))
    requires forall j :: 0 <= j < |keys| ==> keys[j] in before
    requires forall j :: 0 <= j < |keys| ==>
      keys[j] in stored && Ok(stored[keys[j]]) == Mark(Target(f.agent, f.inner, neg), rels, players, relation, keys[j])
    ensures Process(f, rels, players, keys, neg) == Ok(anyMarked)
    ensures MarksOf(keys, stored) == Written(f, neg, rels, players, keys, MarksOf(keys, before))
  {
    if |keys| > 0 {
      MarksFromStored(Target(f.agent, f.inner, neg), rels, players, relation, keys, stored);
    } else {
      var i := AgentIndex(players, f.agent);
      if i.Some? && i.value < |rels| {
        MarksFromStored(Target(f.agent, f.inner, neg), rels, players, rels[i.value], keys, stored);
      }
    }
  }

  /** Removing nodes from the graph removes exactly the pairs that pruning the relations removes. */
  lemma EdgeSetPrune(rels: seq<seq<Edge>>, keep: seq<int>)
    ensures EdgeSet(PruneAll(rels, keep)) == Restrict(EdgeSet(rels), keep)
  {
    var pruned := PruneAll(rels, keep);
    forall e | e in EdgeSet(pruned)
      ensures e in EdgeSet(rels) && e.0 in keep && e.1 in keep
    {
      var p :| 0 <= p < |pruned| && e in pruned[p];
      assert e in rels[p];
    }
    forall e | e in EdgeSet(rels) && e.0 in keep && e.1 in keep
      ensures e in EdgeSet(pruned)
    {
      var p :| 0 <= p < |rels| && e in rels[p];
      assert e in pruned[p];
    }
  }

  class EpistemicModel {
    const puzzle: Puzzle
    /** The nodes of the current graph, in insertion order. */
    var nodes: seq<int>
    /** The directed pairs of the current graph. */
    var edges: set<Edge>
    /** Per node of the graph: whether the last announcement marked it for removal. */
    var currStates: map<int, bool>

    /** The level being played, which the model was built for. */
    function Level(): nat
      reads puzzle
      requires LevelIndex(|puzzle.allStates|, puzzle.currLevel).Ok?
    {
      LevelIndex(|puzzle.allStates|, puzzle.currLevel).value
    }

    /** Every player's current relation at that level. */
    function Rels(): seq<seq<Edge>>
      reads puzzle
      requires LevelIndex(|puzzle.allStates|, puzzle.currLevel).Ok?
      requires |puzzle.allUncertainty| == |puzzle.allStates|
    {
      puzzle.allUncertainty[Level()]
    }

    /** What evaluating announcements needs of the puzzle: a valid level, with one relation per player. */
    predicate Ready()
      reads puzzle
    {
      LevelIndex(|puzzle.allStates|, puzzle.currLevel).Ok? &&
      |puzzle.allUncertainty| == |puzzle.allStates| && |Rels()| == |puzzle.players|
    }

    /**
     * The level is a valid one; the nodes are worlds of that level, each
     * once; the dictionary has exactly the nodes as keys; every player's
     * pairs join nodes of the graph, and the graph's pairs are exactly all
     * players' pairs.
     */
    ghost predicate Consistent()
      reads this, puzzle
    {
      puzzle.Valid() && LevelIndex(|puzzle.allStates|, puzzle.currLevel).Ok? &&
      NoDuplicates(nodes) &&
      (forall x :: x in nodes ==> 0 <= x < |puzzle.allStates[Level()]|) &&
      (forall k :: 0 <= k < |nodes| ==> nodes[k] in currStates) &&
      (forall x :: x in currStates ==> x in nodes) &&
      (forall p, e :: 0 <= p < |Rels()| && e in Rels()[p] ==> e.0 in nodes && e.1 in nodes) &&
      edges == EdgeSet(Rels())
    }

    /** Between runs the model is consistent and no node is marked. */
    ghost predicate Valid()
      reads this, puzzle
    {
      Consistent() && currStates == Cleared(nodes)
    }

    constructor Init(p: Puzzle, g: Graph)
      requires p.Valid() && LevelIndex(|p.allStates|, p.currLevel).Ok?
      requires g.nodes == Range(|p.allStates[LevelIndex(|p.allStates|, p.currLevel).value]|)
      requires g.edges == EdgeSet(p.allUncertainty[LevelIndex(|p.allStates|, p.currLevel).value])
      ensures Valid()
      ensures puzzle == p && nodes == g.nodes && edges == g.edges
    {
      puzzle := p;
      nodes := g.nodes;
      edges := g.edges;
      currStates := Cleared(g.nodes);
      new;
      var l := Level();
      forall q, e | 0 <= q < |Rels()| && e in Rels()[q]
        ensures e.0 in nodes && e.1 in nodes
      {
        EdgesInRange(puzzle.allStates[l], puzzle.visibility[q]);
        assert nodes[e.0] == e.0 && nodes[e.1] == e.1;
      }
    }

    /**
     * `EpistemicModel(puzzle)`: the full model of the puzzle's current
     * level, with no world marked; building the graph may fail.
     */
    static method New(p: Puzzle) returns (r: Result<EpistemicModel, Error>)
      requires p.Valid()
      ensures LevelIndex(|p.allStates|, p.currLevel).Err? ==> r == Err(LevelIndex(|p.allStates|, p.currLevel).error)
      ensures LevelIndex(|p.allStates|, p.currLevel).Ok? ==>
        var l := LevelIndex(|p.allStates|, p.currLevel).value;
        if ColoursRunOut(|p.players|, p.allUncertainty[l]) then r == Err(IndexError)
        else
          r.Ok? && fresh(r.value) && r.value.Valid() && r.value.puzzle == p &&
          r.value.nodes == Range(|p.allStates[l]|) && r.value.edges == EdgeSet(p.allUncertainty[l])
    {
      var graph := p.GenerateFullModel();
      if graph.Err? {
        return Err(graph.error);
      }
      var model := new EpistemicModel.Init(p, graph.value);
      return Ok(model);
    }

    /**
     * `process_announcement(f, worlds, neg)` on the dictionary `worlds`,
     * whose keys are listed by `keys` in insertion order.  The result is
     * the verdict `Engine.Process` defines; the new dictionary holds, for a
     * knowledge formula reached through negations, every key's verdict on
     * the inner formula, and is otherwise unchanged.
     */
    method ProcessAnnouncement(f: Formula, keys: seq<int>, worlds: map<int, bool>, neg: bool)
      returns (r: Result<bool, Error>, written: map<int, bool>)
      requires Ready()
      requires NoDuplicates(keys) && (forall k :: 0 <= k < |keys| ==> keys[k] in worlds)
      requires forall x :: x in worlds ==> x in keys
      ensures r == Process(f, Rels(), puzzle.players, keys, neg)
      ensures written.Keys == worlds.Keys
      ensures r.Ok? ==>
        MarksOf(keys, written) == Written(f, neg, Rels(), puzzle.players, keys, MarksOf(keys, worlds))
      decreases f, 1
    {
      match f
      case Atom(_) =>
        return Ok(CheckValidity(|keys|, neg)), worlds;
      case Not(g) =>
        r, written := ProcessAnnouncement(g, keys, worlds, !neg);
      case Know(_, _) =>
        r, written := ProcessKnow(f, keys, worlds, neg);
      case Unary(_, _) =>
        return Ok(false), worlds;
      case Bin(_, _, _) =>
        return Ok(false), worlds;
    }

    /**
     * `update_model()`: the marked nodes leave the graph with the pairs
     * that touch them, the dictionary is reset over the remaining nodes,
     * and every player's relation at the level is pruned to them.
     */
    method UpdateModel()
      requires Consistent()
      modifies this, puzzle
      ensures Valid() && puzzle.currLevel == old(puzzle.currLevel)
      ensures nodes == Unmarked(old(nodes), MarksOf(old(nodes), old(currStates)))
      ensures edges == Restrict(old(edges), nodes)
      ensures puzzle.allUncertainty == old(puzzle.allUncertainty)[Level() := PruneAll(old(Rels()), nodes)]
    {
      ghost var l := Level();
      ghost var rels := Rels();
      var kept := KeepUnmarked(nodes, currStates);
      UnmarkedDistinct(nodes, MarksOf(nodes, currStates));
      EdgeSetPrune(rels, kept);
      edges := Restrict(edges, kept);
      nodes := kept;
      currStates := Cleared(kept);
      PruneEveryPlayer(puzzle, kept);
      assert Rels() == PruneAll(rels, kept);
      assert puzzle.allUncertainty == old(puzzle.allUncertainty)[l := PruneAll(rels, kept)];
      assert edges == EdgeSet(Rels());
      assert Consistent();
    }

    /**
     * `get_answer()`: the label of the single remaining world, or one of
     * the two fixed messages; the nodes are worlds of the level, so this
     * never fails.
     */
    method GetAnswer() returns (r: Result<string, Error>)
      requires Valid()
      ensures r == Answer(puzzle.allStates[Level()], nodes)
      ensures r.Ok?
    {
      if |nodes| == 0 {
        return Ok("No solution");
      } else if |nodes| == 1 {
        assert nodes[0] in nodes;
        return Ok(FormatState(puzzle.allStates[Level()][nodes[0]]));
      } else {
        return Ok("Multiple solutions");
      }
    }

    /**
     * The knowledge case of `process_announcement`: every key's verdict is
     * the inner formula's, over the worlds the agent holds possible from
     * it; the result is whether any verdict is true.
     */
    method ProcessKnow(f: Formula, keys: seq<int>, worlds: map<int, bool>, neg: bool)
      returns (r: Result<bool, Error>, written: map<int, bool>)
      requires f.Know? && Ready()
      requires NoDuplicates(keys) && (forall k :: 0 <= k < |keys| ==> keys[k] in worlds)
      requires forall x :: x in worlds ==> x in keys
      ensures r == Process(f, Rels(), puzzle.players, keys, neg)
      ensures written.Keys == worlds.Keys
      ensures r.Ok? ==>
        MarksOf(keys, written) == Written(f, neg, Rels(), puzzle.players, keys, MarksOf(keys, worlds))
      decreases f, 0
    {
      var a, g := f.agent, f.inner;
      var players, level := puzzle.players, Level();
      ghost var rels := Rels();
      written := worlds;
      // `players.index(agent)` is evaluated for the first key; the players do not change in the loop
      if |keys| == 0 {
        KnowOutcome(f, neg, rels, players, keys, [], false, worlds, written);
        return Ok(false), worlds;
      }
      var index := AgentIndex(players, a);
      if index.None? {
        return Err(ValueError), written;
      }
      var relation := puzzle.allUncertainty[level][index.value];
      // every key is written, so `any(worlds.values())` is the disjunction of the verdicts
      var anyMarked := false;
      var k := 0;
      while k < |keys|
        invariant 0 <= k <= |keys|
        invariant written.Keys == worlds.Keys
        invariant ProcessEach(f, rels, players, relation, keys, 0, neg) ==
          Either(anyMarked, ProcessEach(f, rels, players, relation, keys, k, neg))
        invariant forall j :: 0 <= j < k ==>
          keys[j] in written && Ok(written[keys[j]]) == Mark(Target(a, g, neg), rels, players, relation, keys[j])
      {
        var reachable := Accessible(relation, keys[k]);
        var b, inner := ProcessAnnouncement(g, reachable, Cleared(reachable), neg);
        if b.Err? {
          return Err(b.error), written;
        }
        EachStep(f, rels, players, relation, keys, k, neg, anyMarked, b.value);
        WriteVerdict(Target(a, g, neg), rels, players, relation, keys, k, written, b.value);
        written := written[keys[k] := b.value];
        anyMarked := anyMarked || b.value;
        k := k + 1;
      }
      KnowOutcome(f, neg, rels, players, keys, relation, anyMarked, worlds, written);
      return Ok(anyMarked), written;
    }

    /**
     * One pass of the loop in `run_model_once()`: the announcement is
     * processed on the dictionary of current worlds, then the model is
     * updated.  This is the step `Engine.Step` defines, and the relations
     * are pruned to the worlds it keeps.
     */
    method Announce(f: Formula) returns (r: Result<(), Error>)
      requires Valid()
      modifies this, puzzle
      ensures puzzle.currLevel == old(puzzle.currLevel)
      ensures r.Err? <==> Step(f, old(Rels()), puzzle.players, old(nodes)).Err?
      ensures r.Err? ==> r.error == Step(f, old(Rels()), puzzle.players, old(nodes)).error
      ensures r.Ok? ==> Valid()
      ensures r.Ok? ==> Step(f, old(Rels()), puzzle.players, old(nodes)) == Ok(nodes) &&
                        Rels() == PruneAll(old(Rels()), nodes)
    {
      var res, written := ProcessAnnouncement(f, nodes, currStates, false);
      ProcessStep(f, Rels(), puzzle.players, nodes);
      currStates := written;
      if res.Err? {
        return Err(res.error);
      }
      StepByWritten(f, Rels(), puzzle.players, nodes);
      UpdateModel();
      return Ok(());
    }

    /**
     * `run_model_once()`: every announcement of the level in turn, each
     * followed by the model update, then the answer.  The answer is the one
     * `Engine.Solve` defines for the model as it was; on success the model
     * holds the surviving worlds and the pruned relations of `Engine.Run`.
     */
    method RunModelOnce() returns (r: Result<string, Error>)
      requires Valid()
      modifies this, puzzle
      ensures puzzle.currLevel == old(puzzle.currLevel)
      ensures r == Solve(puzzle.allStates[Level()], puzzle.allAnnouncements[Level()], old(Rels()),
                         puzzle.players, old(nodes))
      ensures r.Ok? ==> Valid()
      ensures r.Ok? ==>
        Run(puzzle.allAnnouncements[Level()], old(Rels()), puzzle.players, old(nodes)) == Ok((nodes, Rels()))
    {
      var anns := puzzle.allAnnouncements[Level()];
      ghost var rels0 := Rels();
      ghost var nodes0 := nodes;
      var k := 0;
      while k < |anns|
        invariant 0 <= k <= |anns|
        invariant Valid() && puzzle.currLevel == old(puzzle.currLevel)
        invariant Run(anns, rels0, puzzle.players, nodes0) == Run(anns[k..], Rels(), puzzle.players, nodes)
      {
        assert anns[k..][0] == anns[k] && anns[k..][1..] == anns[k + 1..];
        var step := Announce(anns[k]);
        if step.Err? {
          return Err(step.error);
        }
        k := k + 1;
      }
      assert anns[k..] == [];
      r := GetAnswer();
    }
  }
}
