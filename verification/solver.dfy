/**
 * The common base of the solvers: its own copy of every player's
 * relations, built from the puzzle's worlds and views, pruned as worlds are
 * removed and rebuilt whenever the initial graph is generated.
 *
 * Building the relations runs the player loop twice, one loop inside the
 * other with the same loop variable, so every level holds `n * n`
 * relations for `n` players: `n` rounds of the players' relations in
 * player order.
 */
module Solvers {
  import opened Wrappers
  import opened Worlds
  import opened Uncertainty
  import opened Puzzles

  /** `m` copies of `row`, one after the other: what the outer player loop repeats. */
  function Rounds(row: seq<seq<Edge>>, m: nat): seq<seq<Edge>>
  {
    if m == 0 then [] else Rounds(row, m - 1) + row
  }

  /** Every copy is as long as the row, so there are `m * |row|` relations. */
  lemma {:induction false} RoundsLength(row: seq<seq<Edge>>, m: nat)
    ensures |Rounds(row, m)| == m * |row|
  {
    if m > 0 {
      RoundsLength(row, m - 1);
      assert m * |row| == (m - 1) * |row| + |row|;
    }
  }

  /** The first round is the row itself: relation `p < n` is player `p`'s. */
  lemma {:induction false} RoundsPrefix(row: seq<seq<Edge>>, m: nat)
    requires m > 0
    ensures |row| <= |Rounds(row, m)| && Rounds(row, m)[..|row|] == row
  {
    if m > 1 {
      RoundsPrefix(row, m - 1);
      assert Rounds(row, m) == Rounds(row, m - 1) + row;
    }
  }

  /** The repetition adds no new relation and, when there is a round, loses none. */
  lemma {:induction false} RoundsMembers(row: seq<seq<Edge>>, m: nat, x: seq<Edge>)
    ensures x in Rounds(row, m) <==> m > 0 && x in row
  {
    if m > 0 {
      RoundsMembers(row, m - 1, x);
    }
  }

  /** The relations of one level: `n` rounds of every player's relation in order. */
  method RepeatRelations(ws: seq<World>, vis: seq<seq<bool>>, n: nat) returns (rels: seq<seq<Edge>>)
    requires |vis| == n
    ensures rels == Rounds(Relations(ws, vis), n)
  {
    ghost var row := Relations(ws, vis);
    rels := [];
    var rep := 0;
    while rep < n
      invariant 0 <= rep <= n && rels == Rounds(row, rep)
    {
      var p := 0;
      while p < n
        invariant 0 <= p <= n && rels == Rounds(row, rep) + row[..p]
      {
        var edges := BuildEdges(ws, vis[p]);
        assert row[..p + 1] == row[..p] + [edges];
        rels := rels + [edges];
        p := p + 1;
      }
      assert row[..p] == row;
      rep := rep + 1;
    }
  }

  /** Each level's repeated relations, level by level. */
  method RepeatAll(states: seq<seq<World>>, vis: seq<seq<bool>>, n: nat) returns (all: seq<seq<seq<Edge>>>)
    requires |vis| == n
    ensures |all| == |states|
    ensures forall l :: 0 <= l < |states| ==> all[l] == Rounds(Relations(states[l], vis), n)
  {
    all := [];
    var l := 0;
    while l < |states|
      invariant 0 <= l <= |states| && |all| == l
      invariant forall l' :: 0 <= l' < l ==> all[l'] == Rounds(Relations(states[l'], vis), n)
    {
      var row := RepeatRelations(states[l], vis, n);
      all := all + [row];
      l := l + 1;
    }
  }

  class Solver {
    const maxIter: int
    const maxTomLevel: int
    /** The level being played, an index into the puzzle's levels. */
    const currLevel: int
    const puzzle: Puzzle
    /** Per level, the relations as built and then pruned. */
    var allUncertainty: seq<seq<seq<Edge>>>
    /** The graph built when the solver was created. */
    var initGraph: Graph

    constructor Init(iterations: int, maxLevel: int, level: int, p: Puzzle)
      ensures maxIter == iterations && maxTomLevel == maxLevel && currLevel == level && puzzle == p
      ensures allUncertainty == [] && initGraph == Graph([], {})
    {
      maxIter := iterations;
      maxTomLevel := maxLevel;
      currLevel := level;
      puzzle := p;
      allUncertainty := [];
      initGraph := Graph([], {});
    }

    /**
     * `Solver(max_iter, max_tom_level, curr_tom_level, puzzle)`: the
     * solver with its initial graph, or the error building it raises.
     */
    static method New(iterations: int, maxLevel: int, level: int, p: Puzzle) returns (r: Result<Solver, Error>)
      ensures ListIndex(|p.allStates|, level).None? ==> r == Err(IndexError)
      ensures ListIndex(|p.allStates|, level).Some? && !ShapeOk(p.visibility, |p.players|) ==> r == Err(IndexError)
      ensures ListIndex(|p.allStates|, level).Some? && ShapeOk(p.visibility, |p.players|) ==>
        var l := ListIndex(|p.allStates|, level).value;
        var n := |p.players|;
        if ColoursRunOut(n, Relations(p.allStates[l], p.visibility)) then r == Err(IndexError)
        else
          r.Ok? && fresh(r.value) && r.value.puzzle == p && r.value.currLevel == level &&
          r.value.initGraph == Graph(Range(|p.allStates[l]|), EdgeSet(Relations(p.allStates[l], p.visibility))) &&
          |r.value.allUncertainty| == |p.allStates| &&
          forall l' :: 0 <= l' < |p.allStates| ==> r.value.allUncertainty[l'] == Rounds(Relations(p.allStates[l'], p.visibility), n)
    {
      var s := new Solver.Init(iterations, maxLevel, level, p);
      var g := s.GenerateFullModel();
      if g.Err? {
        return Err(g.error);
      }
      s.initGraph := g.value;
      return Ok(s);
    }

    /** `run_model_once`: a concrete solver must provide it; the base always raises. */
    method RunModelOnce() returns (r: Result<string, Error>)
      ensures r == Err(NotImplementedError)
    {
      return Err(NotImplementedError);
    }

    /**
     * `compute_uncertainty()`: after checking the shape of the visibility
     * matrix, the relations of every level of the puzzle.
     */
    method ComputeUncertainty() returns (r: Result<seq<seq<seq<Edge>>>, Error>)
      ensures !ShapeOk(puzzle.visibility, |puzzle.players|) ==> r == Err(IndexError)
      ensures ShapeOk(puzzle.visibility, |puzzle.players|) ==>
        r.Ok? && |r.value| == |puzzle.allStates| &&
        forall l :: 0 <= l < |puzzle.allStates| ==>
          r.value[l] == Rounds(Relations(puzzle.allStates[l], puzzle.visibility), |puzzle.players|)
    {
      var ok := CheckShape(puzzle.visibility, |puzzle.players|);
      if !ok {
        return Err(IndexError);
      }
      var all := RepeatAll(puzzle.allStates, puzzle.visibility, |puzzle.players|);
      return Ok(all);
    }

    /**
     * `update_uncertainty(player_idx, list_states)`: relation `playerIdx`
     * of the current level keeps exactly its pairs with both ends in
     * `listStates`, in order; nothing else changes.  Either index may be
     * out of range.
     */
    method UpdateUncertainty(playerIdx: int, listStates: seq<int>) returns (r: Result<(), Error>)
      modifies this
      ensures initGraph == old(initGraph)
      ensures ListIndex(|old(allUncertainty)|, currLevel).None? ==>
        r == Err(IndexError) && allUncertainty == old(allUncertainty)
      ensures ListIndex(|old(allUncertainty)|, currLevel).Some? ==>
        var l := ListIndex(|old(allUncertainty)|, currLevel).value;
        ListIndex(|old(allUncertainty)[l]|, playerIdx).None? ==>
        r == Err(IndexError) && allUncertainty == old(allUncertainty)
      ensures ListIndex(|old(allUncertainty)|, currLevel).Some? ==>
        var l0 := ListIndex(|old(allUncertainty)|, currLevel).value;
        ListIndex(|old(allUncertainty)[l0]|, playerIdx).Some? ==>
        var l := ListIndex(|old(allUncertainty)|, currLevel).value;
        var p := ListIndex(|old(allUncertainty)[l]|, playerIdx).value;
        r == Ok(()) &&
        allUncertainty == old(allUncertainty)[l := old(allUncertainty)[l][p := Prune(old(allUncertainty)[l][p], listStates)]]
    {
      match ListIndex(|allUncertainty|, currLevel)
      case None =>
        return Err(IndexError);
      case Some(l) =>
        match ListIndex(|allUncertainty[l]|, playerIdx)
        case None =>
          return Err(IndexError);
        case Some(p) =>
          allUncertainty := allUncertainty[l := allUncertainty[l][p := Prune(allUncertainty[l][p], listStates)]];
          return Ok(());
    }

    /**
     * `generate_full_model()`: the level's worlds are counted first, then
     * the relations are rebuilt from scratch, replacing any pruned ones;
     * the graph has a node per world and the pairs of the first `n`
     * relations, one per player.
     */
    method GenerateFullModel() returns (r: Result<Graph, Error>)
      modifies this
      ensures initGraph == old(initGraph)
      ensures ListIndex(|puzzle.allStates|, currLevel).None? ==>
        r == Err(IndexError) && allUncertainty == old(allUncertainty)
      ensures ListIndex(|puzzle.allStates|, currLevel).Some? && !ShapeOk(puzzle.visibility, |puzzle.players|) ==>
        r == Err(IndexError) && allUncertainty == old(allUncertainty)
      ensures ListIndex(|puzzle.allStates|, currLevel).Some? && ShapeOk(puzzle.visibility, |puzzle.players|) ==>
        |allUncertainty| == |puzzle.allStates| &&
        (forall l :: 0 <= l < |puzzle.allStates| ==>
          allUncertainty[l] == Rounds(Relations(puzzle.allStates[l], puzzle.visibility), |puzzle.players|)) &&
        var l := ListIndex(|puzzle.allStates|, currLevel).value;
        var n := |puzzle.players|;
        if ColoursRunOut(n, Relations(puzzle.allStates[l], puzzle.visibility)) then r == Err(IndexError)
        else r == Ok(Graph(Range(|puzzle.allStates[l]|), EdgeSet(Relations(puzzle.allStates[l], puzzle.visibility))))
    {
      var l;
      match ListIndex(|puzzle.allStates|, currLevel)
      case None =>
        return Err(IndexError);
      case Some(i) =>
        l := i;
      var count := |puzzle.allStates[l]|;
      var computed := ComputeUncertainty();
      if computed.Err? {
        return Err(computed.error);
      }
      allUncertainty := computed.value;
      var nodes := NumberNodes(count);
      var n := |puzzle.players|;
      ghost var row := Relations(puzzle.allStates[l], puzzle.visibility);
      if n > 0 {
        RoundsPrefix(row, n);
      }
      assert allUncertainty[l][..n] == row;
      var drawn := DrawEdges(n, allUncertainty[l][..n]);
      if drawn.Err? {
        return Err(drawn.error);
      }
      return Ok(Graph(nodes, drawn.value));
    }
  }
}
