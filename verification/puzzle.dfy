/**
 * The puzzle: four levels of ten candidate birthdays each, the players and
 * what each of them sees, the announcements of every level, and every
 * player's uncertainty per level, pruned in place as worlds are removed.
 */
module Puzzles {
  import opened Wrappers
  import opened Formulas
  import opened Worlds
  import opened Uncertainty

  function StatesLevelOne(): seq<World>
  {
    [World(May, 15), World(May, 16), World(June, 17), World(June, 18),
     World(July, 14), World(July, 16), World(August, 14), World(August, 17),
     World(Sept, 16), World(Sept, 18)]
  }

  function StatesLevelTwo(): seq<World>
  {
    [World(May, 17), World(May, 18), World(June, 14), World(July, 16),
     World(July, 18), World(August, 15), World(August, 16), World(August, 17),
     World(Sept, 14), World(Sept, 15)]
  }

  function StatesLevelThree(): seq<World>
  {
    [World(May, 15), World(May, 18), World(June, 15), World(June, 17),
     World(July, 14), World(July, 16), World(August, 14), World(August, 16),
     World(Sept, 15), World(Sept, 16)]
  }

  function StatesLevelFour(): seq<World>
  {
    [World(May, 15), World(May, 18), World(June, 14), World(June, 15),
     World(July, 17), World(July, 18), World(August, 16), World(August, 17),
     World(Sept, 16), World(Sept, 17)]
  }

  /** The worlds of every level, in level order. */
  function AllStates(): (r: seq<seq<World>>)
    ensures |r| == 4 && forall l :: 0 <= l < 4 ==> |r[l]| == 10
  {
    [StatesLevelOne(), StatesLevelTwo(), StatesLevelThree(), StatesLevelFour()]
  }

  /** No level lists the same birthday twice. */
  lemma AllStatesDistinct()
    ensures forall l :: 0 <= l < |AllStates()| ==> Distinct(AllStates()[l])
  {
    assert Distinct(StatesLevelOne());
    assert Distinct(StatesLevelTwo());
    assert Distinct(StatesLevelThree());
    assert Distinct(StatesLevelFour());
  }

  /** "`a` knows the birthday." */
  function Knows(a: string): Formula
  {
    Know(a, Atom("b"))
  }

  /**
   * The announcements of every level, for the players named `p0` and `p1`
   * (the first two players):
   *   1. p1 knows;
   *   2. p0 does not know; then p1 knows;
   *   3. p0 knows that p1 does not know; then p1 knows;
   *   4. p1 knows that p0 knows that p1 does not know; then p0 knows.
   */
  function AllAnnouncements(p0: string, p1: string): (r: seq<seq<Formula>>)
    ensures |r| == 4
  {
    [[Knows(p1)],
     [Not(Knows(p0)), Knows(p1)],
     [Know(p0, Not(Knows(p1))), Knows(p1)],
     [Know(p1, Know(p0, Not(Knows(p1)))), Knows(p0)]]
  }

  /**
   * The announcements' ToM levels: 1; 1, 1; 2, 1; 3, 1.  The second level
   * adds a negated announcement but no higher order.
   */
  lemma AnnouncementLevels(p0: string, p1: string)
    requires p0 != p1
    ensures forall l, k :: 0 <= l < 4 && 0 <= k < |AllAnnouncements(p0, p1)[l]| ==>
      TomLevel(AllAnnouncements(p0, p1)[l][k]) == [[1], [1, 1], [2, 1], [3, 1]][l][k]
  {
    var a := AllAnnouncements(p0, p1);
    assert TomLevel(Knows(p0)) == 1;
    assert TomLevel(Knows(p1)) == 1;
    assert TomLevel(Not(Knows(p0))) == 1;
    assert TomLevel(Know(p0, Not(Knows(p1)))) == 2;
    assert TomLevel(Know(p1, Know(p0, Not(Knows(p1))))) == 3;
    forall l, k | 0 <= l < 4 && 0 <= k < |a[l]|
      ensures TomLevel(a[l][k]) == [[1], [1, 1], [2, 1], [3, 1]][l][k]
    {
      if l == 0 {
      } else if l == 1 {
      } else if l == 2 {
      } else {
      }
    }
  }

  /** `visibility` is a square matrix with one row and one column per player. */
  predicate ShapeOk(visibility: seq<seq<bool>>, n: nat)
  {
    |visibility| == n && forall p :: 0 <= p < |visibility| ==> |visibility[p]| == n
  }

  /** The initial Kripke graph: the worlds of the current level and every player's pairs. */
  datatype Graph = Graph(nodes: seq<int>, edges: set<Edge>)

  /** The pairs of all players' relations together, as the directed graph stores them. */
  function EdgeSet(rels: seq<seq<Edge>>): set<Edge>
  {
    set p, e | 0 <= p < |rels| && e in rels[p] :: e
  }

  /**
   * Whether drawing the relations runs out of the six edge colours: a
   * reflexive pair takes the colour after the players' own, any other pair
   * the colour of its player.
   */
  predicate ColoursRunOut(n: nat, rels: seq<seq<Edge>>)
  {
    exists p, e :: 0 <= p < |rels| && e in rels[p] && NoColour(n, p, e)
  }

  /**
   * Pair `e` of player `p` has no colour among six: a reflexive pair indexes
   * the list at the number of players `n`, any other pair at `p`.
   */
  predicate NoColour(n: nat, p: int, e: Edge)
  {
    (e.0 == e.1 && n >= 6) || (e.0 != e.1 && p >= 6)
  }

  class Puzzle {
    const allStates: seq<seq<World>>
    const players: seq<string>
    const visibility: seq<seq<bool>>
    const allAnnouncements: seq<seq<Formula>>
    /** Per level, per player: the player's relation, pruned as worlds are removed. */
    var allUncertainty: seq<seq<seq<Edge>>>
    /** The level being played; `None` until one is set. */
    var currLevel: Option<int>

    /**
     * One list of announcements per level, at least two players, a view
     * per player, and per level one relation per player, each a pruned
     * form of the relation built from the player's view.
     */
    ghost predicate Valid()
      reads this
    {
      |allAnnouncements| == |allStates| && |players| >= 2 && ShapeOk(visibility, |players|) &&
      |allUncertainty| == |allStates| &&
      forall l :: 0 <= l < |allUncertainty| ==>
        |allUncertainty[l]| == |players| &&
        forall p :: 0 <= p < |players| ==>
          Coherent(allUncertainty[l][p], Edges(allStates[l], visibility[p]))
    }

    /** The constructor's work once the players and their views are known to fit. */
    constructor Init(listPlayers: seq<string>, vis: seq<seq<bool>>, level: Option<int>)
      requires |listPlayers| >= 2 && ShapeOk(vis, |listPlayers|)
      ensures Valid()
      ensures allStates == AllStates() && allAnnouncements == AllAnnouncements(listPlayers[0], listPlayers[1])
      ensures players == listPlayers && visibility == vis && currLevel == level
      ensures forall l :: 0 <= l < 4 ==> allUncertainty[l] == Relations(allStates[l], vis)
    {
      var states := AllStates();
      var all := BuildAll(states, vis);
      allStates := states;
      players := listPlayers;
      visibility := vis;
      allUncertainty := all;
      allAnnouncements := AllAnnouncements(listPlayers[0], listPlayers[1]);
      currLevel := level;
      new;
      forall l, p | 0 <= l < 4 && 0 <= p < |players|
        ensures Coherent(allUncertainty[l][p], Edges(allStates[l], visibility[p]))
      {
        EdgesCoherent(allStates[l], visibility[p]);
      }
    }

    /**
     * `Puzzle(list_players, visibility, level)`: the relations are computed
     * first, so a visibility of the wrong shape raises IndexError as soon as
     * there is one player; then the announcements name the second player,
     * a KeyError with fewer than two.
     */
    static method New(listPlayers: seq<string>, vis: seq<seq<bool>>, level: Option<int>)
      returns (r: Result<Puzzle, Error>)
      ensures |listPlayers| >= 1 && !ShapeOk(vis, |listPlayers|) ==> r == Err(IndexError)
      ensures (|listPlayers| == 0 || ShapeOk(vis, |listPlayers|)) && |listPlayers| < 2 ==> r == Err(KeyError)
      ensures |listPlayers| >= 2 && ShapeOk(vis, |listPlayers|) ==>
        r.Ok? && fresh(r.value) && r.value.Valid() &&
        r.value.allStates == AllStates() &&
        r.value.allAnnouncements == AllAnnouncements(listPlayers[0], listPlayers[1]) &&
        r.value.players == listPlayers && r.value.visibility == vis && r.value.currLevel == level &&
        forall l :: 0 <= l < 4 ==> r.value.allUncertainty[l] == Relations(AllStates()[l], vis)
    {
      if |listPlayers| >= 1 {
        var ok := CheckShape(vis, |listPlayers|);
        if !ok {
          return Err(IndexError);
        }
      }
      if |listPlayers| < 2 {
        return Err(KeyError);
      }
      var puzzle := new Puzzle.Init(listPlayers, vis, level);
      return Ok(puzzle);
    }

    /** `set_level` */
    method SetLevel(level: Option<int>)
      requires Valid()
      modifies this
      ensures Valid() && currLevel == level && allUncertainty == old(allUncertainty)
    {
      currLevel := level;
    }

    /**
     * `compute_uncertainty(player_idx, possible_worlds)`: the player's
     * relation over the given worlds, after checking the shape of the
     * visibility matrix.
     */
    method ComputeUncertainty(playerIdx: int, worlds: seq<World>) returns (r: Result<seq<Edge>, Error>)
      ensures !ShapeOk(visibility, |players|) ==> r == Err(IndexError)
      ensures ShapeOk(visibility, |players|) && ListIndex(|visibility|, playerIdx).None? ==> r == Err(IndexError)
      ensures ShapeOk(visibility, |players|) && ListIndex(|visibility|, playerIdx).Some? ==>
        r == Ok(Edges(worlds, visibility[ListIndex(|visibility|, playerIdx).value]))
    {
      var ok := CheckShape(visibility, |players|);
      if !ok {
        return Err(IndexError);
      }
      match ListIndex(|visibility|, playerIdx)
      case None =>
        return Err(IndexError);
      case Some(i) =>
        var edges := BuildEdges(worlds, visibility[i]);
        return Ok(edges);
    }

    /**
     * `update_uncertainty(player_idx, list_states)`: the player's relation
     * at the current level keeps exactly its pairs with both ends in
     * `listStates`, in order; nothing else changes.
     */
    method UpdateUncertainty(playerIdx: int, listStates: seq<int>) returns (r: Result<(), Error>)
      requires Valid()
      modifies this
      ensures Valid() && currLevel == old(currLevel)
      ensures LevelIndex(|allStates|, currLevel).Err? ==>
        r == Err(LevelIndex(|allStates|, currLevel).error) && allUncertainty == old(allUncertainty)
      ensures LevelIndex(|allStates|, currLevel).Ok? && ListIndex(|players|, playerIdx).None? ==>
        r == Err(IndexError) && allUncertainty == old(allUncertainty)
      ensures LevelIndex(|allStates|, currLevel).Ok? && ListIndex(|players|, playerIdx).Some? ==>
        var l := LevelIndex(|allStates|, currLevel).value;
        var p := ListIndex(|players|, playerIdx).value;
        r == Ok(()) &&
        allUncertainty == old(allUncertainty)[l := old(allUncertainty)[l][p := Prune(old(allUncertainty)[l][p], listStates)]]
    {
      match LevelIndex(|allStates|, currLevel)
      case Err(e) =>
        return Err(e);
      case Ok(l) =>
        match ListIndex(|players|, playerIdx)
        case None =>
          return Err(IndexError);
        case Some(p) =>
          var initial := allUncertainty[l][p];
          PruneCoherent(initial, Edges(allStates[l], visibility[p]), listStates);
          allUncertainty := allUncertainty[l := allUncertainty[l][p := Prune(initial, listStates)]];
          return Ok(());
    }

    /**
     * `generate_full_model()`: one node per world of the current level,
     * numbered from 0 in order, and every player's pairs at that level.
     * Running out of edge colours is an IndexError.
     */
    method GenerateFullModel() returns (r: Result<Graph, Error>)
      requires Valid()
      ensures LevelIndex(|allStates|, currLevel).Err? ==> r == Err(LevelIndex(|allStates|, currLevel).error)
      ensures LevelIndex(|allStates|, currLevel).Ok? ==>
        var l := LevelIndex(|allStates|, currLevel).value;
        if ColoursRunOut(|players|, allUncertainty[l]) then r == Err(IndexError)
        else r == Ok(Graph(Range(|allStates[l]|), EdgeSet(allUncertainty[l])))
      ensures r.Ok? ==> forall e :: e in r.value.edges ==> e.0 in r.value.nodes && e.1 in r.value.nodes
    {
      var l;
      match LevelIndex(|allStates|, currLevel)
      case Err(e) =>
        return Err(e);
      case Ok(i) =>
        l := i;
      var nodes := NumberNodes(|allStates[l]|);
      var drawn := DrawEdges(|players|, allUncertainty[l]);
      if drawn.Err? {
        return Err(drawn.error);
      }
      var edges := drawn.value;
      forall e | e in edges
        ensures e.0 in nodes && e.1 in nodes
      {
        var q :| 0 <= q < |allUncertainty[l]| && e in allUncertainty[l][q];
        EdgesInRange(allStates[l], visibility[q]);
        assert nodes[e.0] == e.0 && nodes[e.1] == e.1;
      }
      return Ok(Graph(nodes, edges));
    }
  }

  /** The relations of every player at every level, built level by level and player by player. */
  method BuildAll(states: seq<seq<World>>, vis: seq<seq<bool>>) returns (all: seq<seq<seq<Edge>>>)
    ensures |all| == |states|
    ensures forall l :: 0 <= l < |states| ==> all[l] == Relations(states[l], vis)
  {
    all := [];
    var l := 0;
    while l < |states|
      invariant 0 <= l <= |states| && |all| == l
      invariant forall l' :: 0 <= l' < l ==> all[l'] == Relations(states[l'], vis)
    {
      var row: seq<seq<Edge>> := [];
      var p := 0;
      while p < |vis|
        invariant 0 <= p <= |vis| && |row| == p
        invariant forall p' :: 0 <= p' < p ==> row[p'] == Edges(states[l], vis[p'])
      {
        var edges := BuildEdges(states[l], vis[p]);
        row := row + [edges];
        p := p + 1;
      }
      all := all + [row];
      l := l + 1;
    }
  }

  /** `G.add_node(i)` for every world index `i`, in order. */
  method NumberNodes(n: nat) returns (nodes: seq<int>)
    ensures nodes == Range(n)
  {
    nodes := [];
    var i := 0;
    while i < n
      invariant 0 <= i <= n && nodes == Range(i)
    {
      nodes := nodes + [i];
      i := i + 1;
    }
  }

  /**
   * `G.add_edge` for every player's pairs in turn, picking each pair's
   * colour; the first pair without a colour raises IndexError.
   */
  method DrawEdges(n: nat, rels: seq<seq<Edge>>) returns (r: Result<set<Edge>, Error>)
    ensures ColoursRunOut(n, rels) ==> r == Err(IndexError)
    ensures !ColoursRunOut(n, rels) ==> r == Ok(EdgeSet(rels))
  {
    var edges: set<Edge> := {};
    var p := 0;
    while p < |rels|
      invariant 0 <= p <= |rels|
      invariant edges == EdgeSet(rels[..p])
      invariant !ColoursRunOut(n, rels[..p])
    {
      var rel := rels[p];
      var k := 0;
      while k < |rel|
        invariant 0 <= k <= |rel|
        invariant edges == EdgeSet(rels[..p]) + Members(rel[..k])
        invariant forall j :: 0 <= j < k ==> !NoColour(n, p, rel[j])
      {
        if NoColour(n, p, rel[k]) {
          ColoursRunOutAt(n, rels, p, rel[k]);
          return Err(IndexError);
        }
        assert Members(rel[..k + 1]) == Members(rel[..k]) + {rel[k]} by {
          assert rel[..k + 1] == rel[..k] + [rel[k]];
        }
        edges := edges + {rel[k]};
        k := k + 1;
      }
      assert rel[..k] == rel;
      EdgeSetStep(rels, p);
      ColoursStep(n, rels, p);
      p := p + 1;
    }
    assert rels[..p] == rels;
    return Ok(edges);
  }

  /** The loop that checks every row of the visibility matrix. */
  method CheckShape(visibility: seq<seq<bool>>, n: nat) returns (ok: bool)
    ensures ok <==> ShapeOk(visibility, n)
  {
    if |visibility| != n {
      return false;
    }
    var k := 0;
    while k < |visibility|
      invariant 0 <= k <= |visibility|
      invariant forall j :: 0 <= j < k ==> |visibility[j]| == n
    {
      if |visibility[k]| != n {
        return false;
      }
      k := k + 1;
    }
    return true;
  }

  lemma ColoursRunOutAt(n: nat, rels: seq<seq<Edge>>, p: nat, e: Edge)
    requires p < |rels| && e in rels[p]
    requires NoColour(n, p, e)
    ensures ColoursRunOut(n, rels)
  {
  }

  /** The pairs of one relation, as a set. */
  function Members(r: seq<Edge>): set<Edge>
  {
    set e | e in r
  }

  lemma EdgeSetStep(rels: seq<seq<Edge>>, p: nat)
    requires p < |rels|
    ensures EdgeSet(rels[..p + 1]) == EdgeSet(rels[..p]) + Members(rels[p])
  {
    assert rels[..p + 1][p] == rels[p];
    forall e | e in EdgeSet(rels[..p + 1])
      ensures e in EdgeSet(rels[..p]) || e in rels[p]
    {
      var q :| 0 <= q < p + 1 && e in rels[..p + 1][q];
      if q < p {
        assert rels[..p][q] == rels[q];
      }
    }
    forall e | e in EdgeSet(rels[..p])
      ensures e in EdgeSet(rels[..p + 1])
    {
      var q :| 0 <= q < p && e in rels[..p][q];
      assert rels[..p + 1][q] == rels[q];
    }
  }

  lemma ColoursStep(n: nat, rels: seq<seq<Edge>>, p: nat)
    requires p < |rels|
    requires !ColoursRunOut(n, rels[..p])
    requires forall j :: 0 <= j < |rels[p]| ==> !NoColour(n, p, rels[p][j])
    ensures !ColoursRunOut(n, rels[..p + 1])
  {
    forall q, e | 0 <= q < p + 1 && e in rels[..p + 1][q]
      ensures !NoColour(n, q, e)
    {
      if q < p {
        assert rels[..p + 1][q] == rels[..p][q];
      } else {
        assert rels[..p + 1][q] == rels[p];
        var j :| 0 <= j < |rels[p]| && rels[p][j] == e;
      }
    }
  }

}
