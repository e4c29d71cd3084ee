/**
 * What processing public announcements computes, as functions: the
 * recursive evaluation of an announcement over a set of worlds, one update
 * of the model by an announcement, a run over all announcements of a level,
 * and the reported answer.
 *
 * The dictionary of worlds the Python code evaluates on is modelled by the
 * sequence of its keys, without repetitions, in insertion order.  A
 * formula the evaluation does not handle (a binary operator, a unary
 * operator other than negation) yields Python's `None`, which every caller
 * reads as false; it is modelled as `Ok(false)`.
 */
module Engine {
  import opened Wrappers
  import opened Formulas
  import opened Worlds
  import opened Uncertainty

  function IndexFrom(players: seq<string>, a: string, k: nat): (r: Option<nat>)
    ensures r.Some? ==> k <= r.value < |players| && players[r.value] == a
    ensures r.Some? ==> forall j :: k <= j < r.value ==> players[j] != a
    ensures r.None? ==> forall j :: k <= j < |players| ==> players[j] != a
    decreases |players| - k
  {
    if k >= |players| then None else if players[k] == a then Some(k) else IndexFrom(players, a, k + 1)
  }

  /** `list(players.values()).index(a)`: the first position of `a`, or ValueError. */
  function AgentIndex(players: seq<string>, a: string): (r: Option<nat>)
    ensures r.Some? ==> r.value < |players| && players[r.value] == a
    ensures r.Some? ==> forall j :: 0 <= j < r.value ==> players[j] != a
    ensures r.None? <==> a !in players
  {
    IndexFrom(players, a, 0)
  }

  /**
   * The verdict on a set of `count` candidate worlds: without negation a
   * world is to be removed when the agent does not pin down exactly one
   * candidate; negation flips the verdict.
   */
  function CheckValidity(count: nat, negate: bool): bool
  {
    (count != 1) != negate
  }

  lemma CheckValidityCases(count: nat, negate: bool)
    ensures !negate ==> (CheckValidity(count, negate) <==> count != 1)
    ensures negate ==> (CheckValidity(count, negate) <==> count == 1)
  {
  }

  /**
   * `process_announcement(f, {w: False for w in W}, neg)`: whether the
   * announcement's verdict marks the evaluated world for removal.  An atom
   * checks how many candidates there are, a negation flips the flag, and
   * "agent knows that g" marks when g marks some world the agent holds
   * possible from some world of `W`.
   */
  function Process(f: Formula, rels: seq<seq<Edge>>, players: seq<string>, W: seq<int>, neg: bool)
    : Result<bool, Error>
    decreases f, 1
  {
    match f
    case Atom(_) => Ok(CheckValidity(|W|, neg))
    case Not(g) => Process(g, rels, players, W, !neg)
    case Know(a, g) =>
      if |W| == 0 then Ok(false)
      else (
        match AgentIndex(players, a)
        case None => Err(ValueError)
        case Some(i) => if i >= |rels| then Err(IndexError) else ProcessEach(f, rels, players, rels[i], W, 0, neg))
    case Unary(_, _) => Ok(false)
    case Bin(_, _, _) => Ok(false)
  }

  /**
   * The loop over the worlds `W[k..]` for a knowledge formula `f`: each
   * world's verdict is that of `f.inner` over the worlds reachable from it
   * in `r`; the result is whether any verdict is true.  The first failing
   * world's error propagates.
   */
  function ProcessEach(f: Formula, rels: seq<seq<Edge>>, players: seq<string>, r: seq<Edge>,
                       W: seq<int>, k: nat, neg: bool): Result<bool, Error>
    requires f.Know?
    decreases f, 0, |W| - k
  {
    if k >= |W| then Ok(false)
    else
      match Process(f.inner, rels, players, Accessible(r, W[k]), neg)
      case Err(e) => Err(e)
      case Ok(b) =>
        match ProcessEach(f, rels, players, r, W, k + 1, neg)
        case Err(e) => Err(e)
        case Ok(rest) => Ok(b || rest)
  }

  /** Every agent named in `f` is one of the players. */
  predicate AgentsIn(f: Formula, players: seq<string>)
  {
    match f
    case Atom(_) => true
    case Not(g) => AgentsIn(g, players)
    case Unary(_, g) => AgentsIn(g, players)
    case Know(a, g) => a in players && AgentsIn(g, players)
    case Bin(_, l, r) => AgentsIn(l, players) && AgentsIn(r, players)
  }

  /** Processing fails only when a formula names an agent who is not a player. */
  lemma {:induction false} ProcessOk(f: Formula, rels: seq<seq<Edge>>, players: seq<string>, W: seq<int>, neg: bool)
    requires AgentsIn(f, players) && |rels| >= |players|
    ensures Process(f, rels, players, W, neg).Ok?
    decreases f, 1
  {
    match f
    case Atom(_) =>
    case Not(g) => ProcessOk(g, rels, players, W, !neg);
    case Know(a, g) =>
      if |W| > 0 {
        var i := AgentIndex(players, a).value;
        ProcessEachOk(f, rels, players, rels[i], W, 0, neg);
      }
    case Unary(_, _) =>
    case Bin(_, _, _) =>
  }

  lemma {:induction false} ProcessEachOk(f: Formula, rels: seq<seq<Edge>>, players: seq<string>, r: seq<Edge>,
                                         W: seq<int>, k: nat, neg: bool)
    requires f.Know? && AgentsIn(f, players) && |rels| >= |players|
    ensures ProcessEach(f, rels, players, r, W, k, neg).Ok?
    decreases f, 0, |W| - k
  {
    if k < |W| {
      ProcessOk(f.inner, rels, players, Accessible(r, W[k]), neg);
      ProcessEachOk(f, rels, players, r, W, k + 1, neg);
    }
  }

  /**
   * Where a top-level announcement writes its verdicts: the knowledge
   * formula reached through leading negations, with the negation flag at
   * that point.  An atom or any other operator writes nothing.
   */
  datatype Target = Target(agent: string, inner: Formula, negate: bool)

  function Spine(f: Formula, neg: bool): (t: Option<Target>)
    ensures t.Some? ==> t.value.inner < f
  {
    match f
    case Not(g) => Spine(g, !neg)
    case Know(a, g) => Some(Target(a, g, neg))
    case _ => None
  }

  /** The verdict written for world `w`. */
  function Mark(t: Target, rels: seq<seq<Edge>>, players: seq<string>, r: seq<Edge>, w: int): Result<bool, Error>
  {
    Process(t.inner, rels, players, Accessible(r, w), t.negate)
  }

  /** The verdicts for `nodes[k..]`, in order; the first failure propagates. */
  function MarksFrom(t: Target, rels: seq<seq<Edge>>, players: seq<string>, r: seq<Edge>,
                     nodes: seq<int>, k: nat): (ms: Result<seq<bool>, Error>)
    ensures ms.Ok? ==> |ms.value| == |nodes| - k || (k > |nodes| && ms.value == [])
    decreases |nodes| - k
  {
    if k >= |nodes| then Ok([])
    else
      match Mark(t, rels, players, r, nodes[k])
      case Err(e) => Err(e)
      case Ok(b) =>
        match MarksFrom(t, rels, players, r, nodes, k + 1)
        case Err(e) => Err(e)
        case Ok(bs) => Ok([b] + bs)
  }

  lemma {:induction false} MarksFromAt(t: Target, rels: seq<seq<Edge>>, players: seq<string>, r: seq<Edge>,
                                       nodes: seq<int>, k: nat)
    requires k <= |nodes|
    ensures MarksFrom(t, rels, players, r, nodes, k).Ok? <==>
      forall j :: k <= j < |nodes| ==> Mark(t, rels, players, r, nodes[j]).Ok?
    ensures MarksFrom(t, rels, players, r, nodes, k).Ok? ==>
      forall j :: k <= j < |nodes| ==>
        MarksFrom(t, rels, players, r, nodes, k).value[j - k] == Mark(t, rels, players, r, nodes[j]).value
    decreases |nodes| - k
  {
    if k < |nodes| {
      MarksFromAt(t, rels, players, r, nodes, k + 1);
    }
  }

  /** The nodes whose verdict is false, in order. */
  function Unmarked(nodes: seq<int>, ms: seq<bool>): (kept: seq<int>)
    requires |ms| == |nodes|
    ensures |kept| <= |nodes|
    ensures forall x :: x in kept ==> x in nodes
  {
    if |nodes| == 0 then []
    else (if ms[0] then [] else [nodes[0]]) + Unmarked(nodes[1..], ms[1..])
  }

  lemma {:induction false} UnmarkedMember(nodes: seq<int>, ms: seq<bool>, x: int)
    requires |ms| == |nodes|
    ensures x in Unmarked(nodes, ms) <==> exists k :: 0 <= k < |nodes| && nodes[k] == x && !ms[k]
  {
    if |nodes| > 0 {
      var tail := Unmarked(nodes[1..], ms[1..]);
      UnmarkedMember(nodes[1..], ms[1..], x);
      var head: seq<int> := if ms[0] then [] else [nodes[0]];
      assert Unmarked(nodes, ms) == head + tail;
      if x in head + tail {
        if x in head {
          assert nodes[0] == x && !ms[0];
        } else {
          var k :| 0 <= k < |nodes[1..]| && nodes[1..][k] == x && !ms[1..][k];
          assert nodes[k + 1] == x && !ms[k + 1];
        }
      }
      if exists k :: 0 <= k < |nodes| && nodes[k] == x && !ms[k] {
        var k :| 0 <= k < |nodes| && nodes[k] == x && !ms[k];
        if k > 0 {
          assert nodes[1..][k - 1] == x && !ms[1..][k - 1];
          assert x in tail;
        } else {
          assert x in head;
        }
        assert x in head + tail;
      }
    }
  }

  lemma {:induction false} UnmarkedDistinct(nodes: seq<int>, ms: seq<bool>)
    requires |ms| == |nodes| && NoDuplicates(nodes)
    ensures NoDuplicates(Unmarked(nodes, ms))
  {
    if |nodes| > 0 {
      var tail := Unmarked(nodes[1..], ms[1..]);
      UnmarkedDistinct(nodes[1..], ms[1..]);
      forall y | y in tail
        ensures y != nodes[0]
      {
        UnmarkedMember(nodes[1..], ms[1..], y);
        var k :| 0 <= k < |nodes[1..]| && nodes[1..][k] == y && !ms[1..][k];
        assert nodes[k + 1] == y;
      }
      var head: seq<int> := if ms[0] then [] else [nodes[0]];
      assert Unmarked(nodes, ms) == head + tail;
      forall a, b | 0 <= a < b < |head + tail|
        ensures (head + tail)[a] != (head + tail)[b]
      {
        assert (head + tail)[b] == tail[b - |head|];
        if a < |head| {
          assert tail[b - |head|] in tail;
        } else {
          assert (head + tail)[a] == tail[a - |head|];
        }
      }
    }
  }

  /**
   * One announcement followed by the model update: the worlds whose
   * verdict is true are removed.  An announcement that writes no verdict
   * removes nothing; an empty model raises nothing.
   */
  function Step(f: Formula, rels: seq<seq<Edge>>, players: seq<string>, nodes: seq<int>)
    : (r: Result<seq<int>, Error>)
    ensures r.Ok? ==> |r.value| <= |nodes| && forall x :: x in r.value ==> x in nodes
  {
    match Spine(f, false)
    case None => Ok(nodes)
    case Some(t) =>
      if |nodes| == 0 then Ok(nodes)
      else
        match AgentIndex(players, t.agent)
        case None => Err(ValueError)
        case Some(i) =>
          if i >= |rels| then Err(IndexError)
          else
            match MarksFrom(t, rels, players, rels[i], nodes, 0)
            case Err(e) => Err(e)
            case Ok(ms) => Ok(Unmarked(nodes, ms))
  }

  /** Every player's relation pruned to the surviving worlds. */
  function PruneAll(rels: seq<seq<Edge>>, keep: seq<int>): (out: seq<seq<Edge>>)
    ensures |out| == |rels|
    ensures forall p :: 0 <= p < |rels| ==> out[p] == Prune(rels[p], keep)
  {
    seq(|rels|, p requires 0 <= p < |rels| => Prune(rels[p], keep))
  }

  /** All announcements of a level in turn: the surviving worlds and the pruned relations. */
  function Run(anns: seq<Formula>, rels: seq<seq<Edge>>, players: seq<string>, nodes: seq<int>)
    : Result<(seq<int>, seq<seq<Edge>>), Error>
  {
    if |anns| == 0 then Ok((nodes, rels))
    else
      match Step(anns[0], rels, players, nodes)
      case Err(e) => Err(e)
      case Ok(kept) => Run(anns[1..], PruneAll(rels, kept), players, kept)
  }

  /** The reported answer for the surviving worlds. */
  function Answer(ws: seq<World>, nodes: seq<int>): Result<string, Error>
  {
    if |nodes| == 0 then Ok("No solution")
    else if |nodes| == 1 then
      (if 0 <= nodes[0] < |ws| then Ok(FormatState(ws[nodes[0]])) else Err(IndexError))
    else Ok("Multiple solutions")
  }

  /** The answer of a whole run. */
  function Solve(ws: seq<World>, anns: seq<Formula>, rels: seq<seq<Edge>>, players: seq<string>, nodes: seq<int>)
    : Result<string, Error>
  {
    match Run(anns, rels, players, nodes)
    case Err(e) => Err(e)
    case Ok((kept, _)) => Answer(ws, kept)
  }

  // ---------------------------------------------------------------------
  // properties
  // ---------------------------------------------------------------------

  /**
   * The three kinds of answer can be told apart: the two fixed messages
   * stand for zero and for several surviving worlds, and a single
   * survivor's label reads back as that world.
   */
  lemma AnswerClassifies(ws: seq<World>, nodes: seq<int>)
    ensures Answer(ws, nodes) == Ok("No solution") <==> |nodes| == 0
    ensures Answer(ws, nodes) == Ok("Multiple solutions") <==> |nodes| >= 2
    ensures |nodes| == 1 && 0 <= nodes[0] < |ws| ==>
      Answer(ws, nodes).Ok? && ParseState(Answer(ws, nodes).value) == Some(ws[nodes[0]])
  {
    VerdictsApart("No solution", "Multiple solutions");
    if |nodes| == 1 && 0 <= nodes[0] < |ws| {
      var w := ws[nodes[0]];
      LabelHasComma(w);
      ParseFormat(w);
    }
  }

  /** The two verdicts differ from each other and from every label. */
  lemma VerdictsApart(none: string, many: string)
    requires none == "No solution" && many == "Multiple solutions"
    ensures none != many && ',' !in none && ',' !in many
  {
    assert none[0] != many[0];
  }

  /** An announcement removes exactly the worlds whose written verdict is true. */
  lemma StepRemovesMarked(f: Formula, rels: seq<seq<Edge>>, players: seq<string>, nodes: seq<int>, x: int)
    requires NoDuplicates(nodes) && |nodes| > 0
    requires Spine(f, false).Some?
    requires AgentIndex(players, Spine(f, false).value.agent).Some?
    requires AgentIndex(players, Spine(f, false).value.agent).value < |rels|
    requires Step(f, rels, players, nodes).Ok?
    ensures x in Step(f, rels, players, nodes).value <==>
      x in nodes && Mark(Spine(f, false).value, rels, players,
                         rels[AgentIndex(players, Spine(f, false).value.agent).value], x) == Ok(false)
    ensures NoDuplicates(Step(f, rels, players, nodes).value)
  {
    var t := Spine(f, false).value;
    var i := AgentIndex(players, t.agent).value;
    var ms := MarksFrom(t, rels, players, rels[i], nodes, 0).value;
    MarksFromAt(t, rels, players, rels[i], nodes, 0);
    UnmarkedMember(nodes, ms, x);
    UnmarkedDistinct(nodes, ms);
    if x in nodes {
      var k :| 0 <= k < |nodes| && nodes[k] == x;
      if Mark(t, rels, players, rels[i], x) == Ok(false) {
        assert !ms[k];
      }
    }
  }

  /** An announcement that writes no verdict (an atom, a binary operator, ...) removes nothing. */
  lemma StepWithoutTarget(f: Formula, rels: seq<seq<Edge>>, players: seq<string>, nodes: seq<int>)
    requires Spine(f, false).None?
    ensures Step(f, rels, players, nodes) == Ok(nodes)
  {
  }

  /**
   * After a run, the surviving worlds are among the initial ones, appear
   * once each, and every player's relation is the initial relation pruned
   * to them: no pair mentions a removed world.
   */
  lemma {:induction false} RunShrinks(anns: seq<Formula>, rels: seq<seq<Edge>>, players: seq<string>, nodes: seq<int>)
    requires NoDuplicates(nodes)
    requires forall p, e :: 0 <= p < |rels| && e in rels[p] ==> e.0 in nodes && e.1 in nodes
    requires Run(anns, rels, players, nodes).Ok?
    ensures forall x :: x in Run(anns, rels, players, nodes).value.0 ==> x in nodes
    ensures NoDuplicates(Run(anns, rels, players, nodes).value.0)
    ensures Run(anns, rels, players, nodes).value.1 ==
      PruneAll(rels, Run(anns, rels, players, nodes).value.0)
  {
    if |anns| == 0 {
      forall p | 0 <= p < |rels|
        ensures Prune(rels[p], nodes) == rels[p]
      {
        PruneKeepsAll(rels[p], nodes);
      }
    } else {
      var kept := Step(anns[0], rels, players, nodes).value;
      StepKeepsDistinct(anns[0], rels, players, nodes);
      var rels' := PruneAll(rels, kept);
      RunShrinks(anns[1..], rels', players, kept);
      var final := Run(anns, rels, players, nodes).value.0;
      forall p | 0 <= p < |rels|
        ensures Prune(rels'[p], final) == Prune(rels[p], final)
      {
        PruneTwice(rels[p], kept, final);
      }
    }
  }

  lemma StepKeepsDistinct(f: Formula, rels: seq<seq<Edge>>, players: seq<string>, nodes: seq<int>)
    requires NoDuplicates(nodes)
    requires Step(f, rels, players, nodes).Ok?
    ensures NoDuplicates(Step(f, rels, players, nodes).value)
  {
    match Spine(f, false)
    case None =>
    case Some(t) =>
      if |nodes| > 0 {
        var i := AgentIndex(players, t.agent).value;
        var ms := MarksFrom(t, rels, players, rels[i], nodes, 0).value;
        UnmarkedDistinct(nodes, ms);
      }
  }

  /** Leading negations only flip the flag: evaluating the announcement is evaluating its target's knowledge formula. */
  lemma {:induction false} SpineProcess(f: Formula, rels: seq<seq<Edge>>, players: seq<string>, W: seq<int>, neg: bool)
    requires Spine(f, neg).Some?
    ensures Process(f, rels, players, W, neg) ==
      Process(Know(Spine(f, neg).value.agent, Spine(f, neg).value.inner), rels, players, W, Spine(f, neg).value.negate)
  {
    match f
    case Not(g) => SpineProcess(g, rels, players, W, !neg);
    case Know(_, _) =>
  }

  /** An announcement without a target never fails. */
  lemma {:induction false} NoTargetOk(f: Formula, rels: seq<seq<Edge>>, players: seq<string>, W: seq<int>, neg: bool)
    requires Spine(f, neg).None?
    ensures Process(f, rels, players, W, neg).Ok?
  {
    match f
    case Not(g) => NoTargetOk(g, rels, players, W, !neg);
    case Atom(_) =>
    case Unary(_, _) =>
    case Bin(_, _, _) =>
  }

  /**
   * The loop over worlds and the list of verdicts agree: both fail with the
   * first failing world's error, and otherwise the loop's result is whether
   * some verdict is true.
   */
  lemma {:induction false} EachMarks(a: string, g: Formula, rels: seq<seq<Edge>>, players: seq<string>, r: seq<Edge>,
                                     W: seq<int>, k: nat, neg: bool)
    ensures ProcessEach(Know(a, g), rels, players, r, W, k, neg).Err? <==>
      MarksFrom(Target(a, g, neg), rels, players, r, W, k).Err?
    ensures ProcessEach(Know(a, g), rels, players, r, W, k, neg).Err? ==>
      ProcessEach(Know(a, g), rels, players, r, W, k, neg).error ==
      MarksFrom(Target(a, g, neg), rels, players, r, W, k).error
    ensures ProcessEach(Know(a, g), rels, players, r, W, k, neg).Ok? ==>
      (ProcessEach(Know(a, g), rels, players, r, W, k, neg).value <==>
       true in MarksFrom(Target(a, g, neg), rels, players, r, W, k).value)
    decreases |W| - k
  {
    if k < |W| {
      EachMarks(a, g, rels, players, r, W, k + 1, neg);
    }
  }

  /**
   * The model update fails exactly when evaluating the announcement over
   * the current worlds fails, and with the same error.
   */
  lemma ProcessStep(f: Formula, rels: seq<seq<Edge>>, players: seq<string>, nodes: seq<int>)
    ensures Step(f, rels, players, nodes).Err? <==> Process(f, rels, players, nodes, false).Err?
    ensures Step(f, rels, players, nodes).Err? ==>
      Step(f, rels, players, nodes).error == Process(f, rels, players, nodes, false).error
  {
    match Spine(f, false)
    case None =>
      NoTargetOk(f, rels, players, nodes, false);
    case Some(t) =>
      SpineProcess(f, rels, players, nodes, false);
      if |nodes| > 0 && AgentIndex(players, t.agent).Some? && AgentIndex(players, t.agent).value < |rels| {
        EachMarks(t.agent, t.inner, rels, players, rels[AgentIndex(players, t.agent).value], nodes, 0, t.negate);
      }
  }

  /** Keeping the unmarked nodes one at a time, from the front. */
  lemma {:induction false} UnmarkedSnoc(nodes: seq<int>, ms: seq<bool>, x: int, b: bool)
    requires |ms| == |nodes|
    ensures Unmarked(nodes + [x], ms + [b]) == Unmarked(nodes, ms) + (if b then [] else [x])
  {
    if |nodes| > 0 {
      assert (nodes + [x])[1..] == nodes[1..] + [x];
      assert (ms + [b])[1..] == ms[1..] + [b];
      UnmarkedSnoc(nodes[1..], ms[1..], x, b);
    }
  }

  /** With no verdict true, every node is kept. */
  lemma {:induction false} UnmarkedNone(nodes: seq<int>, ms: seq<bool>)
    requires |ms| == |nodes| && forall k :: 0 <= k < |ms| ==> !ms[k]
    ensures Unmarked(nodes, ms) == nodes
  {
    if |nodes| > 0 {
      UnmarkedNone(nodes[1..], ms[1..]);
    }
  }
}
