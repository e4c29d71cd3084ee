/**
 * The puzzle as the driver sets it up — players "Al" and "Be", Al seeing
 * the month and Be the day — solved at every level.
 *
 * The lemmas below evaluate the reference semantics on the concrete tables
 * one step at a time.  Each takes its tables, formulas and world lists as
 * parameters fixed by `requires x == <literal>` rather than writing the
 * literals into its body.  The verifier unfolds a function applied to
 * literals as far as it can, which on these ten-world tables blows up;
 * with the literals behind parameters, each lemma unfolds only the steps
 * its own asserts name, and the chain of small lemmas carries the rest.
 */
module Regression {
  import opened Wrappers
  import opened Text
  import opened Formulas
  import opened Worlds
  import opened Uncertainty
  import opened Engine
  import opened Kripke
  import opened Puzzles

  function DefaultPlayers(): seq<string> { ["Al", "Be"] }

  function DefaultVisibility(): seq<seq<bool>> { [[true, false], [false, true]] }

  lemma CountOne0B0(ws: seq<World>, alive: seq<int>)
    requires ws == StatesLevelOne()
    requires alive == [0, 1, 2, 3, 4, 5, 6, 7, 8, 9]
    ensures CountFrom(ws, [false, true], alive, 0, 0) == 1
  {
    assert CountFrom(ws, [false, true], alive, 0, 9) == 0;
    assert CountFrom(ws, [false, true], alive, 0, 8) == 0;
    assert CountFrom(ws, [false, true], alive, 0, 7) == 0;
    assert CountFrom(ws, [false, true], alive, 0, 6) == 0;
    assert CountFrom(ws, [false, true], alive, 0, 5) == 0;
    assert CountFrom(ws, [false, true], alive, 0, 4) == 0;
    assert CountFrom(ws, [false, true], alive, 0, 3) == 0;
    assert CountFrom(ws, [false, true], alive, 0, 2) == 0;
    assert CountFrom(ws, [false, true], alive, 0, 1) == 0;
  }

  lemma HoldsOne0_1(ws: seq<World>, f: Formula, alive: seq<int>)
    requires ws == StatesLevelOne()
    requires f == Atom("b")
    requires alive == [0, 1, 2, 3, 4, 5, 6, 7, 8, 9]
    ensures Holds(f, ws, DefaultVisibility(), DefaultPlayers(), alive, [false, true], 0, false) == false
  {
    CountOne0B0(ws, alive);
  }

  lemma CountOne0B1(ws: seq<World>, alive: seq<int>)
    requires ws == StatesLevelOne()
    requires alive == [0, 1, 2, 3, 4, 5, 6, 7, 8, 9]
    ensures CountFrom(ws, [false, true], alive, 1, 0) == 3
  {
    assert CountFrom(ws, [false, true], alive, 1, 9) == 0;
    assert CountFrom(ws, [false, true], alive, 1, 8) == 1;
    assert CountFrom(ws, [false, true], alive, 1, 7) == 1;
    assert CountFrom(ws, [false, true], alive, 1, 6) == 1;
    assert CountFrom(ws, [false, true], alive, 1, 5) == 2;
    assert CountFrom(ws, [false, true], alive, 1, 4) == 2;
    assert CountFrom(ws, [false, true], alive, 1, 3) == 2;
    assert CountFrom(ws, [false, true], alive, 1, 2) == 2;
    assert CountFrom(ws, [false, true], alive, 1, 1) == 3;
  }

  lemma HoldsOne0_2(ws: seq<World>, f: Formula, alive: seq<int>)
    requires ws == StatesLevelOne()
    requires f == Atom("b")
    requires alive == [0, 1, 2, 3, 4, 5, 6, 7, 8, 9]
    ensures Holds(f, ws, DefaultVisibility(), DefaultPlayers(), alive, [false, true], 1, false) == true
  {
    CountOne0B1(ws, alive);
  }

  lemma CountOne0B2(ws: seq<World>, alive: seq<int>)
    requires ws == StatesLevelOne()
    requires alive == [0, 1, 2, 3, 4, 5, 6, 7, 8, 9]
    ensures CountFrom(ws, [false, true], alive, 2, 0) == 2
  {
    assert CountFrom(ws, [false, true], alive, 2, 9) == 0;
    assert CountFrom(ws, [false, true], alive, 2, 8) == 0;
    assert CountFrom(ws, [false, true], alive, 2, 7) == 1;
    assert CountFrom(ws, [false, true], alive, 2, 6) == 1;
    assert CountFrom(ws, [false, true], alive, 2, 5) == 1;
    assert CountFrom(ws, [false, true], alive, 2, 4) == 1;
    assert CountFrom(ws, [false, true], alive, 2, 3) == 1;
    assert CountFrom(ws, [false, true], alive, 2, 2) == 2;
    assert CountFrom(ws, [false, true], alive, 2, 1) == 2;
  }

  lemma HoldsOne0_3(ws: seq<World>, f: Formula, alive: seq<int>)
    requires ws == StatesLevelOne()
    requires f == Atom("b")
    requires alive == [0, 1, 2, 3, 4, 5, 6, 7, 8, 9]
    ensures Holds(f, ws, DefaultVisibility(), DefaultPlayers(), alive, [false, true], 2, false) == true
  {
    CountOne0B2(ws, alive);
  }

  lemma CountOne0B3(ws: seq<World>, alive: seq<int>)
    requires ws == StatesLevelOne()
    requires alive == [0, 1, 2, 3, 4, 5, 6, 7, 8, 9]
    ensures CountFrom(ws, [false, true], alive, 3, 0) == 2
  {
    assert CountFrom(ws, [false, true], alive, 3, 9) == 1;
    assert CountFrom(ws, [false, true], alive, 3, 8) == 1;
    assert CountFrom(ws, [false, true], alive, 3, 7) == 1;
    assert CountFrom(ws, [false, true], alive, 3, 6) == 1;
    assert CountFrom(ws, [false, true], alive, 3, 5) == 1;
    assert CountFrom(ws, [false, true], alive, 3, 4) == 1;
    assert CountFrom(ws, [false, true], alive, 3, 3) == 2;
    assert CountFrom(ws, [false, true], alive, 3, 2) == 2;
    assert CountFrom(ws, [false, true], alive, 3, 1) == 2;
  }

  lemma HoldsOne0_4(ws: seq<World>, f: Formula, alive: seq<int>)
    requires ws == StatesLevelOne()
    requires f == Atom("b")
    requires alive == [0, 1, 2, 3, 4, 5, 6, 7, 8, 9]
    ensures Holds(f, ws, DefaultVisibility(), DefaultPlayers(), alive, [false, true], 3, false) == true
  {
    CountOne0B3(ws, alive);
  }

  lemma CountOne0B4(ws: seq<World>, alive: seq<int>)
    requires ws == StatesLevelOne()
    requires alive == [0, 1, 2, 3, 4, 5, 6, 7, 8, 9]
    ensures CountFrom(ws, [false, true], alive, 4, 0) == 2
  {
    assert CountFrom(ws, [false, true], alive, 4, 9) == 0;
    assert CountFrom(ws, [false, true], alive, 4, 8) == 0;
    assert CountFrom(ws, [false, true], alive, 4, 7) == 0;
    assert CountFrom(ws, [false, true], alive, 4, 6) == 1;
    assert CountFrom(ws, [false, true], alive, 4, 5) == 1;
    assert CountFrom(ws, [false, true], alive, 4, 4) == 2;
    assert CountFrom(ws, [false, true], alive, 4, 3) == 2;
    assert CountFrom(ws, [false, true], alive, 4, 2) == 2;
    assert CountFrom(ws, [false, true], alive, 4, 1) == 2;
  }

  lemma HoldsOne0_5(ws: seq<World>, f: Formula, alive: seq<int>)
    requires ws == StatesLevelOne()
    requires f == Atom("b")
    requires alive == [0, 1, 2, 3, 4, 5, 6, 7, 8, 9]
    ensures Holds(f, ws, DefaultVisibility(), DefaultPlayers(), alive, [false, true], 4, false) == true
  {
    CountOne0B4(ws, alive);
  }

  lemma CountOne0B5(ws: seq<World>, alive: seq<int>)
    requires ws == StatesLevelOne()
    requires alive == [0, 1, 2, 3, 4, 5, 6, 7, 8, 9]
    ensures CountFrom(ws, [false, true], alive, 5, 0) == 3
  {
    assert CountFrom(ws, [false, true], alive, 5, 9) == 0;
    assert CountFrom(ws, [false, true], alive, 5, 8) == 1;
    assert CountFrom(ws, [false, true], alive, 5, 7) == 1;
    assert CountFrom(ws, [false, true], alive, 5, 6) == 1;
    assert CountFrom(ws, [false, true], alive, 5, 5) == 2;
    assert CountFrom(ws, [false, true], alive, 5, 4) == 2;
    assert CountFrom(ws, [false, true], alive, 5, 3) == 2;
    assert CountFrom(ws, [false, true], alive, 5, 2) == 2;
    assert CountFrom(ws, [false, true], alive, 5, 1) == 3;
  }

  lemma HoldsOne0_6(ws: seq<World>, f: Formula, alive: seq<int>)
    requires ws == StatesLevelOne()
    requires f == Atom("b")
    requires alive == [0, 1, 2, 3, 4, 5, 6, 7, 8, 9]
    ensures Holds(f, ws, DefaultVisibility(), DefaultPlayers(), alive, [false, true], 5, false) == true
  {
    CountOne0B5(ws, alive);
  }

  lemma CountOne0B6(ws: seq<World>, alive: seq<int>)
    requires ws == StatesLevelOne()
    requires alive == [0, 1, 2, 3, 4, 5, 6, 7, 8, 9]
    ensures CountFrom(ws, [false, true], alive, 6, 0) == 2
  {
    assert CountFrom(ws, [false, true], alive, 6, 9) == 0;
    assert CountFrom(ws, [false, true], alive, 6, 8) == 0;
    assert CountFrom(ws, [false, true], alive, 6, 7) == 0;
    assert CountFrom(ws, [false, true], alive, 6, 6) == 1;
    assert CountFrom(ws, [false, true], alive, 6, 5) == 1;
    assert CountFrom(ws, [false, true], alive, 6, 4) == 2;
    assert CountFrom(ws, [false, true], alive, 6, 3) == 2;
    assert CountFrom(ws, [false, true], alive, 6, 2) == 2;
    assert CountFrom(ws, [false, true], alive, 6, 1) == 2;
  }

  lemma HoldsOne0_7(ws: seq<World>, f: Formula, alive: seq<int>)
    requires ws == StatesLevelOne()
    requires f == Atom("b")
    requires alive == [0, 1, 2, 3, 4, 5, 6, 7, 8, 9]
    ensures Holds(f, ws, DefaultVisibility(), DefaultPlayers(), alive, [false, true], 6, false) == true
  {
    CountOne0B6(ws, alive);
  }

  lemma CountOne0B7(ws: seq<World>, alive: seq<int>)
    requires ws == StatesLevelOne()
    requires alive == [0, 1, 2, 3, 4, 5, 6, 7, 8, 9]
    ensures CountFrom(ws, [false, true], alive, 7, 0) == 2
  {
    assert CountFrom(ws, [false, true], alive, 7, 9) == 0;
    assert CountFrom(ws, [false, true], alive, 7, 8) == 0;
    assert CountFrom(ws, [false, true], alive, 7, 7) == 1;
    assert CountFrom(ws, [false, true], alive, 7, 6) == 1;
    assert CountFrom(ws, [false, true], alive, 7, 5) == 1;
    assert CountFrom(ws, [false, true], alive, 7, 4) == 1;
    assert CountFrom(ws, [false, true], alive, 7, 3) == 1;
    assert CountFrom(ws, [false, true], alive, 7, 2) == 2;
    assert CountFrom(ws, [false, true], alive, 7, 1) == 2;
  }

  lemma HoldsOne0_8(ws: seq<World>, f: Formula, alive: seq<int>)
    requires ws == StatesLevelOne()
    requires f == Atom("b")
    requires alive == [0, 1, 2, 3, 4, 5, 6, 7, 8, 9]
    ensures Holds(f, ws, DefaultVisibility(), DefaultPlayers(), alive, [false, true], 7, false) == true
  {
    CountOne0B7(ws, alive);
  }

  lemma CountOne0B8(ws: seq<World>, alive: seq<int>)
    requires ws == StatesLevelOne()
    requires alive == [0, 1, 2, 3, 4, 5, 6, 7, 8, 9]
    ensures CountFrom(ws, [false, true], alive, 8, 0) == 3
  {
    assert CountFrom(ws, [false, true], alive, 8, 9) == 0;
    assert CountFrom(ws, [false, true], alive, 8, 8) == 1;
    assert CountFrom(ws, [false, true], alive, 8, 7) == 1;
    assert CountFrom(ws, [false, true], alive, 8, 6) == 1;
    assert CountFrom(ws, [false, true], alive, 8, 5) == 2;
    assert CountFrom(ws, [false, true], alive, 8, 4) == 2;
    assert CountFrom(ws, [false, true], alive, 8, 3) == 2;
    assert CountFrom(ws, [false, true], alive, 8, 2) == 2;
    assert CountFrom(ws, [false, true], alive, 8, 1) == 3;
  }

  lemma HoldsOne0_9(ws: seq<World>, f: Formula, alive: seq<int>)
    requires ws == StatesLevelOne()
    requires f == Atom("b")
    requires alive == [0, 1, 2, 3, 4, 5, 6, 7, 8, 9]
    ensures Holds(f, ws, DefaultVisibility(), DefaultPlayers(), alive, [false, true], 8, false) == true
  {
    CountOne0B8(ws, alive);
  }

  lemma CountOne0B9(ws: seq<World>, alive: seq<int>)
    requires ws == StatesLevelOne()
    requires alive == [0, 1, 2, 3, 4, 5, 6, 7, 8, 9]
    ensures CountFrom(ws, [false, true], alive, 9, 0) == 2
  {
    assert CountFrom(ws, [false, true], alive, 9, 9) == 1;
    assert CountFrom(ws, [false, true], alive, 9, 8) == 1;
    assert CountFrom(ws, [false, true], alive, 9, 7) == 1;
    assert CountFrom(ws, [false, true], alive, 9, 6) == 1;
    assert CountFrom(ws, [false, true], alive, 9, 5) == 1;
    assert CountFrom(ws, [false, true], alive, 9, 4) == 1;
    assert CountFrom(ws, [false, true], alive, 9, 3) == 2;
    assert CountFrom(ws, [false, true], alive, 9, 2) == 2;
    assert CountFrom(ws, [false, true], alive, 9, 1) == 2;
  }

  lemma HoldsOne0_10(ws: seq<World>, f: Formula, alive: seq<int>)
    requires ws == StatesLevelOne()
    requires f == Atom("b")
    requires alive == [0, 1, 2, 3, 4, 5, 6, 7, 8, 9]
    ensures Holds(f, ws, DefaultVisibility(), DefaultPlayers(), alive, [false, true], 9, false) == true
  {
    CountOne0B9(ws, alive);
  }

  lemma KeptOne0_8(ws: seq<World>, t: Target, alive: seq<int>)
    requires ws == StatesLevelOne()
    requires t == Target("Be", Atom("b"), false)
    requires alive == [0, 1, 2, 3, 4, 5, 6, 7, 8, 9]
    ensures KeptFrom(t, ws, DefaultVisibility(), DefaultPlayers(), alive, [false, true], 8) == []
  {
    HoldsOne0_10(ws, t.inner, alive);
    HoldsOne0_9(ws, t.inner, alive);
    assert KeptFrom(t, ws, DefaultVisibility(), DefaultPlayers(), alive, [false, true], 9) == [];
  }

  lemma KeptOne0_6(ws: seq<World>, t: Target, alive: seq<int>)
    requires ws == StatesLevelOne()
    requires t == Target("Be", Atom("b"), false)
    requires alive == [0, 1, 2, 3, 4, 5, 6, 7, 8, 9]
    ensures KeptFrom(t, ws, DefaultVisibility(), DefaultPlayers(), alive, [false, true], 6) == []
  {
    KeptOne0_8(ws, t, alive);
    HoldsOne0_8(ws, t.inner, alive);
    HoldsOne0_7(ws, t.inner, alive);
    assert KeptFrom(t, ws, DefaultVisibility(), DefaultPlayers(), alive, [false, true], 7) == [];
  }

  lemma KeptOne0_4(ws: seq<World>, t: Target, alive: seq<int>)
    requires ws == StatesLevelOne()
    requires t == Target("Be", Atom("b"), false)
    requires alive == [0, 1, 2, 3, 4, 5, 6, 7, 8, 9]
    ensures KeptFrom(t, ws, DefaultVisibility(), DefaultPlayers(), alive, [false, true], 4) == []
  {
    KeptOne0_6(ws, t, alive);
    HoldsOne0_6(ws, t.inner, alive);
    HoldsOne0_5(ws, t.inner, alive);
    assert KeptFrom(t, ws, DefaultVisibility(), DefaultPlayers(), alive, [false, true], 5) == [];
  }

  lemma KeptOne0_2(ws: seq<World>, t: Target, alive: seq<int>)
    requires ws == StatesLevelOne()
    requires t == Target("Be", Atom("b"), false)
    requires alive == [0, 1, 2, 3, 4, 5, 6, 7, 8, 9]
    ensures KeptFrom(t, ws, DefaultVisibility(), DefaultPlayers(), alive, [false, true], 2) == []
  {
    KeptOne0_4(ws, t, alive);
    HoldsOne0_4(ws, t.inner, alive);
    HoldsOne0_3(ws, t.inner, alive);
    assert KeptFrom(t, ws, DefaultVisibility(), DefaultPlayers(), alive, [false, true], 3) == [];
  }

  lemma KeptOne0_0(ws: seq<World>, t: Target, alive: seq<int>)
    requires ws == StatesLevelOne()
    requires t == Target("Be", Atom("b"), false)
    requires alive == [0, 1, 2, 3, 4, 5, 6, 7, 8, 9]
    ensures KeptFrom(t, ws, DefaultVisibility(), DefaultPlayers(), alive, [false, true], 0) == [0]
  {
    KeptOne0_2(ws, t, alive);
    HoldsOne0_2(ws, t.inner, alive);
    HoldsOne0_1(ws, t.inner, alive);
    assert KeptFrom(t, ws, DefaultVisibility(), DefaultPlayers(), alive, [false, true], 1) == [];
  }

  lemma SurvivorsOne0(ws: seq<World>, f: Formula, alive: seq<int>)
    requires ws == StatesLevelOne()
    requires f == Know("Be", Atom("b"))
    requires alive == [0, 1, 2, 3, 4, 5, 6, 7, 8, 9]
    ensures Survivors(f, ws, DefaultVisibility(), DefaultPlayers(), alive) == [0]
  {
    KeptOne0_0(ws, Target("Be", Atom("b"), false), alive);
    assert Spine(f, false) == Some(Target("Be", Atom("b"), false));
    assert AgentIndex(DefaultPlayers(), "Be") == Some(1);
  }

  lemma LevelOneOutcome(ws: seq<World>, anns: seq<Formula>, alive: seq<int>)
    requires ws == StatesLevelOne()
    requires anns == AllAnnouncements("Al", "Be")[0]
    requires alive == Range(10)
    ensures Outcome(anns, ws, DefaultVisibility(), DefaultPlayers(), alive) == [0]
  {
    RangeTen(alive);
    assert anns == [Know("Be", Atom("b"))];
    SurvivorsOne0(ws, anns[0], alive);
    assert Outcome(anns[1..], ws, DefaultVisibility(), DefaultPlayers(), [0]) == [0];
  }

  lemma CountTwo0A0(ws: seq<World>, alive: seq<int>)
    requires ws == StatesLevelTwo()
    requires alive == [0, 1, 2, 3, 4, 5, 6, 7, 8, 9]
    ensures CountFrom(ws, [true, false], alive, 0, 0) == 2
  {
    assert CountFrom(ws, [true, false], alive, 0, 9) == 0;
    assert CountFrom(ws, [true, false], alive, 0, 8) == 0;
    assert CountFrom(ws, [true, false], alive, 0, 7) == 0;
    assert CountFrom(ws, [true, false], alive, 0, 6) == 0;
    assert CountFrom(ws, [true, false], alive, 0, 5) == 0;
    assert CountFrom(ws, [true, false], alive, 0, 4) == 0;
    assert CountFrom(ws, [true, false], alive, 0, 3) == 0;
    assert CountFrom(ws, [true, false], alive, 0, 2) == 0;
    assert CountFrom(ws, [true, false], alive, 0, 1) == 1;
  }

  lemma HoldsTwo0_11(ws: seq<World>, f: Formula, alive: seq<int>)
    requires ws == StatesLevelTwo()
    requires f == Atom("b")
    requires alive == [0, 1, 2, 3, 4, 5, 6, 7, 8, 9]
    ensures Holds(f, ws, DefaultVisibility(), DefaultPlayers(), alive, [true, false], 0, true) == false
  {
    CountTwo0A0(ws, alive);
  }

  lemma CountTwo0A1(ws: seq<World>, alive: seq<int>)
    requires ws == StatesLevelTwo()
    requires alive == [0, 1, 2, 3, 4, 5, 6, 7, 8, 9]
    ensures CountFrom(ws, [true, false], alive, 1, 0) == 2
  {
    assert CountFrom(ws, [true, false], alive, 1, 9) == 0;
    assert CountFrom(ws, [true, false], alive, 1, 8) == 0;
    assert CountFrom(ws, [true, false], alive, 1, 7) == 0;
    assert CountFrom(ws, [true, false], alive, 1, 6) == 0;
    assert CountFrom(ws, [true, false], alive, 1, 5) == 0;
    assert CountFrom(ws, [true, false], alive, 1, 4) == 0;
    assert CountFrom(ws, [true, false], alive, 1, 3) == 0;
    assert CountFrom(ws, [true, false], alive, 1, 2) == 0;
    assert CountFrom(ws, [true, false], alive, 1, 1) == 1;
  }

  lemma HoldsTwo0_12(ws: seq<World>, f: Formula, alive: seq<int>)
    requires ws == StatesLevelTwo()
    requires f == Atom("b")
    requires alive == [0, 1, 2, 3, 4, 5, 6, 7, 8, 9]
    ensures Holds(f, ws, DefaultVisibility(), DefaultPlayers(), alive, [true, false], 1, true) == false
  {
    CountTwo0A1(ws, alive);
  }

  lemma CountTwo0A2(ws: seq<World>, alive: seq<int>)
    requires ws == StatesLevelTwo()
    requires alive == [0, 1, 2, 3, 4, 5, 6, 7, 8, 9]
    ensures CountFrom(ws, [true, false], alive, 2, 0) == 1
  {
    assert CountFrom(ws, [true, false], alive, 2, 9) == 0;
    assert CountFrom(ws, [true, false], alive, 2, 8) == 0;
    assert CountFrom(ws, [true, false], alive, 2, 7) == 0;
    assert CountFrom(ws, [true, false], alive, 2, 6) == 0;
    assert CountFrom(ws, [true, false], alive, 2, 5) == 0;
    assert CountFrom(ws, [true, false], alive, 2, 4) == 0;
    assert CountFrom(ws, [true, false], alive, 2, 3) == 0;
    assert CountFrom(ws, [true, false], alive, 2, 2) == 1;
    assert CountFrom(ws, [true, false], alive, 2, 1) == 1;
  }

  lemma HoldsTwo0_13(ws: seq<World>, f: Formula, alive: seq<int>)
    requires ws == StatesLevelTwo()
    requires f == Atom("b")
    requires alive == [0, 1, 2, 3, 4, 5, 6, 7, 8, 9]
    ensures Holds(f, ws, DefaultVisibility(), DefaultPlayers(), alive, [true, false], 2, true) == true
  {
    CountTwo0A2(ws, alive);
  }

  lemma CountTwo0A3(ws: seq<World>, alive: seq<int>)
    requires ws == StatesLevelTwo()
    requires alive == [0, 1, 2, 3, 4, 5, 6, 7, 8, 9]
    ensures CountFrom(ws, [true, false], alive, 3, 0) == 2
  {
    assert CountFrom(ws, [true, false], alive, 3, 9) == 0;
    assert CountFrom(ws, [true, false], alive, 3, 8) == 0;
    assert CountFrom(ws, [true, false], alive, 3, 7) == 0;
    assert CountFrom(ws, [true, false], alive, 3, 6) == 0;
    assert CountFrom(ws, [true, false], alive, 3, 5) == 0;
    assert CountFrom(ws, [true, false], alive, 3, 4) == 1;
    assert CountFrom(ws, [true, false], alive, 3, 3) == 2;
    assert CountFrom(ws, [true, false], alive, 3, 2) == 2;
    assert CountFrom(ws, [true, false], alive, 3, 1) == 2;
  }

  lemma HoldsTwo0_14(ws: seq<World>, f: Formula, alive: seq<int>)
    requires ws == StatesLevelTwo()
    requires f == Atom("b")
    requires alive == [0, 1, 2, 3, 4, 5, 6, 7, 8, 9]
    ensures Holds(f, ws, DefaultVisibility(), DefaultPlayers(), alive, [true, false], 3, true) == false
  {
    CountTwo0A3(ws, alive);
  }

  lemma CountTwo0A4(ws: seq<World>, alive: seq<int>)
    requires ws == StatesLevelTwo()
    requires alive == [0, 1, 2, 3, 4, 5, 6, 7, 8, 9]
    ensures CountFrom(ws, [true, false], alive, 4, 0) == 2
  {
    assert CountFrom(ws, [true, false], alive, 4, 9) == 0;
    assert CountFrom(ws, [true, false], alive, 4, 8) == 0;
    assert CountFrom(ws, [true, false], alive, 4, 7) == 0;
    assert CountFrom(ws, [true, false], alive, 4, 6) == 0;
    assert CountFrom(ws, [true, false], alive, 4, 5) == 0;
    assert CountFrom(ws, [true, false], alive, 4, 4) == 1;
    assert CountFrom(ws, [true, false], alive, 4, 3) == 2;
    assert CountFrom(ws, [true, false], alive, 4, 2) == 2;
    assert CountFrom(ws, [true, false], alive, 4, 1) == 2;
  }

  lemma HoldsTwo0_15(ws: seq<World>, f: Formula, alive: seq<int>)
    requires ws == StatesLevelTwo()
    requires f == Atom("b")
    requires alive == [0, 1, 2, 3, 4, 5, 6, 7, 8, 9]
    ensures Holds(f, ws, DefaultVisibility(), DefaultPlayers(), alive, [true, false], 4, true) == false
  {
    CountTwo0A4(ws, alive);
  }

  lemma CountTwo0A5(ws: seq<World>, alive: seq<int>)
    requires ws == StatesLevelTwo()
    requires alive == [0, 1, 2, 3, 4, 5, 6, 7, 8, 9]
    ensures CountFrom(ws, [true, false], alive, 5, 0) == 3
  {
    assert CountFrom(ws, [true, false], alive, 5, 9) == 0;
    assert CountFrom(ws, [true, false], alive, 5, 8) == 0;
    assert CountFrom(ws, [true, false], alive, 5, 7) == 1;
    assert CountFrom(ws, [true, false], alive, 5, 6) == 2;
    assert CountFrom(ws, [true, false], alive, 5, 5) == 3;
    assert CountFrom(ws, [true, false], alive, 5, 4) == 3;
    assert CountFrom(ws, [true, false], alive, 5, 3) == 3;
    assert CountFrom(ws, [true, false], alive, 5, 2) == 3;
    assert CountFrom(ws, [true, false], alive, 5, 1) == 3;
  }

  lemma HoldsTwo0_16(ws: seq<World>, f: Formula, alive: seq<int>)
    requires ws == StatesLevelTwo()
    requires f == Atom("b")
    requires alive == [0, 1, 2, 3, 4, 5, 6, 7, 8, 9]
    ensures Holds(f, ws, DefaultVisibility(), DefaultPlayers(), alive, [true, false], 5, true) == false
  {
    CountTwo0A5(ws, alive);
  }

  lemma CountTwo0A6(ws: seq<World>, alive: seq<int>)
    requires ws == StatesLevelTwo()
    requires alive == [0, 1, 2, 3, 4, 5, 6, 7, 8, 9]
    ensures CountFrom(ws, [true, false], alive, 6, 0) == 3
  {
    assert CountFrom(ws, [true, false], alive, 6, 9) == 0;
    assert CountFrom(ws, [true, false], alive, 6, 8) == 0;
    assert CountFrom(ws, [true, false], alive, 6, 7) == 1;
    assert CountFrom(ws, [true, false], alive, 6, 6) == 2;
    assert CountFrom(ws, [true, false], alive, 6, 5) == 3;
    assert CountFrom(ws, [true, false], alive, 6, 4) == 3;
    assert CountFrom(ws, [true, false], alive, 6, 3) == 3;
    assert CountFrom(ws, [true, false], alive, 6, 2) == 3;
    assert CountFrom(ws, [true, false], alive, 6, 1) == 3;
  }

  lemma HoldsTwo0_17(ws: seq<World>, f: Formula, alive: seq<int>)
    requires ws == StatesLevelTwo()
    requires f == Atom("b")
    requires alive == [0, 1, 2, 3, 4, 5, 6, 7, 8, 9]
    ensures Holds(f, ws, DefaultVisibility(), DefaultPlayers(), alive, [true, false], 6, true) == false
  {
    CountTwo0A6(ws, alive);
  }

  lemma CountTwo0A7(ws: seq<World>, alive: seq<int>)
    requires ws == StatesLevelTwo()
    requires alive == [0, 1, 2, 3, 4, 5, 6, 7, 8, 9]
    ensures CountFrom(ws, [true, false], alive, 7, 0) == 3
  {
    assert CountFrom(ws, [true, false], alive, 7, 9) == 0;
    assert CountFrom(ws, [true, false], alive, 7, 8) == 0;
    assert CountFrom(ws, [true, false], alive, 7, 7) == 1;
    assert CountFrom(ws, [true, false], alive, 7, 6) == 2;
    assert CountFrom(ws, [true, false], alive, 7, 5) == 3;
    assert CountFrom(ws, [true, false], alive, 7, 4) == 3;
    assert CountFrom(ws, [true, false], alive, 7, 3) == 3;
    assert CountFrom(ws, [true, false], alive, 7, 2) == 3;
    assert CountFrom(ws, [true, false], alive, 7, 1) == 3;
  }

  lemma HoldsTwo0_18(ws: seq<World>, f: Formula, alive: seq<int>)
    requires ws == StatesLevelTwo()
    requires f == Atom("b")
    requires alive == [0, 1, 2, 3, 4, 5, 6, 7, 8, 9]
    ensures Holds(f, ws, DefaultVisibility(), DefaultPlayers(), alive, [true, false], 7, true) == false
  {
    CountTwo0A7(ws, alive);
  }

  lemma CountTwo0A8(ws: seq<World>, alive: seq<int>)
    requires ws == StatesLevelTwo()
    requires alive == [0, 1, 2, 3, 4, 5, 6, 7, 8, 9]
    ensures CountFrom(ws, [true, false], alive, 8, 0) == 2
  {
    assert CountFrom(ws, [true, false], alive, 8, 9) == 1;
    assert CountFrom(ws, [true, false], alive, 8, 8) == 2;
    assert CountFrom(ws, [true, false], alive, 8, 7) == 2;
    assert CountFrom(ws, [true, false], alive, 8, 6) == 2;
    assert CountFrom(ws, [true, false], alive, 8, 5) == 2;
    assert CountFrom(ws, [true, false], alive, 8, 4) == 2;
    assert CountFrom(ws, [true, false], alive, 8, 3) == 2;
    assert CountFrom(ws, [true, false], alive, 8, 2) == 2;
    assert CountFrom(ws, [true, false], alive, 8, 1) == 2;
  }

  lemma HoldsTwo0_19(ws: seq<World>, f: Formula, alive: seq<int>)
    requires ws == StatesLevelTwo()
    requires f == Atom("b")
    requires alive == [0, 1, 2, 3, 4, 5, 6, 7, 8, 9]
    ensures Holds(f, ws, DefaultVisibility(), DefaultPlayers(), alive, [true, false], 8, true) == false
  {
    CountTwo0A8(ws, alive);
  }

  lemma CountTwo0A9(ws: seq<World>, alive: seq<int>)
    requires ws == StatesLevelTwo()
    requires alive == [0, 1, 2, 3, 4, 5, 6, 7, 8, 9]
    ensures CountFrom(ws, [true, false], alive, 9, 0) == 2
  {
    assert CountFrom(ws, [true, false], alive, 9, 9) == 1;
    assert CountFrom(ws, [true, false], alive, 9, 8) == 2;
    assert CountFrom(ws, [true, false], alive, 9, 7) == 2;
    assert CountFrom(ws, [true, false], alive, 9, 6) == 2;
    assert CountFrom(ws, [true, false], alive, 9, 5) == 2;
    assert CountFrom(ws, [true, false], alive, 9, 4) == 2;
    assert CountFrom(ws, [true, false], alive, 9, 3) == 2;
    assert CountFrom(ws, [true, false], alive, 9, 2) == 2;
    assert CountFrom(ws, [true, false], alive, 9, 1) == 2;
  }

  lemma HoldsTwo0_20(ws: seq<World>, f: Formula, alive: seq<int>)
    requires ws == StatesLevelTwo()
    requires f == Atom("b")
    requires alive == [0, 1, 2, 3, 4, 5, 6, 7, 8, 9]
    ensures Holds(f, ws, DefaultVisibility(), DefaultPlayers(), alive, [true, false], 9, true) == false
  {
    CountTwo0A9(ws, alive);
  }

  lemma KeptTwo0_8(ws: seq<World>, t: Target, alive: seq<int>)
    requires ws == StatesLevelTwo()
    requires t == Target("Al", Atom("b"), true)
    requires alive == [0, 1, 2, 3, 4, 5, 6, 7, 8, 9]
    ensures KeptFrom(t, ws, DefaultVisibility(), DefaultPlayers(), alive, [true, false], 8) == [8, 9]
  {
    HoldsTwo0_20(ws, t.inner, alive);
    HoldsTwo0_19(ws, t.inner, alive);
    assert KeptFrom(t, ws, DefaultVisibility(), DefaultPlayers(), alive, [true, false], 9) == [9];
  }

  lemma KeptTwo0_6(ws: seq<World>, t: Target, alive: seq<int>)
    requires ws == StatesLevelTwo()
    requires t == Target("Al", Atom("b"), true)
    requires alive == [0, 1, 2, 3, 4, 5, 6, 7, 8, 9]
    ensures KeptFrom(t, ws, DefaultVisibility(), DefaultPlayers(), alive, [true, false], 6) == [6, 7, 8, 9]
  {
    KeptTwo0_8(ws, t, alive);
    HoldsTwo0_18(ws, t.inner, alive);
    HoldsTwo0_17(ws, t.inner, alive);
    assert KeptFrom(t, ws, DefaultVisibility(), DefaultPlayers(), alive, [true, false], 7) == [7, 8, 9];
  }

  lemma KeptTwo0_4(ws: seq<World>, t: Target, alive: seq<int>)
    requires ws == StatesLevelTwo()
    requires t == Target("Al", Atom("b"), true)
    requires alive == [0, 1, 2, 3, 4, 5, 6, 7, 8, 9]
    ensures KeptFrom(t, ws, DefaultVisibility(), DefaultPlayers(), alive, [true, false], 4) == [4, 5, 6, 7, 8, 9]
  {
    KeptTwo0_6(ws, t, alive);
    HoldsTwo0_16(ws, t.inner, alive);
    HoldsTwo0_15(ws, t.inner, alive);
    assert KeptFrom(t, ws, DefaultVisibility(), DefaultPlayers(), alive, [true, false], 5) == [5, 6, 7, 8, 9];
  }

  lemma KeptTwo0_2(ws: seq<World>, t: Target, alive: seq<int>)
    requires ws == StatesLevelTwo()
    requires t == Target("Al", Atom("b"), true)
    requires alive == [0, 1, 2, 3, 4, 5, 6, 7, 8, 9]
    ensures KeptFrom(t, ws, DefaultVisibility(), DefaultPlayers(), alive, [true, false], 2) == [3, 4, 5, 6, 7, 8, 9]
  {
    KeptTwo0_4(ws, t, alive);
    HoldsTwo0_14(ws, t.inner, alive);
    HoldsTwo0_13(ws, t.inner, alive);
    assert KeptFrom(t, ws, DefaultVisibility(), DefaultPlayers(), alive, [true, false], 3) == [3, 4, 5, 6, 7, 8, 9];
  }

  lemma KeptTwo0_0(ws: seq<World>, t: Target, alive: seq<int>)
    requires ws == StatesLevelTwo()
    requires t == Target("Al", Atom("b"), true)
    requires alive == [0, 1, 2, 3, 4, 5, 6, 7, 8, 9]
    ensures KeptFrom(t, ws, DefaultVisibility(), DefaultPlayers(), alive, [true, false], 0) == [0, 1, 3, 4, 5, 6, 7, 8, 9]
  {
    KeptTwo0_2(ws, t, alive);
    HoldsTwo0_12(ws, t.inner, alive);
    HoldsTwo0_11(ws, t.inner, alive);
    assert KeptFrom(t, ws, DefaultVisibility(), DefaultPlayers(), alive, [true, false], 1) == [1, 3, 4, 5, 6, 7, 8, 9];
  }

  lemma SurvivorsTwo0(ws: seq<World>, f: Formula, alive: seq<int>)
    requires ws == StatesLevelTwo()
    requires f == Not(Know("Al", Atom("b")))
    requires alive == [0, 1, 2, 3, 4, 5, 6, 7, 8, 9]
    ensures Survivors(f, ws, DefaultVisibility(), DefaultPlayers(), alive) == [0, 1, 3, 4, 5, 6, 7, 8, 9]
  {
    KeptTwo0_0(ws, Target("Al", Atom("b"), true), alive);
    assert Spine(f, false) == Some(Target("Al", Atom("b"), true));
    assert AgentIndex(DefaultPlayers(), "Al") == Some(0);
  }

  lemma CountTwo1B0(ws: seq<World>, alive: seq<int>)
    requires ws == StatesLevelTwo()
    requires alive == [0, 1, 3, 4, 5, 6, 7, 8, 9]
    ensures CountFrom(ws, [false, true], alive, 0, 0) == 2
  {
    assert CountFrom(ws, [false, true], alive, 0, 8) == 0;
    assert CountFrom(ws, [false, true], alive, 0, 7) == 0;
    assert CountFrom(ws, [false, true], alive, 0, 6) == 1;
    assert CountFrom(ws, [false, true], alive, 0, 5) == 1;
    assert CountFrom(ws, [false, true], alive, 0, 4) == 1;
    assert CountFrom(ws, [false, true], alive, 0, 3) == 1;
    assert CountFrom(ws, [false, true], alive, 0, 2) == 1;
    assert CountFrom(ws, [false, true], alive, 0, 1) == 1;
  }

  lemma HoldsTwo1_21(ws: seq<World>, f: Formula, alive: seq<int>)
    requires ws == StatesLevelTwo()
    requires f == Atom("b")
    requires alive == [0, 1, 3, 4, 5, 6, 7, 8, 9]
    ensures Holds(f, ws, DefaultVisibility(), DefaultPlayers(), alive, [false, true], 0, false) == true
  {
    CountTwo1B0(ws, alive);
  }

  lemma CountTwo1B1(ws: seq<World>, alive: seq<int>)
    requires ws == StatesLevelTwo()
    requires alive == [0, 1, 3, 4, 5, 6, 7, 8, 9]
    ensures CountFrom(ws, [false, true], alive, 1, 0) == 2
  {
    assert CountFrom(ws, [false, true], alive, 1, 8) == 0;
    assert CountFrom(ws, [false, true], alive, 1, 7) == 0;
    assert CountFrom(ws, [false, true], alive, 1, 6) == 0;
    assert CountFrom(ws, [false, true], alive, 1, 5) == 0;
    assert CountFrom(ws, [false, true], alive, 1, 4) == 0;
    assert CountFrom(ws, [false, true], alive, 1, 3) == 1;
    assert CountFrom(ws, [false, true], alive, 1, 2) == 1;
    assert CountFrom(ws, [false, true], alive, 1, 1) == 2;
  }

  lemma HoldsTwo1_22(ws: seq<World>, f: Formula, alive: seq<int>)
    requires ws == StatesLevelTwo()
    requires f == Atom("b")
    requires alive == [0, 1, 3, 4, 5, 6, 7, 8, 9]
    ensures Holds(f, ws, DefaultVisibility(), DefaultPlayers(), alive, [false, true], 1, false) == true
  {
    CountTwo1B1(ws, alive);
  }

  lemma CountTwo1B3(ws: seq<World>, alive: seq<int>)
    requires ws == StatesLevelTwo()
    requires alive == [0, 1, 3, 4, 5, 6, 7, 8, 9]
    ensures CountFrom(ws, [false, true], alive, 3, 0) == 2
  {
    assert CountFrom(ws, [false, true], alive, 3, 8) == 0;
    assert CountFrom(ws, [false, true], alive, 3, 7) == 0;
    assert CountFrom(ws, [false, true], alive, 3, 6) == 0;
    assert CountFrom(ws, [false, true], alive, 3, 5) == 1;
    assert CountFrom(ws, [false, true], alive, 3, 4) == 1;
    assert CountFrom(ws, [false, true], alive, 3, 3) == 1;
    assert CountFrom(ws, [false, true], alive, 3, 2) == 2;
    assert CountFrom(ws, [false, true], alive, 3, 1) == 2;
  }

  lemma HoldsTwo1_23(ws: seq<World>, f: Formula, alive: seq<int>)
    requires ws == StatesLevelTwo()
    requires f == Atom("b")
    requires alive == [0, 1, 3, 4, 5, 6, 7, 8, 9]
    ensures Holds(f, ws, DefaultVisibility(), DefaultPlayers(), alive, [false, true], 3, false) == true
  {
    CountTwo1B3(ws, alive);
  }

  lemma CountTwo1B4(ws: seq<World>, alive: seq<int>)
    requires ws == StatesLevelTwo()
    requires alive == [0, 1, 3, 4, 5, 6, 7, 8, 9]
    ensures CountFrom(ws, [false, true], alive, 4, 0) == 2
  {
    assert CountFrom(ws, [false, true], alive, 4, 8) == 0;
    assert CountFrom(ws, [false, true], alive, 4, 7) == 0;
    assert CountFrom(ws, [false, true], alive, 4, 6) == 0;
    assert CountFrom(ws, [false, true], alive, 4, 5) == 0;
    assert CountFrom(ws, [false, true], alive, 4, 4) == 0;
    assert CountFrom(ws, [false, true], alive, 4, 3) == 1;
    assert CountFrom(ws, [false, true], alive, 4, 2) == 1;
    assert CountFrom(ws, [false, true], alive, 4, 1) == 2;
  }

  lemma HoldsTwo1_24(ws: seq<World>, f: Formula, alive: seq<int>)
    requires ws == StatesLevelTwo()
    requires f == Atom("b")
    requires alive == [0, 1, 3, 4, 5, 6, 7, 8, 9]
    ensures Holds(f, ws, DefaultVisibility(), DefaultPlayers(), alive, [false, true], 4, false) == true
  {
    CountTwo1B4(ws, alive);
  }

  lemma CountTwo1B5(ws: seq<World>, alive: seq<int>)
    requires ws == StatesLevelTwo()
    requires alive == [0, 1, 3, 4, 5, 6, 7, 8, 9]
    ensures CountFrom(ws, [false, true], alive, 5, 0) == 2
  {
    assert CountFrom(ws, [false, true], alive, 5, 8) == 1;
    assert CountFrom(ws, [false, true], alive, 5, 7) == 1;
    assert CountFrom(ws, [false, true], alive, 5, 6) == 1;
    assert CountFrom(ws, [false, true], alive, 5, 5) == 1;
    assert CountFrom(ws, [false, true], alive, 5, 4) == 2;
    assert CountFrom(ws, [false, true], alive, 5, 3) == 2;
    assert CountFrom(ws, [false, true], alive, 5, 2) == 2;
    assert CountFrom(ws, [false, true], alive, 5, 1) == 2;
  }

  lemma HoldsTwo1_25(ws: seq<World>, f: Formula, alive: seq<int>)
    requires ws == StatesLevelTwo()
    requires f == Atom("b")
    requires alive == [0, 1, 3, 4, 5, 6, 7, 8, 9]
    ensures Holds(f, ws, DefaultVisibility(), DefaultPlayers(), alive, [false, true], 5, false) == true
  {
    CountTwo1B5(ws, alive);
  }

  lemma CountTwo1B6(ws: seq<World>, alive: seq<int>)
    requires ws == StatesLevelTwo()
    requires alive == [0, 1, 3, 4, 5, 6, 7, 8, 9]
    ensures CountFrom(ws, [false, true], alive, 6, 0) == 2
  {
    assert CountFrom(ws, [false, true], alive, 6, 8) == 0;
    assert CountFrom(ws, [false, true], alive, 6, 7) == 0;
    assert CountFrom(ws, [false, true], alive, 6, 6) == 0;
    assert CountFrom(ws, [false, true], alive, 6, 5) == 1;
    assert CountFrom(ws, [false, true], alive, 6, 4) == 1;
    assert CountFrom(ws, [false, true], alive, 6, 3) == 1;
    assert CountFrom(ws, [false, true], alive, 6, 2) == 2;
    assert CountFrom(ws, [false, true], alive, 6, 1) == 2;
  }

  lemma HoldsTwo1_26(ws: seq<World>, f: Formula, alive: seq<int>)
    requires ws == StatesLevelTwo()
    requires f == Atom("b")
    requires alive == [0, 1, 3, 4, 5, 6, 7, 8, 9]
    ensures Holds(f, ws, DefaultVisibility(), DefaultPlayers(), alive, [false, true], 6, false) == true
  {
    CountTwo1B6(ws, alive);
  }

  lemma CountTwo1B7(ws: seq<World>, alive: seq<int>)
    requires ws == StatesLevelTwo()
    requires alive == [0, 1, 3, 4, 5, 6, 7, 8, 9]
    ensures CountFrom(ws, [false, true], alive, 7, 0) == 2
  {
    assert CountFrom(ws, [false, true], alive, 7, 8) == 0;
    assert CountFrom(ws, [false, true], alive, 7, 7) == 0;
    assert CountFrom(ws, [false, true], alive, 7, 6) == 1;
    assert CountFrom(ws, [false, true], alive, 7, 5) == 1;
    assert CountFrom(ws, [false, true], alive, 7, 4) == 1;
    assert CountFrom(ws, [false, true], alive, 7, 3) == 1;
    assert CountFrom(ws, [false, true], alive, 7, 2) == 1;
    assert CountFrom(ws, [false, true], alive, 7, 1) == 1;
  }

  lemma HoldsTwo1_27(ws: seq<World>, f: Formula, alive: seq<int>)
    requires ws == StatesLevelTwo()
    requires f == Atom("b")
    requires alive == [0, 1, 3, 4, 5, 6, 7, 8, 9]
    ensures Holds(f, ws, DefaultVisibility(), DefaultPlayers(), alive, [false, true], 7, false) == true
  {
    CountTwo1B7(ws, alive);
  }

  lemma CountTwo1B8(ws: seq<World>, alive: seq<int>)
    requires ws == StatesLevelTwo()
    requires alive == [0, 1, 3, 4, 5, 6, 7, 8, 9]
    ensures CountFrom(ws, [false, true], alive, 8, 0) == 1
  {
    assert CountFrom(ws, [false, true], alive, 8, 8) == 0;
    assert CountFrom(ws, [false, true], alive, 8, 7) == 1;
    assert CountFrom(ws, [false, true], alive, 8, 6) == 1;
    assert CountFrom(ws, [false, true], alive, 8, 5) == 1;
    assert CountFrom(ws, [false, true], alive, 8, 4) == 1;
    assert CountFrom(ws, [false, true], alive, 8, 3) == 1;
    assert CountFrom(ws, [false, true], alive, 8, 2) == 1;
    assert CountFrom(ws, [false, true], alive, 8, 1) == 1;
  }

  lemma HoldsTwo1_28(ws: seq<World>, f: Formula, alive: seq<int>)
    requires ws == StatesLevelTwo()
    requires f == Atom("b")
    requires alive == [0, 1, 3, 4, 5, 6, 7, 8, 9]
    ensures Holds(f, ws, DefaultVisibility(), DefaultPlayers(), alive, [false, true], 8, false) == false
  {
    CountTwo1B8(ws, alive);
  }

  lemma CountTwo1B9(ws: seq<World>, alive: seq<int>)
    requires ws == StatesLevelTwo()
    requires alive == [0, 1, 3, 4, 5, 6, 7, 8, 9]
    ensures CountFrom(ws, [false, true], alive, 9, 0) == 2
  {
    assert CountFrom(ws, [false, true], alive, 9, 8) == 1;
    assert CountFrom(ws, [false, true], alive, 9, 7) == 1;
    assert CountFrom(ws, [false, true], alive, 9, 6) == 1;
    assert CountFrom(ws, [false, true], alive, 9, 5) == 1;
    assert CountFrom(ws, [false, true], alive, 9, 4) == 2;
    assert CountFrom(ws, [false, true], alive, 9, 3) == 2;
    assert CountFrom(ws, [false, true], alive, 9, 2) == 2;
    assert CountFrom(ws, [false, true], alive, 9, 1) == 2;
  }

  lemma HoldsTwo1_29(ws: seq<World>, f: Formula, alive: seq<int>)
    requires ws == StatesLevelTwo()
    requires f == Atom("b")
    requires alive == [0, 1, 3, 4, 5, 6, 7, 8, 9]
    ensures Holds(f, ws, DefaultVisibility(), DefaultPlayers(), alive, [false, true], 9, false) == true
  {
    CountTwo1B9(ws, alive);
  }

  lemma KeptTwo1_7(ws: seq<World>, t: Target, alive: seq<int>)
    requires ws == StatesLevelTwo()
    requires t == Target("Be", Atom("b"), false)
    requires alive == [0, 1, 3, 4, 5, 6, 7, 8, 9]
    ensures KeptFrom(t, ws, DefaultVisibility(), DefaultPlayers(), alive, [false, true], 7) == [8]
  {
    HoldsTwo1_29(ws, t.inner, alive);
    HoldsTwo1_28(ws, t.inner, alive);
    assert KeptFrom(t, ws, DefaultVisibility(), DefaultPlayers(), alive, [false, true], 8) == [];
  }

  lemma KeptTwo1_5(ws: seq<World>, t: Target, alive: seq<int>)
    requires ws == StatesLevelTwo()
    requires t == Target("Be", Atom("b"), false)
    requires alive == [0, 1, 3, 4, 5, 6, 7, 8, 9]
    ensures KeptFrom(t, ws, DefaultVisibility(), DefaultPlayers(), alive, [false, true], 5) == [8]
  {
    KeptTwo1_7(ws, t, alive);
    HoldsTwo1_27(ws, t.inner, alive);
    HoldsTwo1_26(ws, t.inner, alive);
    assert KeptFrom(t, ws, DefaultVisibility(), DefaultPlayers(), alive, [false, true], 6) == [8];
  }

  lemma KeptTwo1_3(ws: seq<World>, t: Target, alive: seq<int>)
    requires ws == StatesLevelTwo()
    requires t == Target("Be", Atom("b"), false)
    requires alive == [0, 1, 3, 4, 5, 6, 7, 8, 9]
    ensures KeptFrom(t, ws, DefaultVisibility(), DefaultPlayers(), alive, [false, true], 3) == [8]
  {
    KeptTwo1_5(ws, t, alive);
    HoldsTwo1_25(ws, t.inner, alive);
    HoldsTwo1_24(ws, t.inner, alive);
    assert KeptFrom(t, ws, DefaultVisibility(), DefaultPlayers(), alive, [false, true], 4) == [8];
  }

  lemma KeptTwo1_1(ws: seq<World>, t: Target, alive: seq<int>)
    requires ws == StatesLevelTwo()
    requires t == Target("Be", Atom("b"), false)
    requires alive == [0, 1, 3, 4, 5, 6, 7, 8, 9]
    ensures KeptFrom(t, ws, DefaultVisibility(), DefaultPlayers(), alive, [false, true], 1) == [8]
  {
    KeptTwo1_3(ws, t, alive);
    HoldsTwo1_23(ws, t.inner, alive);
    HoldsTwo1_22(ws, t.inner, alive);
    assert KeptFrom(t, ws, DefaultVisibility(), DefaultPlayers(), alive, [false, true], 2) == [8];
  }

  lemma KeptTwo1_0(ws: seq<World>, t: Target, alive: seq<int>)
    requires ws == StatesLevelTwo()
    requires t == Target("Be", Atom("b"), false)
    requires alive == [0, 1, 3, 4, 5, 6, 7, 8, 9]
    ensures KeptFrom(t, ws, DefaultVisibility(), DefaultPlayers(), alive, [false, true], 0) == [8]
  {
    KeptTwo1_1(ws, t, alive);
    HoldsTwo1_21(ws, t.inner, alive);
  }

  lemma SurvivorsTwo1(ws: seq<World>, f: Formula, alive: seq<int>)
    requires ws == StatesLevelTwo()
    requires f == Know("Be", Atom("b"))
    requires alive == [0, 1, 3, 4, 5, 6, 7, 8, 9]
    ensures Survivors(f, ws, DefaultVisibility(), DefaultPlayers(), alive) == [8]
  {
    KeptTwo1_0(ws, Target("Be", Atom("b"), false), alive);
    assert Spine(f, false) == Some(Target("Be", Atom("b"), false));
    assert AgentIndex(DefaultPlayers(), "Be") == Some(1);
  }

  lemma LevelTwoOutcome(ws: seq<World>, anns: seq<Formula>, alive: seq<int>)
    requires ws == StatesLevelTwo()
    requires anns == AllAnnouncements("Al", "Be")[1]
    requires alive == Range(10)
    ensures Outcome(anns, ws, DefaultVisibility(), DefaultPlayers(), alive) == [8]
  {
    RangeTen(alive);
    assert anns == [Not(Know("Al", Atom("b"))), Know("Be", Atom("b"))];
    SurvivorsTwo0(ws, anns[0], alive);
    SurvivorsTwo1(ws, anns[1], [0, 1, 3, 4, 5, 6, 7, 8, 9]);
    assert Outcome(anns[2..], ws, DefaultVisibility(), DefaultPlayers(), [8]) == [8];
    assert anns[1..][0] == anns[1] && anns[1..][1..] == anns[2..];
    assert Outcome(anns[1..], ws, DefaultVisibility(), DefaultPlayers(), [0, 1, 3, 4, 5, 6, 7, 8, 9]) == [8];
  }

  lemma CountThree0B0(ws: seq<World>, alive: seq<int>)
    requires ws == StatesLevelThree()
    requires alive == [0, 1, 2, 3, 4, 5, 6, 7, 8, 9]
    ensures CountFrom(ws, [false, true], alive, 0, 0) == 3
  {
    assert CountFrom(ws, [false, true], alive, 0, 9) == 0;
    assert CountFrom(ws, [false, true], alive, 0, 8) == 1;
    assert CountFrom(ws, [false, true], alive, 0, 7) == 1;
    assert CountFrom(ws, [false, true], alive, 0, 6) == 1;
    assert CountFrom(ws, [false, true], alive, 0, 5) == 1;
    assert CountFrom(ws, [false, true], alive, 0, 4) == 1;
    assert CountFrom(ws, [false, true], alive, 0, 3) == 1;
    assert CountFrom(ws, [false, true], alive, 0, 2) == 2;
    assert CountFrom(ws, [false, true], alive, 0, 1) == 2;
  }

  lemma HoldsThree0_30(ws: seq<World>, f: Formula, alive: seq<int>)
    requires ws == StatesLevelThree()
    requires f == Atom("b")
    requires alive == [0, 1, 2, 3, 4, 5, 6, 7, 8, 9]
    ensures Holds(f, ws, DefaultVisibility(), DefaultPlayers(), alive, [false, true], 0, true) == false
  {
    CountThree0B0(ws, alive);
  }

  lemma CountThree0B1(ws: seq<World>, alive: seq<int>)
    requires ws == StatesLevelThree()
    requires alive == [0, 1, 2, 3, 4, 5, 6, 7, 8, 9]
    ensures CountFrom(ws, [false, true], alive, 1, 0) == 1
  {
    assert CountFrom(ws, [false, true], alive, 1, 9) == 0;
    assert CountFrom(ws, [false, true], alive, 1, 8) == 0;
    assert CountFrom(ws, [false, true], alive, 1, 7) == 0;
    assert CountFrom(ws, [false, true], alive, 1, 6) == 0;
    assert CountFrom(ws, [false, true], alive, 1, 5) == 0;
    assert CountFrom(ws, [false, true], alive, 1, 4) == 0;
    assert CountFrom(ws, [false, true], alive, 1, 3) == 0;
    assert CountFrom(ws, [false, true], alive, 1, 2) == 0;
    assert CountFrom(ws, [false, true], alive, 1, 1) == 1;
  }

  lemma HoldsThree0_31(ws: seq<World>, f: Formula, alive: seq<int>)
    requires ws == StatesLevelThree()
    requires f == Atom("b")
    requires alive == [0, 1, 2, 3, 4, 5, 6, 7, 8, 9]
    ensures Holds(f, ws, DefaultVisibility(), DefaultPlayers(), alive, [false, true], 1, true) == true
  {
    CountThree0B1(ws, alive);
  }

  lemma HoldsThree0_32(ws: seq<World>, f: Formula, alive: seq<int>)
    requires ws == StatesLevelThree()
    requires f == Know("Be", Atom("b"))
    requires alive == [0, 1, 2, 3, 4, 5, 6, 7, 8, 9]
    ensures Holds(f, ws, DefaultVisibility(), DefaultPlayers(), alive, [true, false], 0, true) == true
  {
    HoldsThree0_30(ws, f.inner, alive);
    HoldsThree0_31(ws, f.inner, alive);
    assert AgentIndex(DefaultPlayers(), "Be") == Some(1);
    assert !Alike(ws, [true, false], 0, 9);
    assert SomeMarks(f, ws, DefaultVisibility(), DefaultPlayers(), alive, [true, false], 0, [false, true], 9, true) == false;
    assert !Alike(ws, [true, false], 0, 8);
    assert SomeMarks(f, ws, DefaultVisibility(), DefaultPlayers(), alive, [true, false], 0, [false, true], 8, true) == false;
    assert !Alike(ws, [true, false], 0, 7);
    assert SomeMarks(f, ws, DefaultVisibility(), DefaultPlayers(), alive, [true, false], 0, [false, true], 7, true) == false;
    assert !Alike(ws, [true, false], 0, 6);
    assert SomeMarks(f, ws, DefaultVisibility(), DefaultPlayers(), alive, [true, false], 0, [false, true], 6, true) == false;
    assert !Alike(ws, [true, false], 0, 5);
    assert SomeMarks(f, ws, DefaultVisibility(), DefaultPlayers(), alive, [true, false], 0, [false, true], 5, true) == false;
    assert !Alike(ws, [true, false], 0, 4);
    assert SomeMarks(f, ws, DefaultVisibility(), DefaultPlayers(), alive, [true, false], 0, [false, true], 4, true) == false;
    assert !Alike(ws, [true, false], 0, 3);
    assert SomeMarks(f, ws, DefaultVisibility(), DefaultPlayers(), alive, [true, false], 0, [false, true], 3, true) == false;
    assert !Alike(ws, [true, false], 0, 2);
    assert SomeMarks(f, ws, DefaultVisibility(), DefaultPlayers(), alive, [true, false], 0, [false, true], 2, true) == false;
    assert Alike(ws, [true, false], 0, 1);
    assert SomeMarks(f, ws, DefaultVisibility(), DefaultPlayers(), alive, [true, false], 0, [false, true], 1, true) == true;
    assert Alike(ws, [true, false], 0, 0);
    assert SomeMarks(f, ws, DefaultVisibility(), DefaultPlayers(), alive, [true, false], 0, [false, true], 0, true) == true;
  }

  lemma HoldsThree0_33(ws: seq<World>, f: Formula, alive: seq<int>)
    requires ws == StatesLevelThree()
    requires f == Not(Know("Be", Atom("b")))
    requires alive == [0, 1, 2, 3, 4, 5, 6, 7, 8, 9]
    ensures Holds(f, ws, DefaultVisibility(), DefaultPlayers(), alive, [true, false], 0, false) == true
  {
    HoldsThree0_32(ws, f.inner, alive);
  }

  lemma HoldsThree0_34(ws: seq<World>, f: Formula, alive: seq<int>)
    requires ws == StatesLevelThree()
    requires f == Know("Be", Atom("b"))
    requires alive == [0, 1, 2, 3, 4, 5, 6, 7, 8, 9]
    ensures Holds(f, ws, DefaultVisibility(), DefaultPlayers(), alive, [true, false], 1, true) == true
  {
    HoldsThree0_30(ws, f.inner, alive);
    HoldsThree0_31(ws, f.inner, alive);
    assert AgentIndex(DefaultPlayers(), "Be") == Some(1);
    assert !Alike(ws, [true, false], 1, 9);
    assert SomeMarks(f, ws, DefaultVisibility(), DefaultPlayers(), alive, [true, false], 1, [false, true], 9, true) == false;
    assert !Alike(ws, [true, false], 1, 8);
    assert SomeMarks(f, ws, DefaultVisibility(), DefaultPlayers(), alive, [true, false], 1, [false, true], 8, true) == false;
    assert !Alike(ws, [true, false], 1, 7);
    assert SomeMarks(f, ws, DefaultVisibility(), DefaultPlayers(), alive, [true, false], 1, [false, true], 7, true) == false;
    assert !Alike(ws, [true, false], 1, 6);
    assert SomeMarks(f, ws, DefaultVisibility(), DefaultPlayers(), alive, [true, false], 1, [false, true], 6, true) == false;
    assert !Alike(ws, [true, false], 1, 5);
    assert SomeMarks(f, ws, DefaultVisibility(), DefaultPlayers(), alive, [true, false], 1, [false, true], 5, true) == false;
    assert !Alike(ws, [true, false], 1, 4);
    assert SomeMarks(f, ws, DefaultVisibility(), DefaultPlayers(), alive, [true, false], 1, [false, true], 4, true) == false;
    assert !Alike(ws, [true, false], 1, 3);
    assert SomeMarks(f, ws, DefaultVisibility(), DefaultPlayers(), alive, [true, false], 1, [false, true], 3, true) == false;
    assert !Alike(ws, [true, false], 1, 2);
    assert SomeMarks(f, ws, DefaultVisibility(), DefaultPlayers(), alive, [true, false], 1, [false, true], 2, true) == false;
    assert Alike(ws, [true, false], 1, 1);
    assert SomeMarks(f, ws, DefaultVisibility(), DefaultPlayers(), alive, [true, false], 1, [false, true], 1, true) == true;
    assert Alike(ws, [true, false], 1, 0);
    assert SomeMarks(f, ws, DefaultVisibility(), DefaultPlayers(), alive, [true, false], 1, [false, true], 0, true) == true;
  }

  lemma HoldsThree0_35(ws: seq<World>, f: Formula, alive: seq<int>)
    requires ws == StatesLevelThree()
    requires f == Not(Know("Be", Atom("b")))
    requires alive == [0, 1, 2, 3, 4, 5, 6, 7, 8, 9]
    ensures Holds(f, ws, DefaultVisibility(), DefaultPlayers(), alive, [true, false], 1, false) == true
  {
    HoldsThree0_34(ws, f.inner, alive);
  }

  lemma CountThree0B2(ws: seq<World>, alive: seq<int>)
    requires ws == StatesLevelThree()
    requires alive == [0, 1, 2, 3, 4, 5, 6, 7, 8, 9]
    ensures CountFrom(ws, [false, true], alive, 2, 0) == 3
  {
    assert CountFrom(ws, [false, true], alive, 2, 9) == 0;
    assert CountFrom(ws, [false, true], alive, 2, 8) == 1;
    assert CountFrom(ws, [false, true], alive, 2, 7) == 1;
    assert CountFrom(ws, [false, true], alive, 2, 6) == 1;
    assert CountFrom(ws, [false, true], alive, 2, 5) == 1;
    assert CountFrom(ws, [false, true], alive, 2, 4) == 1;
    assert CountFrom(ws, [false, true], alive, 2, 3) == 1;
    assert CountFrom(ws, [false, true], alive, 2, 2) == 2;
    assert CountFrom(ws, [false, true], alive, 2, 1) == 2;
  }

  lemma HoldsThree0_36(ws: seq<World>, f: Formula, alive: seq<int>)
    requires ws == StatesLevelThree()
    requires f == Atom("b")
    requires alive == [0, 1, 2, 3, 4, 5, 6, 7, 8, 9]
    ensures Holds(f, ws, DefaultVisibility(), DefaultPlayers(), alive, [false, true], 2, true) == false
  {
    CountThree0B2(ws, alive);
  }

  lemma CountThree0B3(ws: seq<World>, alive: seq<int>)
    requires ws == StatesLevelThree()
    requires alive == [0, 1, 2, 3, 4, 5, 6, 7, 8, 9]
    ensures CountFrom(ws, [false, true], alive, 3, 0) == 1
  {
    assert CountFrom(ws, [false, true], alive, 3, 9) == 0;
    assert CountFrom(ws, [false, true], alive, 3, 8) == 0;
    assert CountFrom(ws, [false, true], alive, 3, 7) == 0;
    assert CountFrom(ws, [false, true], alive, 3, 6) == 0;
    assert CountFrom(ws, [false, true], alive, 3, 5) == 0;
    assert CountFrom(ws, [false, true], alive, 3, 4) == 0;
    assert CountFrom(ws, [false, true], alive, 3, 3) == 1;
    assert CountFrom(ws, [false, true], alive, 3, 2) == 1;
    assert CountFrom(ws, [false, true], alive, 3, 1) == 1;
  }

  lemma HoldsThree0_37(ws: seq<World>, f: Formula, alive: seq<int>)
    requires ws == StatesLevelThree()
    requires f == Atom("b")
    requires alive == [0, 1, 2, 3, 4, 5, 6, 7, 8, 9]
    ensures Holds(f, ws, DefaultVisibility(), DefaultPlayers(), alive, [false, true], 3, true) == true
  {
    CountThree0B3(ws, alive);
  }

  lemma HoldsThree0_38(ws: seq<World>, f: Formula, alive: seq<int>)
    requires ws == StatesLevelThree()
    requires f == Know("Be", Atom("b"))
    requires alive == [0, 1, 2, 3, 4, 5, 6, 7, 8, 9]
    ensures Holds(f, ws, DefaultVisibility(), DefaultPlayers(), alive, [true, false], 2, true) == true
  {
    HoldsThree0_36(ws, f.inner, alive);
    HoldsThree0_37(ws, f.inner, alive);
    assert AgentIndex(DefaultPlayers(), "Be") == Some(1);
    assert !Alike(ws, [true, false], 2, 9);
    assert SomeMarks(f, ws, DefaultVisibility(), DefaultPlayers(), alive, [true, false], 2, [false, true], 9, true) == false;
    assert !Alike(ws, [true, false], 2, 8);
    assert SomeMarks(f, ws, DefaultVisibility(), DefaultPlayers(), alive, [true, false], 2, [false, true], 8, true) == false;
    assert !Alike(ws, [true, false], 2, 7);
    assert SomeMarks(f, ws, DefaultVisibility(), DefaultPlayers(), alive, [true, false], 2, [false, true], 7, true) == false;
    assert !Alike(ws, [true, false], 2, 6);
    assert SomeMarks(f, ws, DefaultVisibility(), DefaultPlayers(), alive, [true, false], 2, [false, true], 6, true) == false;
    assert !Alike(ws, [true, false], 2, 5);
    assert SomeMarks(f, ws, DefaultVisibility(), DefaultPlayers(), alive, [true, false], 2, [false, true], 5, true) == false;
    assert !Alike(ws, [true, false], 2, 4);
    assert SomeMarks(f, ws, DefaultVisibility(), DefaultPlayers(), alive, [true, false], 2, [false, true], 4, true) == false;
    assert Alike(ws, [true, false], 2, 3);
    assert SomeMarks(f, ws, DefaultVisibility(), DefaultPlayers(), alive, [true, false], 2, [false, true], 3, true) == true;
    assert Alike(ws, [true, false], 2, 2);
    assert SomeMarks(f, ws, DefaultVisibility(), DefaultPlayers(), alive, [true, false], 2, [false, true], 2, true) == true;
    assert !Alike(ws, [true, false], 2, 1);
    assert SomeMarks(f, ws, DefaultVisibility(), DefaultPlayers(), alive, [true, false], 2, [false, true], 1, true) == true;
    assert !Alike(ws, [true, false], 2, 0);
    assert SomeMarks(f, ws, DefaultVisibility(), DefaultPlayers(), alive, [true, false], 2, [false, true], 0, true) == true;
  }

  lemma HoldsThree0_39(ws: seq<World>, f: Formula, alive: seq<int>)
    requires ws == StatesLevelThree()
    requires f == Not(Know("Be", Atom("b")))
    requires alive == [0, 1, 2, 3, 4, 5, 6, 7, 8, 9]
    ensures Holds(f, ws, DefaultVisibility(), DefaultPlayers(), alive, [true, false], 2, false) == true
  {
    HoldsThree0_38(ws, f.inner, alive);
  }

  lemma HoldsThree0_40(ws: seq<World>, f: Formula, alive: seq<int>)
    requires ws == StatesLevelThree()
    requires f == Know("Be", Atom("b"))
    requires alive == [0, 1, 2, 3, 4, 5, 6, 7, 8, 9]
    ensures Holds(f, ws, DefaultVisibility(), DefaultPlayers(), alive, [true, false], 3, true) == true
  {
    HoldsThree0_36(ws, f.inner, alive);
    HoldsThree0_37(ws, f.inner, alive);
    assert AgentIndex(DefaultPlayers(), "Be") == Some(1);
    assert !Alike(ws, [true, false], 3, 9);
    assert SomeMarks(f, ws, DefaultVisibility(), DefaultPlayers(), alive, [true, false], 3, [false, true], 9, true) == false;
    assert !Alike(ws, [true, false], 3, 8);
    assert SomeMarks(f, ws, DefaultVisibility(), DefaultPlayers(), alive, [true, false], 3, [false, true], 8, true) == false;
    assert !Alike(ws, [true, false], 3, 7);
    assert SomeMarks(f, ws, DefaultVisibility(), DefaultPlayers(), alive, [true, false], 3, [false, true], 7, true) == false;
    assert !Alike(ws, [true, false], 3, 6);
    assert SomeMarks(f, ws, DefaultVisibility(), DefaultPlayers(), alive, [true, false], 3, [false, true], 6, true) == false;
    assert !Alike(ws, [true, false], 3, 5);
    assert SomeMarks(f, ws, DefaultVisibility(), DefaultPlayers(), alive, [true, false], 3, [false, true], 5, true) == false;
    assert !Alike(ws, [true, false], 3, 4);
    assert SomeMarks(f, ws, DefaultVisibility(), DefaultPlayers(), alive, [true, false], 3, [false, true], 4, true) == false;
    assert Alike(ws, [true, false], 3, 3);
    assert SomeMarks(f, ws, DefaultVisibility(), DefaultPlayers(), alive, [true, false], 3, [false, true], 3, true) == true;
    assert Alike(ws, [true, false], 3, 2);
    assert SomeMarks(f, ws, DefaultVisibility(), DefaultPlayers(), alive, [true, false], 3, [false, true], 2, true) == true;
    assert !Alike(ws, [true, false], 3, 1);
    assert SomeMarks(f, ws, DefaultVisibility(), DefaultPlayers(), alive, [true, false], 3, [false, true], 1, true) == true;
    assert !Alike(ws, [true, false], 3, 0);
    assert SomeMarks(f, ws, DefaultVisibility(), DefaultPlayers(), alive, [true, false], 3, [false, true], 0, true) == true;
  }

  lemma HoldsThree0_41(ws: seq<World>, f: Formula, alive: seq<int>)
    requires ws == StatesLevelThree()
    requires f == Not(Know("Be", Atom("b")))
    requires alive == [0, 1, 2, 3, 4, 5, 6, 7, 8, 9]
    ensures Holds(f, ws, DefaultVisibility(), DefaultPlayers(), alive, [true, false], 3, false) == true
  {
    HoldsThree0_40(ws, f.inner, alive);
  }

  lemma CountThree0B4(ws: seq<World>, alive: seq<int>)
    requires ws == StatesLevelThree()
    requires alive == [0, 1, 2, 3, 4, 5, 6, 7, 8, 9]
    ensures CountFrom(ws, [false, true], alive, 4, 0) == 2
  {
    assert CountFrom(ws, [false, true], alive, 4, 9) == 0;
    assert CountFrom(ws, [false, true], alive, 4, 8) == 0;
    assert CountFrom(ws, [false, true], alive, 4, 7) == 0;
    assert CountFrom(ws, [false, true], alive, 4, 6) == 1;
    assert CountFrom(ws, [false, true], alive, 4, 5) == 1;
    assert CountFrom(ws, [false, true], alive, 4, 4) == 2;
    assert CountFrom(ws, [false, true], alive, 4, 3) == 2;
    assert CountFrom(ws, [false, true], alive, 4, 2) == 2;
    assert CountFrom(ws, [false, true], alive, 4, 1) == 2;
  }

  lemma HoldsThree0_42(ws: seq<World>, f: Formula, alive: seq<int>)
    requires ws == StatesLevelThree()
    requires f == Atom("b")
    requires alive == [0, 1, 2, 3, 4, 5, 6, 7, 8, 9]
    ensures Holds(f, ws, DefaultVisibility(), DefaultPlayers(), alive, [false, true], 4, true) == false
  {
    CountThree0B4(ws, alive);
  }

  lemma CountThree0B5(ws: seq<World>, alive: seq<int>)
    requires ws == StatesLevelThree()
    requires alive == [0, 1, 2, 3, 4, 5, 6, 7, 8, 9]
    ensures CountFrom(ws, [false, true], alive, 5, 0) == 3
  {
    assert CountFrom(ws, [false, true], alive, 5, 9) == 1;
    assert CountFrom(ws, [false, true], alive, 5, 8) == 1;
    assert CountFrom(ws, [false, true], alive, 5, 7) == 2;
    assert CountFrom(ws, [false, true], alive, 5, 6) == 2;
    assert CountFrom(ws, [false, true], alive, 5, 5) == 3;
    assert CountFrom(ws, [false, true], alive, 5, 4) == 3;
    assert CountFrom(ws, [false, true], alive, 5, 3) == 3;
    assert CountFrom(ws, [false, true], alive, 5, 2) == 3;
    assert CountFrom(ws, [false, true], alive, 5, 1) == 3;
  }

  lemma HoldsThree0_43(ws: seq<World>, f: Formula, alive: seq<int>)
    requires ws == StatesLevelThree()
    requires f == Atom("b")
    requires alive == [0, 1, 2, 3, 4, 5, 6, 7, 8, 9]
    ensures Holds(f, ws, DefaultVisibility(), DefaultPlayers(), alive, [false, true], 5, true) == false
  {
    CountThree0B5(ws, alive);
  }

  lemma HoldsThree0_44(ws: seq<World>, f: Formula, alive: seq<int>)
    requires ws == StatesLevelThree()
    requires f == Know("Be", Atom("b"))
    requires alive == [0, 1, 2, 3, 4, 5, 6, 7, 8, 9]
    ensures Holds(f, ws, DefaultVisibility(), DefaultPlayers(), alive, [true, false], 4, true) == false
  {
    HoldsThree0_42(ws, f.inner, alive);
    HoldsThree0_43(ws, f.inner, alive);
    assert AgentIndex(DefaultPlayers(), "Be") == Some(1);
    assert !Alike(ws, [true, false], 4, 9);
    assert SomeMarks(f, ws, DefaultVisibility(), DefaultPlayers(), alive, [true, false], 4, [false, true], 9, true) == false;
    assert !Alike(ws, [true, false], 4, 8);
    assert SomeMarks(f, ws, DefaultVisibility(), DefaultPlayers(), alive, [true, false], 4, [false, true], 8, true) == false;
    assert !Alike(ws, [true, false], 4, 7);
    assert SomeMarks(f, ws, DefaultVisibility(), DefaultPlayers(), alive, [true, false], 4, [false, true], 7, true) == false;
    assert !Alike(ws, [true, false], 4, 6);
    assert SomeMarks(f, ws, DefaultVisibility(), DefaultPlayers(), alive, [true, false], 4, [false, true], 6, true) == false;
    assert Alike(ws, [true, false], 4, 5);
    assert SomeMarks(f, ws, DefaultVisibility(), DefaultPlayers(), alive, [true, false], 4, [false, true], 5, true) == false;
    assert Alike(ws, [true, false], 4, 4);
    assert SomeMarks(f, ws, DefaultVisibility(), DefaultPlayers(), alive, [true, false], 4, [false, true], 4, true) == false;
    assert !Alike(ws, [true, false], 4, 3);
    assert SomeMarks(f, ws, DefaultVisibility(), DefaultPlayers(), alive, [true, false], 4, [false, true], 3, true) == false;
    assert !Alike(ws, [true, false], 4, 2);
    assert SomeMarks(f, ws, DefaultVisibility(), DefaultPlayers(), alive, [true, false], 4, [false, true], 2, true) == false;
    assert !Alike(ws, [true, false], 4, 1);
    assert SomeMarks(f, ws, DefaultVisibility(), DefaultPlayers(), alive, [true, false], 4, [false, true], 1, true) == false;
    assert !Alike(ws, [true, false], 4, 0);
    assert SomeMarks(f, ws, DefaultVisibility(), DefaultPlayers(), alive, [true, false], 4, [false, true], 0, true) == false;
  }

  lemma HoldsThree0_45(ws: seq<World>, f: Formula, alive: seq<int>)
    requires ws == StatesLevelThree()
    requires f == Not(Know("Be", Atom("b")))
    requires alive == [0, 1, 2, 3, 4, 5, 6, 7, 8, 9]
    ensures Holds(f, ws, DefaultVisibility(), DefaultPlayers(), alive, [true, false], 4, false) == false
  {
    HoldsThree0_44(ws, f.inner, alive);
  }

  lemma HoldsThree0_46(ws: seq<World>, f: Formula, alive: seq<int>)
    requires ws == StatesLevelThree()
    requires f == Know("Be", Atom("b"))
    requires alive == [0, 1, 2, 3, 4, 5, 6, 7, 8, 9]
    ensures Holds(f, ws, DefaultVisibility(), DefaultPlayers(), alive, [true, false], 5, true) == false
  {
    HoldsThree0_42(ws, f.inner, alive);
    HoldsThree0_43(ws, f.inner, alive);
    assert AgentIndex(DefaultPlayers(), "Be") == Some(1);
    assert !Alike(ws, [true, false], 5, 9);
    assert SomeMarks(f, ws, DefaultVisibility(), DefaultPlayers(), alive, [true, false], 5, [false, true], 9, true) == false;
    assert !Alike(ws, [true, false], 5, 8);
    assert SomeMarks(f, ws, DefaultVisibility(), DefaultPlayers(), alive, [true, false], 5, [false, true], 8, true) == false;
    assert !Alike(ws, [true, false], 5, 7);
    assert SomeMarks(f, ws, DefaultVisibility(), DefaultPlayers(), alive, [true, false], 5, [false, true], 7, true) == false;
    assert !Alike(ws, [true, false], 5, 6);
    assert SomeMarks(f, ws, DefaultVisibility(), DefaultPlayers(), alive, [true, false], 5, [false, true], 6, true) == false;
    assert Alike(ws, [true, false], 5, 5);
    assert SomeMarks(f, ws, DefaultVisibility(), DefaultPlayers(), alive, [true, false], 5, [false, true], 5, true) == false;
    assert Alike(ws, [true, false], 5, 4);
    assert SomeMarks(f, ws, DefaultVisibility(), DefaultPlayers(), alive, [true, false], 5, [false, true], 4, true) == false;
    assert !Alike(ws, [true, false], 5, 3);
    assert SomeMarks(f, ws, DefaultVisibility(), DefaultPlayers(), alive, [true, false], 5, [false, true], 3, true) == false;
    assert !Alike(ws, [true, false], 5, 2);
    assert SomeMarks(f, ws, DefaultVisibility(), DefaultPlayers(), alive, [true, false], 5, [false, true], 2, true) == false;
    assert !Alike(ws, [true, false], 5, 1);
    assert SomeMarks(f, ws, DefaultVisibility(), DefaultPlayers(), alive, [true, false], 5, [false, true], 1, true) == false;
    assert !Alike(ws, [true, false], 5, 0);
    assert SomeMarks(f, ws, DefaultVisibility(), DefaultPlayers(), alive, [true, false], 5, [false, true], 0, true) == false;
  }

  lemma HoldsThree0_47(ws: seq<World>, f: Formula, alive: seq<int>)
    requires ws == StatesLevelThree()
    requires f == Not(Know("Be", Atom("b")))
    requires alive == [0, 1, 2, 3, 4, 5, 6, 7, 8, 9]
    ensures Holds(f, ws, DefaultVisibility(), DefaultPlayers(), alive, [true, false], 5, false) == false
  {
    HoldsThree0_46(ws, f.inner, alive);
  }

  lemma CountThree0B6(ws: seq<World>, alive: seq<int>)
    requires ws == StatesLevelThree()
    requires alive == [0, 1, 2, 3, 4, 5, 6, 7, 8, 9]
    ensures CountFrom(ws, [false, true], alive, 6, 0) == 2
  {
    assert CountFrom(ws, [false, true], alive, 6, 9) == 0;
    assert CountFrom(ws, [false, true], alive, 6, 8) == 0;
    assert CountFrom(ws, [false, true], alive, 6, 7) == 0;
    assert CountFrom(ws, [false, true], alive, 6, 6) == 1;
    assert CountFrom(ws, [false, true], alive, 6, 5) == 1;
    assert CountFrom(ws, [false, true], alive, 6, 4) == 2;
    assert CountFrom(ws, [false, true], alive, 6, 3) == 2;
    assert CountFrom(ws, [false, true], alive, 6, 2) == 2;
    assert CountFrom(ws, [false, true], alive, 6, 1) == 2;
  }

  lemma HoldsThree0_48(ws: seq<World>, f: Formula, alive: seq<int>)
    requires ws == StatesLevelThree()
    requires f == Atom("b")
    requires alive == [0, 1, 2, 3, 4, 5, 6, 7, 8, 9]
    ensures Holds(f, ws, DefaultVisibility(), DefaultPlayers(), alive, [false, true], 6, true) == false
  {
    CountThree0B6(ws, alive);
  }

  lemma CountThree0B7(ws: seq<World>, alive: seq<int>)
    requires ws == StatesLevelThree()
    requires alive == [0, 1, 2, 3, 4, 5, 6, 7, 8, 9]
    ensures CountFrom(ws, [false, true], alive, 7, 0) == 3
  {
    assert CountFrom(ws, [false, true], alive, 7, 9) == 1;
    assert CountFrom(ws, [false, true], alive, 7, 8) == 1;
    assert CountFrom(ws, [false, true], alive, 7, 7) == 2;
    assert CountFrom(ws, [false, true], alive, 7, 6) == 2;
    assert CountFrom(ws, [false, true], alive, 7, 5) == 3;
    assert CountFrom(ws, [false, true], alive, 7, 4) == 3;
    assert CountFrom(ws, [false, true], alive, 7, 3) == 3;
    assert CountFrom(ws, [false, true], alive, 7, 2) == 3;
    assert CountFrom(ws, [false, true], alive, 7, 1) == 3;
  }

  lemma HoldsThree0_49(ws: seq<World>, f: Formula, alive: seq<int>)
    requires ws == StatesLevelThree()
    requires f == Atom("b")
    requires alive == [0, 1, 2, 3, 4, 5, 6, 7, 8, 9]
    ensures Holds(f, ws, DefaultVisibility(), DefaultPlayers(), alive, [false, true], 7, true) == false
  {
    CountThree0B7(ws, alive);
  }

  lemma HoldsThree0_50(ws: seq<World>, f: Formula, alive: seq<int>)
    requires ws == StatesLevelThree()
    requires f == Know("Be", Atom("b"))
    requires alive == [0, 1, 2, 3, 4, 5, 6, 7, 8, 9]
    ensures Holds(f, ws, DefaultVisibility(), DefaultPlayers(), alive, [true, false], 6, true) == false
  {
    HoldsThree0_48(ws, f.inner, alive);
    HoldsThree0_49(ws, f.inner, alive);
    assert AgentIndex(DefaultPlayers(), "Be") == Some(1);
    assert !Alike(ws, [true, false], 6, 9);
    assert SomeMarks(f, ws, DefaultVisibility(), DefaultPlayers(), alive, [true, false], 6, [false, true], 9, true) == false;
    assert !Alike(ws, [true, false], 6, 8);
    assert SomeMarks(f, ws, DefaultVisibility(), DefaultPlayers(), alive, [true, false], 6, [false, true], 8, true) == false;
    assert Alike(ws, [true, false], 6, 7);
    assert SomeMarks(f, ws, DefaultVisibility(), DefaultPlayers(), alive, [true, false], 6, [false, true], 7, true) == false;
    assert Alike(ws, [true, false], 6, 6);
    assert SomeMarks(f, ws, DefaultVisibility(), DefaultPlayers(), alive, [true, false], 6, [false, true], 6, true) == false;
    assert !Alike(ws, [true, false], 6, 5);
    assert SomeMarks(f, ws, DefaultVisibility(), DefaultPlayers(), alive, [true, false], 6, [false, true], 5, true) == false;
    assert !Alike(ws, [true, false], 6, 4);
    assert SomeMarks(f, ws, DefaultVisibility(), DefaultPlayers(), alive, [true, false], 6, [false, true], 4, true) == false;
    assert !Alike(ws, [true, false], 6, 3);
    assert SomeMarks(f, ws, DefaultVisibility(), DefaultPlayers(), alive, [true, false], 6, [false, true], 3, true) == false;
    assert !Alike(ws, [true, false], 6, 2);
    assert SomeMarks(f, ws, DefaultVisibility(), DefaultPlayers(), alive, [true, false], 6, [false, true], 2, true) == false;
    assert !Alike(ws, [true, false], 6, 1);
    assert SomeMarks(f, ws, DefaultVisibility(), DefaultPlayers(), alive, [true, false], 6, [false, true], 1, true) == false;
    assert !Alike(ws, [true, false], 6, 0);
    assert SomeMarks(f, ws, DefaultVisibility(), DefaultPlayers(), alive, [true, false], 6, [false, true], 0, true) == false;
  }

  lemma HoldsThree0_51(ws: seq<World>, f: Formula, alive: seq<int>)
    requires ws == StatesLevelThree()
    requires f == Not(Know("Be", Atom("b")))
    requires alive == [0, 1, 2, 3, 4, 5, 6, 7, 8, 9]
    ensures Holds(f, ws, DefaultVisibility(), DefaultPlayers(), alive, [true, false], 6, false) == false
  {
    HoldsThree0_50(ws, f.inner, alive);
  }

  lemma HoldsThree0_52(ws: seq<World>, f: Formula, alive: seq<int>)
    requires ws == StatesLevelThree()
    requires f == Know("Be", Atom("b"))
    requires alive == [0, 1, 2, 3, 4, 5, 6, 7, 8, 9]
    ensures Holds(f, ws, DefaultVisibility(), DefaultPlayers(), alive, [true, false], 7, true) == false
  {
    HoldsThree0_48(ws, f.inner, alive);
    HoldsThree0_49(ws, f.inner, alive);
    assert AgentIndex(DefaultPlayers(), "Be") == Some(1);
    assert !Alike(ws, [true, false], 7, 9);
    assert SomeMarks(f, ws, DefaultVisibility(), DefaultPlayers(), alive, [true, false], 7, [false, true], 9, true) == false;
    assert !Alike(ws, [true, false], 7, 8);
    assert SomeMarks(f, ws, DefaultVisibility(), DefaultPlayers(), alive, [true, false], 7, [false, true], 8, true) == false;
    assert Alike(ws, [true, false], 7, 7);
    assert SomeMarks(f, ws, DefaultVisibility(), DefaultPlayers(), alive, [true, false], 7, [false, true], 7, true) == false;
    assert Alike(ws, [true, false], 7, 6);
    assert SomeMarks(f, ws, DefaultVisibility(), DefaultPlayers(), alive, [true, false], 7, [false, true], 6, true) == false;
    assert !Alike(ws, [true, false], 7, 5);
    assert SomeMarks(f, ws, DefaultVisibility(), DefaultPlayers(), alive, [true, false], 7, [false, true], 5, true) == false;
    assert !Alike(ws, [true, false], 7, 4);
    assert SomeMarks(f, ws, DefaultVisibility(), DefaultPlayers(), alive, [true, false], 7, [false, true], 4, true) == false;
    assert !Alike(ws, [true, false], 7, 3);
    assert SomeMarks(f, ws, DefaultVisibility(), DefaultPlayers(), alive, [true, false], 7, [false, true], 3, true) == false;
    assert !Alike(ws, [true, false], 7, 2);
    assert SomeMarks(f, ws, DefaultVisibility(), DefaultPlayers(), alive, [true, false], 7, [false, true], 2, true) == false;
    assert !Alike(ws, [true, false], 7, 1);
    assert SomeMarks(f, ws, DefaultVisibility(), DefaultPlayers(), alive, [true, false], 7, [false, true], 1, true) == false;
    assert !Alike(ws, [true, false], 7, 0);
    assert SomeMarks(f, ws, DefaultVisibility(), DefaultPlayers(), alive, [true, false], 7, [false, true], 0, true) == false;
  }

  lemma HoldsThree0_53(ws: seq<World>, f: Formula, alive: seq<int>)
    requires ws == StatesLevelThree()
    requires f == Not(Know("Be", Atom("b")))
    requires alive == [0, 1, 2, 3, 4, 5, 6, 7, 8, 9]
    ensures Holds(f, ws, DefaultVisibility(), DefaultPlayers(), alive, [true, false], 7, false) == false
  {
    HoldsThree0_52(ws, f.inner, alive);
  }

  lemma CountThree0B8(ws: seq<World>, alive: seq<int>)
    requires ws == StatesLevelThree()
    requires alive == [0, 1, 2, 3, 4, 5, 6, 7, 8, 9]
    ensures CountFrom(ws, [false, true], alive, 8, 0) == 3
  {
    assert CountFrom(ws, [false, true], alive, 8, 9) == 0;
    assert CountFrom(ws, [false, true], alive, 8, 8) == 1;
    assert CountFrom(ws, [false, true], alive, 8, 7) == 1;
    assert CountFrom(ws, [false, true], alive, 8, 6) == 1;
    assert CountFrom(ws, [false, true], alive, 8, 5) == 1;
    assert CountFrom(ws, [false, true], alive, 8, 4) == 1;
    assert CountFrom(ws, [false, true], alive, 8, 3) == 1;
    assert CountFrom(ws, [false, true], alive, 8, 2) == 2;
    assert CountFrom(ws, [false, true], alive, 8, 1) == 2;
  }

  lemma HoldsThree0_54(ws: seq<World>, f: Formula, alive: seq<int>)
    requires ws == StatesLevelThree()
    requires f == Atom("b")
    requires alive == [0, 1, 2, 3, 4, 5, 6, 7, 8, 9]
    ensures Holds(f, ws, DefaultVisibility(), DefaultPlayers(), alive, [false, true], 8, true) == false
  {
    CountThree0B8(ws, alive);
  }

  lemma CountThree0B9(ws: seq<World>, alive: seq<int>)
    requires ws == StatesLevelThree()
    requires alive == [0, 1, 2, 3, 4, 5, 6, 7, 8, 9]
    ensures CountFrom(ws, [false, true], alive, 9, 0) == 3
  {
    assert CountFrom(ws, [false, true], alive, 9, 9) == 1;
    assert CountFrom(ws, [false, true], alive, 9, 8) == 1;
    assert CountFrom(ws, [false, true], alive, 9, 7) == 2;
    assert CountFrom(ws, [false, true], alive, 9, 6) == 2;
    assert CountFrom(ws, [false, true], alive, 9, 5) == 3;
    assert CountFrom(ws, [false, true], alive, 9, 4) == 3;
    assert CountFrom(ws, [false, true], alive, 9, 3) == 3;
    assert CountFrom(ws, [false, true], alive, 9, 2) == 3;
    assert CountFrom(ws, [false, true], alive, 9, 1) == 3;
  }

  lemma HoldsThree0_55(ws: seq<World>, f: Formula, alive: seq<int>)
    requires ws == StatesLevelThree()
    requires f == Atom("b")
    requires alive == [0, 1, 2, 3, 4, 5, 6, 7, 8, 9]
    ensures Holds(f, ws, DefaultVisibility(), DefaultPlayers(), alive, [false, true], 9, true) == false
  {
    CountThree0B9(ws, alive);
  }

  lemma HoldsThree0_56(ws: seq<World>, f: Formula, alive: seq<int>)
    requires ws == StatesLevelThree()
    requires f == Know("Be", Atom("b"))
    requires alive == [0, 1, 2, 3, 4, 5, 6, 7, 8, 9]
    ensures Holds(f, ws, DefaultVisibility(), DefaultPlayers(), alive, [true, false], 8, true) == false
  {
    HoldsThree0_54(ws, f.inner, alive);
    HoldsThree0_55(ws, f.inner, alive);
    assert AgentIndex(DefaultPlayers(), "Be") == Some(1);
    assert Alike(ws, [true, false], 8, 9);
    assert SomeMarks(f, ws, DefaultVisibility(), DefaultPlayers(), alive, [true, false], 8, [false, true], 9, true) == false;
    assert Alike(ws, [true, false], 8, 8);
    assert SomeMarks(f, ws, DefaultVisibility(), DefaultPlayers(), alive, [true, false], 8, [false, true], 8, true) == false;
    assert !Alike(ws, [true, false], 8, 7);
    assert SomeMarks(f, ws, DefaultVisibility(), DefaultPlayers(), alive, [true, false], 8, [false, true], 7, true) == false;
    assert !Alike(ws, [true, false], 8, 6);
    assert SomeMarks(f, ws, DefaultVisibility(), DefaultPlayers(), alive, [true, false], 8, [false, true], 6, true) == false;
    assert !Alike(ws, [true, false], 8, 5);
    assert SomeMarks(f, ws, DefaultVisibility(), DefaultPlayers(), alive, [true, false], 8, [false, true], 5, true) == false;
    assert !Alike(ws, [true, false], 8, 4);
    assert SomeMarks(f, ws, DefaultVisibility(), DefaultPlayers(), alive, [true, false], 8, [false, true], 4, true) == false;
    assert !Alike(ws, [true, false], 8, 3);
    assert SomeMarks(f, ws, DefaultVisibility(), DefaultPlayers(), alive, [true, false], 8, [false, true], 3, true) == false;
    assert !Alike(ws, [true, false], 8, 2);
    assert SomeMarks(f, ws, DefaultVisibility(), DefaultPlayers(), alive, [true, false], 8, [false, true], 2, true) == false;
    assert !Alike(ws, [true, false], 8, 1);
    assert SomeMarks(f, ws, DefaultVisibility(), DefaultPlayers(), alive, [true, false], 8, [false, true], 1, true) == false;
    assert !Alike(ws, [true, false], 8, 0);
    assert SomeMarks(f, ws, DefaultVisibility(), DefaultPlayers(), alive, [true, false], 8, [false, true], 0, true) == false;
  }

  lemma HoldsThree0_57(ws: seq<World>, f: Formula, alive: seq<int>)
    requires ws == StatesLevelThree()
    requires f == Not(Know("Be", Atom("b")))
    requires alive == [0, 1, 2, 3, 4, 5, 6, 7, 8, 9]
    ensures Holds(f, ws, DefaultVisibility(), DefaultPlayers(), alive, [true, false], 8, false) == false
  {
    HoldsThree0_56(ws, f.inner, alive);
  }

  lemma HoldsThree0_58(ws: seq<World>, f: Formula, alive: seq<int>)
    requires ws == StatesLevelThree()
    requires f == Know("Be", Atom("b"))
    requires alive == [0, 1, 2, 3, 4, 5, 6, 7, 8, 9]
    ensures Holds(f, ws, DefaultVisibility(), DefaultPlayers(), alive, [true, false], 9, true) == false
  {
    HoldsThree0_54(ws, f.inner, alive);
    HoldsThree0_55(ws, f.inner, alive);
    assert AgentIndex(DefaultPlayers(), "Be") == Some(1);
    assert Alike(ws, [true, false], 9, 9);
    assert SomeMarks(f, ws, DefaultVisibility(), DefaultPlayers(), alive, [true, false], 9, [false, true], 9, true) == false;
    assert Alike(ws, [true, false], 9, 8);
    assert SomeMarks(f, ws, DefaultVisibility(), DefaultPlayers(), alive, [true, false], 9, [false, true], 8, true) == false;
    assert !Alike(ws, [true, false], 9, 7);
    assert SomeMarks(f, ws, DefaultVisibility(), DefaultPlayers(), alive, [true, false], 9, [false, true], 7, true) == false;
    assert !Alike(ws, [true, false], 9, 6);
    assert SomeMarks(f, ws, DefaultVisibility(), DefaultPlayers(), alive, [true, false], 9, [false, true], 6, true) == false;
    assert !Alike(ws, [true, false], 9, 5);
    assert SomeMarks(f, ws, DefaultVisibility(), DefaultPlayers(), alive, [true, false], 9, [false, true], 5, true) == false;
    assert !Alike(ws, [true, false], 9, 4);
    assert SomeMarks(f, ws, DefaultVisibility(), DefaultPlayers(), alive, [true, false], 9, [false, true], 4, true) == false;
    assert !Alike(ws, [true, false], 9, 3);
    assert SomeMarks(f, ws, DefaultVisibility(), DefaultPlayers(), alive, [true, false], 9, [false, true], 3, true) == false;
    assert !Alike(ws, [true, false], 9, 2);
    assert SomeMarks(f, ws, DefaultVisibility(), DefaultPlayers(), alive, [true, false], 9, [false, true], 2, true) == false;
    assert !Alike(ws, [true, false], 9, 1);
    assert SomeMarks(f, ws, DefaultVisibility(), DefaultPlayers(), alive, [true, false], 9, [false, true], 1, true) == false;
    assert !Alike(ws, [true, false], 9, 0);
    assert SomeMarks(f, ws, DefaultVisibility(), DefaultPlayers(), alive, [true, false], 9, [false, true], 0, true) == false;
  }

  lemma HoldsThree0_59(ws: seq<World>, f: Formula, alive: seq<int>)
    requires ws == StatesLevelThree()
    requires f == Not(Know("Be", Atom("b")))
    requires alive == [0, 1, 2, 3, 4, 5, 6, 7, 8, 9]
    ensures Holds(f, ws, DefaultVisibility(), DefaultPlayers(), alive, [true, false], 9, false) == false
  {
    HoldsThree0_58(ws, f.inner, alive);
  }

  lemma KeptThree0_8(ws: seq<World>, t: Target, alive: seq<int>)
    requires ws == StatesLevelThree()
    requires t == Target("Al", Not(Know("Be", Atom("b"))), false)
    requires alive == [0, 1, 2, 3, 4, 5, 6, 7, 8, 9]
    ensures KeptFrom(t, ws, DefaultVisibility(), DefaultPlayers(), alive, [true, false], 8) == [8, 9]
  {
    HoldsThree0_59(ws, t.inner, alive);
    HoldsThree0_57(ws, t.inner, alive);
    assert KeptFrom(t, ws, DefaultVisibility(), DefaultPlayers(), alive, [true, false], 9) == [9];
  }

  lemma KeptThree0_6(ws: seq<World>, t: Target, alive: seq<int>)
    requires ws == StatesLevelThree()
    requires t == Target("Al", Not(Know("Be", Atom("b"))), false)
    requires alive == [0, 1, 2, 3, 4, 5, 6, 7, 8, 9]
    ensures KeptFrom(t, ws, DefaultVisibility(), DefaultPlayers(), alive, [true, false], 6) == [6, 7, 8, 9]
  {
    KeptThree0_8(ws, t, alive);
    HoldsThree0_53(ws, t.inner, alive);
    HoldsThree0_51(ws, t.inner, alive);
    assert KeptFrom(t, ws, DefaultVisibility(), DefaultPlayers(), alive, [true, false], 7) == [7, 8, 9];
  }

  lemma KeptThree0_4(ws: seq<World>, t: Target, alive: seq<int>)
    requires ws == StatesLevelThree()
    requires t == Target("Al", Not(Know("Be", Atom("b"))), false)
    requires alive == [0, 1, 2, 3, 4, 5, 6, 7, 8, 9]
    ensures KeptFrom(t, ws, DefaultVisibility(), DefaultPlayers(), alive, [true, false], 4) == [4, 5, 6, 7, 8, 9]
  {
    KeptThree0_6(ws, t, alive);
    HoldsThree0_47(ws, t.inner, alive);
    HoldsThree0_45(ws, t.inner, alive);
    assert KeptFrom(t, ws, DefaultVisibility(), DefaultPlayers(), alive, [true, false], 5) == [5, 6, 7, 8, 9];
  }

  lemma KeptThree0_2(ws: seq<World>, t: Target, alive: seq<int>)
    requires ws == StatesLevelThree()
    requires t == Target("Al", Not(Know("Be", Atom("b"))), false)
    requires alive == [0, 1, 2, 3, 4, 5, 6, 7, 8, 9]
    ensures KeptFrom(t, ws, DefaultVisibility(), DefaultPlayers(), alive, [true, false], 2) == [4, 5, 6, 7, 8, 9]
  {
    KeptThree0_4(ws, t, alive);
    HoldsThree0_41(ws, t.inner, alive);
    HoldsThree0_39(ws, t.inner, alive);
    assert KeptFrom(t, ws, DefaultVisibility(), DefaultPlayers(), alive, [true, false], 3) == [4, 5, 6, 7, 8, 9];
  }

  lemma KeptThree0_0(ws: seq<World>, t: Target, alive: seq<int>)
    requires ws == StatesLevelThree()
    requires t == Target("Al", Not(Know("Be", Atom("b"))), false)
    requires alive == [0, 1, 2, 3, 4, 5, 6, 7, 8, 9]
    ensures KeptFrom(t, ws, DefaultVisibility(), DefaultPlayers(), alive, [true, false], 0) == [4, 5, 6, 7, 8, 9]
  {
    KeptThree0_2(ws, t, alive);
    HoldsThree0_35(ws, t.inner, alive);
    HoldsThree0_33(ws, t.inner, alive);
    assert KeptFrom(t, ws, DefaultVisibility(), DefaultPlayers(), alive, [true, false], 1) == [4, 5, 6, 7, 8, 9];
  }

  lemma SurvivorsThree0(ws: seq<World>, f: Formula, alive: seq<int>)
    requires ws == StatesLevelThree()
    requires f == Know("Al", Not(Know("Be", Atom("b"))))
    requires alive == [0, 1, 2, 3, 4, 5, 6, 7, 8, 9]
    ensures Survivors(f, ws, DefaultVisibility(), DefaultPlayers(), alive) == [4, 5, 6, 7, 8, 9]
  {
    KeptThree0_0(ws, Target("Al", Not(Know("Be", Atom("b"))), false), alive);
    assert Spine(f, false) == Some(Target("Al", Not(Know("Be", Atom("b"))), false));
    assert AgentIndex(DefaultPlayers(), "Al") == Some(0);
  }

  lemma CountThree1B4(ws: seq<World>, alive: seq<int>)
    requires ws == StatesLevelThree()
    requires alive == [4, 5, 6, 7, 8, 9]
    ensures CountFrom(ws, [false, true], alive, 4, 0) == 2
  {
    assert CountFrom(ws, [false, true], alive, 4, 5) == 0;
    assert CountFrom(ws, [false, true], alive, 4, 4) == 0;
    assert CountFrom(ws, [false, true], alive, 4, 3) == 0;
    assert CountFrom(ws, [false, true], alive, 4, 2) == 1;
    assert CountFrom(ws, [false, true], alive, 4, 1) == 1;
  }

  lemma HoldsThree1_60(ws: seq<World>, f: Formula, alive: seq<int>)
    requires ws == StatesLevelThree()
    requires f == Atom("b")
    requires alive == [4, 5, 6, 7, 8, 9]
    ensures Holds(f, ws, DefaultVisibility(), DefaultPlayers(), alive, [false, true], 4, false) == true
  {
    CountThree1B4(ws, alive);
  }

  lemma CountThree1B5(ws: seq<World>, alive: seq<int>)
    requires ws == StatesLevelThree()
    requires alive == [4, 5, 6, 7, 8, 9]
    ensures CountFrom(ws, [false, true], alive, 5, 0) == 3
  {
    assert CountFrom(ws, [false, true], alive, 5, 5) == 1;
    assert CountFrom(ws, [false, true], alive, 5, 4) == 1;
    assert CountFrom(ws, [false, true], alive, 5, 3) == 2;
    assert CountFrom(ws, [false, true], alive, 5, 2) == 2;
    assert CountFrom(ws, [false, true], alive, 5, 1) == 3;
  }

  lemma HoldsThree1_61(ws: seq<World>, f: Formula, alive: seq<int>)
    requires ws == StatesLevelThree()
    requires f == Atom("b")
    requires alive == [4, 5, 6, 7, 8, 9]
    ensures Holds(f, ws, DefaultVisibility(), DefaultPlayers(), alive, [false, true], 5, false) == true
  {
    CountThree1B5(ws, alive);
  }

  lemma CountThree1B6(ws: seq<World>, alive: seq<int>)
    requires ws == StatesLevelThree()
    requires alive == [4, 5, 6, 7, 8, 9]
    ensures CountFrom(ws, [false, true], alive, 6, 0) == 2
  {
    assert CountFrom(ws, [false, true], alive, 6, 5) == 0;
    assert CountFrom(ws, [false, true], alive, 6, 4) == 0;
    assert CountFrom(ws, [false, true], alive, 6, 3) == 0;
    assert CountFrom(ws, [false, true], alive, 6, 2) == 1;
    assert CountFrom(ws, [false, true], alive, 6, 1) == 1;
  }

  lemma HoldsThree1_62(ws: seq<World>, f: Formula, alive: seq<int>)
    requires ws == StatesLevelThree()
    requires f == Atom("b")
    requires alive == [4, 5, 6, 7, 8, 9]
    ensures Holds(f, ws, DefaultVisibility(), DefaultPlayers(), alive, [false, true], 6, false) == true
  {
    CountThree1B6(ws, alive);
  }

  lemma CountThree1B7(ws: seq<World>, alive: seq<int>)
    requires ws == StatesLevelThree()
    requires alive == [4, 5, 6, 7, 8, 9]
    ensures CountFrom(ws, [false, true], alive, 7, 0) == 3
  {
    assert CountFrom(ws, [false, true], alive, 7, 5) == 1;
    assert CountFrom(ws, [false, true], alive, 7, 4) == 1;
    assert CountFrom(ws, [false, true], alive, 7, 3) == 2;
    assert CountFrom(ws, [false, true], alive, 7, 2) == 2;
    assert CountFrom(ws, [false, true], alive, 7, 1) == 3;
  }

  lemma HoldsThree1_63(ws: seq<World>, f: Formula, alive: seq<int>)
    requires ws == StatesLevelThree()
    requires f == Atom("b")
    requires alive == [4, 5, 6, 7, 8, 9]
    ensures Holds(f, ws, DefaultVisibility(), DefaultPlayers(), alive, [false, true], 7, false) == true
  {
    CountThree1B7(ws, alive);
  }

  lemma CountThree1B8(ws: seq<World>, alive: seq<int>)
    requires ws == StatesLevelThree()
    requires alive == [4, 5, 6, 7, 8, 9]
    ensures CountFrom(ws, [false, true], alive, 8, 0) == 1
  {
    assert CountFrom(ws, [false, true], alive, 8, 5) == 0;
    assert CountFrom(ws, [false, true], alive, 8, 4) == 1;
    assert CountFrom(ws, [false, true], alive, 8, 3) == 1;
    assert CountFrom(ws, [false, true], alive, 8, 2) == 1;
    assert CountFrom(ws, [false, true], alive, 8, 1) == 1;
  }

  lemma HoldsThree1_64(ws: seq<World>, f: Formula, alive: seq<int>)
    requires ws == StatesLevelThree()
    requires f == Atom("b")
    requires alive == [4, 5, 6, 7, 8, 9]
    ensures Holds(f, ws, DefaultVisibility(), DefaultPlayers(), alive, [false, true], 8, false) == false
  {
    CountThree1B8(ws, alive);
  }

  lemma CountThree1B9(ws: seq<World>, alive: seq<int>)
    requires ws == StatesLevelThree()
    requires alive == [4, 5, 6, 7, 8, 9]
    ensures CountFrom(ws, [false, true], alive, 9, 0) == 3
  {
    assert CountFrom(ws, [false, true], alive, 9, 5) == 1;
    assert CountFrom(ws, [false, true], alive, 9, 4) == 1;
    assert CountFrom(ws, [false, true], alive, 9, 3) == 2;
    assert CountFrom(ws, [false, true], alive, 9, 2) == 2;
    assert CountFrom(ws, [false, true], alive, 9, 1) == 3;
  }

  lemma HoldsThree1_65(ws: seq<World>, f: Formula, alive: seq<int>)
    requires ws == StatesLevelThree()
    requires f == Atom("b")
    requires alive == [4, 5, 6, 7, 8, 9]
    ensures Holds(f, ws, DefaultVisibility(), DefaultPlayers(), alive, [false, true], 9, false) == true
  {
    CountThree1B9(ws, alive);
  }

  lemma KeptThree1_4(ws: seq<World>, t: Target, alive: seq<int>)
    requires ws == StatesLevelThree()
    requires t == Target("Be", Atom("b"), false)
    requires alive == [4, 5, 6, 7, 8, 9]
    ensures KeptFrom(t, ws, DefaultVisibility(), DefaultPlayers(), alive, [false, true], 4) == [8]
  {
    HoldsThree1_65(ws, t.inner, alive);
    HoldsThree1_64(ws, t.inner, alive);
    assert KeptFrom(t, ws, DefaultVisibility(), DefaultPlayers(), alive, [false, true], 5) == [];
  }

  lemma KeptThree1_2(ws: seq<World>, t: Target, alive: seq<int>)
    requires ws == StatesLevelThree()
    requires t == Target("Be", Atom("b"), false)
    requires alive == [4, 5, 6, 7, 8, 9]
    ensures KeptFrom(t, ws, DefaultVisibility(), DefaultPlayers(), alive, [false, true], 2) == [8]
  {
    KeptThree1_4(ws, t, alive);
    HoldsThree1_63(ws, t.inner, alive);
    HoldsThree1_62(ws, t.inner, alive);
    assert KeptFrom(t, ws, DefaultVisibility(), DefaultPlayers(), alive, [false, true], 3) == [8];
  }

  lemma KeptThree1_0(ws: seq<World>, t: Target, alive: seq<int>)
    requires ws == StatesLevelThree()
    requires t == Target("Be", Atom("b"), false)
    requires alive == [4, 5, 6, 7, 8, 9]
    ensures KeptFrom(t, ws, DefaultVisibility(), DefaultPlayers(), alive, [false, true], 0) == [8]
  {
    KeptThree1_2(ws, t, alive);
    HoldsThree1_61(ws, t.inner, alive);
    HoldsThree1_60(ws, t.inner, alive);
    assert KeptFrom(t, ws, DefaultVisibility(), DefaultPlayers(), alive, [false, true], 1) == [8];
  }

  lemma SurvivorsThree1(ws: seq<World>, f: Formula, alive: seq<int>)
    requires ws == StatesLevelThree()
    requires f == Know("Be", Atom("b"))
    requires alive == [4, 5, 6, 7, 8, 9]
    ensures Survivors(f, ws, DefaultVisibility(), DefaultPlayers(), alive) == [8]
  {
    KeptThree1_0(ws, Target("Be", Atom("b"), false), alive);
    assert Spine(f, false) == Some(Target("Be", Atom("b"), false));
    assert AgentIndex(DefaultPlayers(), "Be") == Some(1);
  }

  lemma LevelThreeOutcome(ws: seq<World>, anns: seq<Formula>, alive: seq<int>)
    requires ws == StatesLevelThree()
    requires anns == AllAnnouncements("Al", "Be")[2]
    requires alive == Range(10)
    ensures Outcome(anns, ws, DefaultVisibility(), DefaultPlayers(), alive) == [8]
  {
    RangeTen(alive);
    assert anns == [Know("Al", Not(Know("Be", Atom("b")))), Know("Be", Atom("b"))];
    SurvivorsThree0(ws, anns[0], alive);
    SurvivorsThree1(ws, anns[1], [4, 5, 6, 7, 8, 9]);
    assert Outcome(anns[2..], ws, DefaultVisibility(), DefaultPlayers(), [8]) == [8];
    assert anns[1..][0] == anns[1] && anns[1..][1..] == anns[2..];
    assert Outcome(anns[1..], ws, DefaultVisibility(), DefaultPlayers(), [4, 5, 6, 7, 8, 9]) == [8];
  }

  lemma CountFour0B0(ws: seq<World>, alive: seq<int>)
    requires ws == StatesLevelFour()
    requires alive == [0, 1, 2, 3, 4, 5, 6, 7, 8, 9]
    ensures CountFrom(ws, [false, true], alive, 0, 0) == 2
  {
    assert CountFrom(ws, [false, true], alive, 0, 9) == 0;
    assert CountFrom(ws, [false, true], alive, 0, 8) == 0;
    assert CountFrom(ws, [false, true], alive, 0, 7) == 0;
    assert CountFrom(ws, [false, true], alive, 0, 6) == 0;
    assert CountFrom(ws, [false, true], alive, 0, 5) == 0;
    assert CountFrom(ws, [false, true], alive, 0, 4) == 0;
    assert CountFrom(ws, [false, true], alive, 0, 3) == 1;
    assert CountFrom(ws, [false, true], alive, 0, 2) == 1;
    assert CountFrom(ws, [false, true], alive, 0, 1) == 1;
  }

  lemma HoldsFour0_66(ws: seq<World>, f: Formula, alive: seq<int>)
    requires ws == StatesLevelFour()
    requires f == Atom("b")
    requires alive == [0, 1, 2, 3, 4, 5, 6, 7, 8, 9]
    ensures Holds(f, ws, DefaultVisibility(), DefaultPlayers(), alive, [false, true], 0, true) == false
  {
    CountFour0B0(ws, alive);
  }

  lemma CountFour0B1(ws: seq<World>, alive: seq<int>)
    requires ws == StatesLevelFour()
    requires alive == [0, 1, 2, 3, 4, 5, 6, 7, 8, 9]
    ensures CountFrom(ws, [false, true], alive, 1, 0) == 2
  {
    assert CountFrom(ws, [false, true], alive, 1, 9) == 0;
    assert CountFrom(ws, [false, true], alive, 1, 8) == 0;
    assert CountFrom(ws, [false, true], alive, 1, 7) == 0;
    assert CountFrom(ws, [false, true], alive, 1, 6) == 0;
    assert CountFrom(ws, [false, true], alive, 1, 5) == 1;
    assert CountFrom(ws, [false, true], alive, 1, 4) == 1;
    assert CountFrom(ws, [false, true], alive, 1, 3) == 1;
    assert CountFrom(ws, [false, true], alive, 1, 2) == 1;
    assert CountFrom(ws, [false, true], alive, 1, 1) == 2;
  }

  lemma HoldsFour0_67(ws: seq<World>, f: Formula, alive: seq<int>)
    requires ws == StatesLevelFour()
    requires f == Atom("b")
    requires alive == [0, 1, 2, 3, 4, 5, 6, 7, 8, 9]
    ensures Holds(f, ws, DefaultVisibility(), DefaultPlayers(), alive, [false, true], 1, true) == false
  {
    CountFour0B1(ws, alive);
  }

  lemma HoldsFour0_68(ws: seq<World>, f: Formula, alive: seq<int>)
    requires ws == StatesLevelFour()
    requires f == Know("Be", Atom("b"))
    requires alive == [0, 1, 2, 3, 4, 5, 6, 7, 8, 9]
    ensures Holds(f, ws, DefaultVisibility(), DefaultPlayers(), alive, [true, false], 0, true) == false
  {
    HoldsFour0_66(ws, f.inner, alive);
    HoldsFour0_67(ws, f.inner, alive);
    assert AgentIndex(DefaultPlayers(), "Be") == Some(1);
    assert !Alike(ws, [true, false], 0, 9);
    assert SomeMarks(f, ws, DefaultVisibility(), DefaultPlayers(), alive, [true, false], 0, [false, true], 9, true) == false;
    assert !Alike(ws, [true, false], 0, 8);
    assert SomeMarks(f, ws, DefaultVisibility(), DefaultPlayers(), alive, [true, false], 0, [false, true], 8, true) == false;
    assert !Alike(ws, [true, false], 0, 7);
    assert SomeMarks(f, ws, DefaultVisibility(), DefaultPlayers(), alive, [true, false], 0, [false, true], 7, true) == false;
    assert !Alike(ws, [true, false], 0, 6);
    assert SomeMarks(f, ws, DefaultVisibility(), DefaultPlayers(), alive, [true, false], 0, [false, true], 6, true) == false;
    assert !Alike(ws, [true, false], 0, 5);
    assert SomeMarks(f, ws, DefaultVisibility(), DefaultPlayers(), alive, [true, false], 0, [false, true], 5, true) == false;
    assert !Alike(ws, [true, false], 0, 4);
    assert SomeMarks(f, ws, DefaultVisibility(), DefaultPlayers(), alive, [true, false], 0, [false, true], 4, true) == false;
    assert !Alike(ws, [true, false], 0, 3);
    assert SomeMarks(f, ws, DefaultVisibility(), DefaultPlayers(), alive, [true, false], 0, [false, true], 3, true) == false;
    assert !Alike(ws, [true, false], 0, 2);
    assert SomeMarks(f, ws, DefaultVisibility(), DefaultPlayers(), alive, [true, false], 0, [false, true], 2, true) == false;
    assert Alike(ws, [true, false], 0, 1);
    assert SomeMarks(f, ws, DefaultVisibility(), DefaultPlayers(), alive, [true, false], 0, [false, true], 1, true) == false;
    assert Alike(ws, [true, false], 0, 0);
    assert SomeMarks(f, ws, DefaultVisibility(), DefaultPlayers(), alive, [true, false], 0, [false, true], 0, true) == false;
  }

  lemma HoldsFour0_69(ws: seq<World>, f: Formula, alive: seq<int>)
    requires ws == StatesLevelFour()
    requires f == Not(Know("Be", Atom("b")))
    requires alive == [0, 1, 2, 3, 4, 5, 6, 7, 8, 9]
    ensures Holds(f, ws, DefaultVisibility(), DefaultPlayers(), alive, [true, false], 0, false) == false
  {
    HoldsFour0_68(ws, f.inner, alive);
  }

  lemma CountFour0B2(ws: seq<World>, alive: seq<int>)
    requires ws == StatesLevelFour()
    requires alive == [0, 1, 2, 3, 4, 5, 6, 7, 8, 9]
    ensures CountFrom(ws, [false, true], alive, 2, 0) == 1
  {
    assert CountFrom(ws, [false, true], alive, 2, 9) == 0;
    assert CountFrom(ws, [false, true], alive, 2, 8) == 0;
    assert CountFrom(ws, [false, true], alive, 2, 7) == 0;
    assert CountFrom(ws, [false, true], alive, 2, 6) == 0;
    assert CountFrom(ws, [false, true], alive, 2, 5) == 0;
    assert CountFrom(ws, [false, true], alive, 2, 4) == 0;
    assert CountFrom(ws, [false, true], alive, 2, 3) == 0;
    assert CountFrom(ws, [false, true], alive, 2, 2) == 1;
    assert CountFrom(ws, [false, true], alive, 2, 1) == 1;
  }

  lemma HoldsFour0_70(ws: seq<World>, f: Formula, alive: seq<int>)
    requires ws == StatesLevelFour()
    requires f == Atom("b")
    requires alive == [0, 1, 2, 3, 4, 5, 6, 7, 8, 9]
    ensures Holds(f, ws, DefaultVisibility(), DefaultPlayers(), alive, [false, true], 2, true) == true
  {
    CountFour0B2(ws, alive);
  }

  lemma CountFour0B3(ws: seq<World>, alive: seq<int>)
    requires ws == StatesLevelFour()
    requires alive == [0, 1, 2, 3, 4, 5, 6, 7, 8, 9]
    ensures CountFrom(ws, [false, true], alive, 3, 0) == 2
  {
    assert CountFrom(ws, [false, true], alive, 3, 9) == 0;
    assert CountFrom(ws, [false, true], alive, 3, 8) == 0;
    assert CountFrom(ws, [false, true], alive, 3, 7) == 0;
    assert CountFrom(ws, [false, true], alive, 3, 6) == 0;
    assert CountFrom(ws, [false, true], alive, 3, 5) == 0;
    assert CountFrom(ws, [false, true], alive, 3, 4) == 0;
    assert CountFrom(ws, [false, true], alive, 3, 3) == 1;
    assert CountFrom(ws, [false, true], alive, 3, 2) == 1;
    assert CountFrom(ws, [false, true], alive, 3, 1) == 1;
  }

  lemma HoldsFour0_71(ws: seq<World>, f: Formula, alive: seq<int>)
    requires ws == StatesLevelFour()
    requires f == Atom("b")
    requires alive == [0, 1, 2, 3, 4, 5, 6, 7, 8, 9]
    ensures Holds(f, ws, DefaultVisibility(), DefaultPlayers(), alive, [false, true], 3, true) == false
  {
    CountFour0B3(ws, alive);
  }

  lemma HoldsFour0_72(ws: seq<World>, f: Formula, alive: seq<int>)
    requires ws == StatesLevelFour()
    requires f == Know("Be", Atom("b"))
    requires alive == [0, 1, 2, 3, 4, 5, 6, 7, 8, 9]
    ensures Holds(f, ws, DefaultVisibility(), DefaultPlayers(), alive, [true, false], 3, true) == true
  {
    HoldsFour0_70(ws, f.inner, alive);
    HoldsFour0_71(ws, f.inner, alive);
    assert AgentIndex(DefaultPlayers(), "Be") == Some(1);
    assert !Alike(ws, [true, false], 3, 9);
    assert SomeMarks(f, ws, DefaultVisibility(), DefaultPlayers(), alive, [true, false], 3, [false, true], 9, true) == false;
    assert !Alike(ws, [true, false], 3, 8);
    assert SomeMarks(f, ws, DefaultVisibility(), DefaultPlayers(), alive, [true, false], 3, [false, true], 8, true) == false;
    assert !Alike(ws, [true, false], 3, 7);
    assert SomeMarks(f, ws, DefaultVisibility(), DefaultPlayers(), alive, [true, false], 3, [false, true], 7, true) == false;
    assert !Alike(ws, [true, false], 3, 6);
    assert SomeMarks(f, ws, DefaultVisibility(), DefaultPlayers(), alive, [true, false], 3, [false, true], 6, true) == false;
    assert !Alike(ws, [true, false], 3, 5);
    assert SomeMarks(f, ws, DefaultVisibility(), DefaultPlayers(), alive, [true, false], 3, [false, true], 5, true) == false;
    assert !Alike(ws, [true, false], 3, 4);
    assert SomeMarks(f, ws, DefaultVisibility(), DefaultPlayers(), alive, [true, false], 3, [false, true], 4, true) == false;
    assert Alike(ws, [true, false], 3, 3);
    assert SomeMarks(f, ws, DefaultVisibility(), DefaultPlayers(), alive, [true, false], 3, [false, true], 3, true) == false;
    assert Alike(ws, [true, false], 3, 2);
    assert SomeMarks(f, ws, DefaultVisibility(), DefaultPlayers(), alive, [true, false], 3, [false, true], 2, true) == true;
    assert !Alike(ws, [true, false], 3, 1);
    assert SomeMarks(f, ws, DefaultVisibility(), DefaultPlayers(), alive, [true, false], 3, [false, true], 1, true) == true;
    assert !Alike(ws, [true, false], 3, 0);
    assert SomeMarks(f, ws, DefaultVisibility(), DefaultPlayers(), alive, [true, false], 3, [false, true], 0, true) == true;
  }

  lemma HoldsFour0_73(ws: seq<World>, f: Formula, alive: seq<int>)
    requires ws == StatesLevelFour()
    requires f == Not(Know("Be", Atom("b")))
    requires alive == [0, 1, 2, 3, 4, 5, 6, 7, 8, 9]
    ensures Holds(f, ws, DefaultVisibility(), DefaultPlayers(), alive, [true, false], 3, false) == true
  {
    HoldsFour0_72(ws, f.inner, alive);
  }

  lemma HoldsFour0_74(ws: seq<World>, f: Formula, alive: seq<int>)
    requires ws == StatesLevelFour()
    requires f == Know("Al", Not(Know("Be", Atom("b"))))
    requires alive == [0, 1, 2, 3, 4, 5, 6, 7, 8, 9]
    ensures Holds(f, ws, DefaultVisibility(), DefaultPlayers(), alive, [false, true], 0, false) == true
  {
    HoldsFour0_69(ws, f.inner, alive);
    HoldsFour0_73(ws, f.inner, alive);
    assert AgentIndex(DefaultPlayers(), "Al") == Some(0);
    assert !Alike(ws, [false, true], 0, 9);
    assert SomeMarks(f, ws, DefaultVisibility(), DefaultPlayers(), alive, [false, true], 0, [true, false], 9, false) == false;
    assert !Alike(ws, [false, true], 0, 8);
    assert SomeMarks(f, ws, DefaultVisibility(), DefaultPlayers(), alive, [false, true], 0, [true, false], 8, false) == false;
    assert !Alike(ws, [false, true], 0, 7);
    assert SomeMarks(f, ws, DefaultVisibility(), DefaultPlayers(), alive, [false, true], 0, [true, false], 7, false) == false;
    assert !Alike(ws, [false, true], 0, 6);
    assert SomeMarks(f, ws, DefaultVisibility(), DefaultPlayers(), alive, [false, true], 0, [true, false], 6, false) == false;
    assert !Alike(ws, [false, true], 0, 5);
    assert SomeMarks(f, ws, DefaultVisibility(), DefaultPlayers(), alive, [false, true], 0, [true, false], 5, false) == false;
    assert !Alike(ws, [false, true], 0, 4);
    assert SomeMarks(f, ws, DefaultVisibility(), DefaultPlayers(), alive, [false, true], 0, [true, false], 4, false) == false;
    assert Alike(ws, [false, true], 0, 3);
    assert SomeMarks(f, ws, DefaultVisibility(), DefaultPlayers(), alive, [false, true], 0, [true, false], 3, false) == true;
    assert !Alike(ws, [false, true], 0, 2);
    assert SomeMarks(f, ws, DefaultVisibility(), DefaultPlayers(), alive, [false, true], 0, [true, false], 2, false) == true;
    assert !Alike(ws, [false, true], 0, 1);
    assert SomeMarks(f, ws, DefaultVisibility(), DefaultPlayers(), alive, [false, true], 0, [true, false], 1, false) == true;
    assert Alike(ws, [false, true], 0, 0);
    assert SomeMarks(f, ws, DefaultVisibility(), DefaultPlayers(), alive, [false, true], 0, [true, false], 0, false) == true;
  }

  lemma HoldsFour0_75(ws: seq<World>, f: Formula, alive: seq<int>)
    requires ws == StatesLevelFour()
    requires f == Know("Be", Atom("b"))
    requires alive == [0, 1, 2, 3, 4, 5, 6, 7, 8, 9]
    ensures Holds(f, ws, DefaultVisibility(), DefaultPlayers(), alive, [true, false], 1, true) == false
  {
    HoldsFour0_66(ws, f.inner, alive);
    HoldsFour0_67(ws, f.inner, alive);
    assert AgentIndex(DefaultPlayers(), "Be") == Some(1);
    assert !Alike(ws, [true, false], 1, 9);
    assert SomeMarks(f, ws, DefaultVisibility(), DefaultPlayers(), alive, [true, false], 1, [false, true], 9, true) == false;
    assert !Alike(ws, [true, false], 1, 8);
    assert SomeMarks(f, ws, DefaultVisibility(), DefaultPlayers(), alive, [true, false], 1, [false, true], 8, true) == false;
    assert !Alike(ws, [true, false], 1, 7);
    assert SomeMarks(f, ws, DefaultVisibility(), DefaultPlayers(), alive, [true, false], 1, [false, true], 7, true) == false;
    assert !Alike(ws, [true, false], 1, 6);
    assert SomeMarks(f, ws, DefaultVisibility(), DefaultPlayers(), alive, [true, false], 1, [false, true], 6, true) == false;
    assert !Alike(ws, [true, false], 1, 5);
    assert SomeMarks(f, ws, DefaultVisibility(), DefaultPlayers(), alive, [true, false], 1, [false, true], 5, true) == false;
    assert !Alike(ws, [true, false], 1, 4);
    assert SomeMarks(f, ws, DefaultVisibility(), DefaultPlayers(), alive, [true, false], 1, [false, true], 4, true) == false;
    assert !Alike(ws, [true, false], 1, 3);
    assert SomeMarks(f, ws, DefaultVisibility(), DefaultPlayers(), alive, [true, false], 1, [false, true], 3, true) == false;
    assert !Alike(ws, [true, false], 1, 2);
    assert SomeMarks(f, ws, DefaultVisibility(), DefaultPlayers(), alive, [true, false], 1, [false, true], 2, true) == false;
    assert Alike(ws, [true, false], 1, 1);
    assert SomeMarks(f, ws, DefaultVisibility(), DefaultPlayers(), alive, [true, false], 1, [false, true], 1, true) == false;
    assert Alike(ws, [true, false], 1, 0);
    assert SomeMarks(f, ws, DefaultVisibility(), DefaultPlayers(), alive, [true, false], 1, [false, true], 0, true) == false;
  }

  lemma HoldsFour0_76(ws: seq<World>, f: Formula, alive: seq<int>)
    requires ws == StatesLevelFour()
    requires f == Not(Know("Be", Atom("b")))
    requires alive == [0, 1, 2, 3, 4, 5, 6, 7, 8, 9]
    ensures Holds(f, ws, DefaultVisibility(), DefaultPlayers(), alive, [true, false], 1, false) == false
  {
    HoldsFour0_75(ws, f.inner, alive);
  }

  lemma CountFour0B4(ws: seq<World>, alive: seq<int>)
    requires ws == StatesLevelFour()
    requires alive == [0, 1, 2, 3, 4, 5, 6, 7, 8, 9]
    ensures CountFrom(ws, [false, true], alive, 4, 0) == 3
  {
    assert CountFrom(ws, [false, true], alive, 4, 9) == 1;
    assert CountFrom(ws, [false, true], alive, 4, 8) == 1;
    assert CountFrom(ws, [false, true], alive, 4, 7) == 2;
    assert CountFrom(ws, [false, true], alive, 4, 6) == 2;
    assert CountFrom(ws, [false, true], alive, 4, 5) == 2;
    assert CountFrom(ws, [false, true], alive, 4, 4) == 3;
    assert CountFrom(ws, [false, true], alive, 4, 3) == 3;
    assert CountFrom(ws, [false, true], alive, 4, 2) == 3;
    assert CountFrom(ws, [false, true], alive, 4, 1) == 3;
  }

  lemma HoldsFour0_77(ws: seq<World>, f: Formula, alive: seq<int>)
    requires ws == StatesLevelFour()
    requires f == Atom("b")
    requires alive == [0, 1, 2, 3, 4, 5, 6, 7, 8, 9]
    ensures Holds(f, ws, DefaultVisibility(), DefaultPlayers(), alive, [false, true], 4, true) == false
  {
    CountFour0B4(ws, alive);
  }

  lemma CountFour0B5(ws: seq<World>, alive: seq<int>)
    requires ws == StatesLevelFour()
    requires alive == [0, 1, 2, 3, 4, 5, 6, 7, 8, 9]
    ensures CountFrom(ws, [false, true], alive, 5, 0) == 2
  {
    assert CountFrom(ws, [false, true], alive, 5, 9) == 0;
    assert CountFrom(ws, [false, true], alive, 5, 8) == 0;
    assert CountFrom(ws, [false, true], alive, 5, 7) == 0;
    assert CountFrom(ws, [false, true], alive, 5, 6) == 0;
    assert CountFrom(ws, [false, true], alive, 5, 5) == 1;
    assert CountFrom(ws, [false, true], alive, 5, 4) == 1;
    assert CountFrom(ws, [false, true], alive, 5, 3) == 1;
    assert CountFrom(ws, [false, true], alive, 5, 2) == 1;
    assert CountFrom(ws, [false, true], alive, 5, 1) == 2;
  }

  lemma HoldsFour0_78(ws: seq<World>, f: Formula, alive: seq<int>)
    requires ws == StatesLevelFour()
    requires f == Atom("b")
    requires alive == [0, 1, 2, 3, 4, 5, 6, 7, 8, 9]
    ensures Holds(f, ws, DefaultVisibility(), DefaultPlayers(), alive, [false, true], 5, true) == false
  {
    CountFour0B5(ws, alive);
  }

  lemma HoldsFour0_79(ws: seq<World>, f: Formula, alive: seq<int>)
    requires ws == StatesLevelFour()
    requires f == Know("Be", Atom("b"))
    requires alive == [0, 1, 2, 3, 4, 5, 6, 7, 8, 9]
    ensures Holds(f, ws, DefaultVisibility(), DefaultPlayers(), alive, [true, false], 5, true) == false
  {
    HoldsFour0_77(ws, f.inner, alive);
    HoldsFour0_78(ws, f.inner, alive);
    assert AgentIndex(DefaultPlayers(), "Be") == Some(1);
    assert !Alike(ws, [true, false], 5, 9);
    assert SomeMarks(f, ws, DefaultVisibility(), DefaultPlayers(), alive, [true, false], 5, [false, true], 9, true) == false;
    assert !Alike(ws, [true, false], 5, 8);
    assert SomeMarks(f, ws, DefaultVisibility(), DefaultPlayers(), alive, [true, false], 5, [false, true], 8, true) == false;
    assert !Alike(ws, [true, false], 5, 7);
    assert SomeMarks(f, ws, DefaultVisibility(), DefaultPlayers(), alive, [true, false], 5, [false, true], 7, true) == false;
    assert !Alike(ws, [true, false], 5, 6);
    assert SomeMarks(f, ws, DefaultVisibility(), DefaultPlayers(), alive, [true, false], 5, [false, true], 6, true) == false;
    assert Alike(ws, [true, false], 5, 5);
    assert SomeMarks(f, ws, DefaultVisibility(), DefaultPlayers(), alive, [true, false], 5, [false, true], 5, true) == false;
    assert Alike(ws, [true, false], 5, 4);
    assert SomeMarks(f, ws, DefaultVisibility(), DefaultPlayers(), alive, [true, false], 5, [false, true], 4, true) == false;
    assert !Alike(ws, [true, false], 5, 3);
    assert SomeMarks(f, ws, DefaultVisibility(), DefaultPlayers(), alive, [true, false], 5, [false, true], 3, true) == false;
    assert !Alike(ws, [true, false], 5, 2);
    assert SomeMarks(f, ws, DefaultVisibility(), DefaultPlayers(), alive, [true, false], 5, [false, true], 2, true) == false;
    assert !Alike(ws, [true, false], 5, 1);
    assert SomeMarks(f, ws, DefaultVisibility(), DefaultPlayers(), alive, [true, false], 5, [false, true], 1, true) == false;
    assert !Alike(ws, [true, false], 5, 0);
    assert SomeMarks(f, ws, DefaultVisibility(), DefaultPlayers(), alive, [true, false], 5, [false, true], 0, true) == false;
  }

  lemma HoldsFour0_80(ws: seq<World>, f: Formula, alive: seq<int>)
    requires ws == StatesLevelFour()
    requires f == Not(Know("Be", Atom("b")))
    requires alive == [0, 1, 2, 3, 4, 5, 6, 7, 8, 9]
    ensures Holds(f, ws, DefaultVisibility(), DefaultPlayers(), alive, [true, false], 5, false) == false
  {
    HoldsFour0_79(ws, f.inner, alive);
  }

  lemma HoldsFour0_81(ws: seq<World>, f: Formula, alive: seq<int>)
    requires ws == StatesLevelFour()
    requires f == Know("Al", Not(Know("Be", Atom("b"))))
    requires alive == [0, 1, 2, 3, 4, 5, 6, 7, 8, 9]
    ensures Holds(f, ws, DefaultVisibility(), DefaultPlayers(), alive, [false, true], 1, false) == false
  {
    HoldsFour0_76(ws, f.inner, alive);
    HoldsFour0_80(ws, f.inner, alive);
    assert AgentIndex(DefaultPlayers(), "Al") == Some(0);
    assert !Alike(ws, [false, true], 1, 9);
    assert SomeMarks(f, ws, DefaultVisibility(), DefaultPlayers(), alive, [false, true], 1, [true, false], 9, false) == false;
    assert !Alike(ws, [false, true], 1, 8);
    assert SomeMarks(f, ws, DefaultVisibility(), DefaultPlayers(), alive, [false, true], 1, [true, false], 8, false) == false;
    assert !Alike(ws, [false, true], 1, 7);
    assert SomeMarks(f, ws, DefaultVisibility(), DefaultPlayers(), alive, [false, true], 1, [true, false], 7, false) == false;
    assert !Alike(ws, [false, true], 1, 6);
    assert SomeMarks(f, ws, DefaultVisibility(), DefaultPlayers(), alive, [false, true], 1, [true, false], 6, false) == false;
    assert Alike(ws, [false, true], 1, 5);
    assert SomeMarks(f, ws, DefaultVisibility(), DefaultPlayers(), alive, [false, true], 1, [true, false], 5, false) == false;
    assert !Alike(ws, [false, true], 1, 4);
    assert SomeMarks(f, ws, DefaultVisibility(), DefaultPlayers(), alive, [false, true], 1, [true, false], 4, false) == false;
    assert !Alike(ws, [false, true], 1, 3);
    assert SomeMarks(f, ws, DefaultVisibility(), DefaultPlayers(), alive, [false, true], 1, [true, false], 3, false) == false;
    assert !Alike(ws, [false, true], 1, 2);
    assert SomeMarks(f, ws, DefaultVisibility(), DefaultPlayers(), alive, [false, true], 1, [true, false], 2, false) == false;
    assert Alike(ws, [false, true], 1, 1);
    assert SomeMarks(f, ws, DefaultVisibility(), DefaultPlayers(), alive, [false, true], 1, [true, false], 1, false) == false;
    assert !Alike(ws, [false, true], 1, 0);
    assert SomeMarks(f, ws, DefaultVisibility(), DefaultPlayers(), alive, [false, true], 1, [true, false], 0, false) == false;
  }

  lemma HoldsFour0_82(ws: seq<World>, f: Formula, alive: seq<int>)
    requires ws == StatesLevelFour()
    requires f == Know("Be", Atom("b"))
    requires alive == [0, 1, 2, 3, 4, 5, 6, 7, 8, 9]
    ensures Holds(f, ws, DefaultVisibility(), DefaultPlayers(), alive, [true, false], 2, true) == true
  {
    HoldsFour0_70(ws, f.inner, alive);
    HoldsFour0_71(ws, f.inner, alive);
    assert AgentIndex(DefaultPlayers(), "Be") == Some(1);
    assert !Alike(ws, [true, false], 2, 9);
    assert SomeMarks(f, ws, DefaultVisibility(), DefaultPlayers(), alive, [true, false], 2, [false, true], 9, true) == false;
    assert !Alike(ws, [true, false], 2, 8);
    assert SomeMarks(f, ws, DefaultVisibility(), DefaultPlayers(), alive, [true, false], 2, [false, true], 8, true) == false;
    assert !Alike(ws, [true, false], 2, 7);
    assert SomeMarks(f, ws, DefaultVisibility(), DefaultPlayers(), alive, [true, false], 2, [false, true], 7, true) == false;
    assert !Alike(ws, [true, false], 2, 6);
    assert SomeMarks(f, ws, DefaultVisibility(), DefaultPlayers(), alive, [true, false], 2, [false, true], 6, true) == false;
    assert !Alike(ws, [true, false], 2, 5);
    assert SomeMarks(f, ws, DefaultVisibility(), DefaultPlayers(), alive, [true, false], 2, [false, true], 5, true) == false;
    assert !Alike(ws, [true, false], 2, 4);
    assert SomeMarks(f, ws, DefaultVisibility(), DefaultPlayers(), alive, [true, false], 2, [false, true], 4, true) == false;
    assert Alike(ws, [true, false], 2, 3);
    assert SomeMarks(f, ws, DefaultVisibility(), DefaultPlayers(), alive, [true, false], 2, [false, true], 3, true) == false;
    assert Alike(ws, [true, false], 2, 2);
    assert SomeMarks(f, ws, DefaultVisibility(), DefaultPlayers(), alive, [true, false], 2, [false, true], 2, true) == true;
    assert !Alike(ws, [true, false], 2, 1);
    assert SomeMarks(f, ws, DefaultVisibility(), DefaultPlayers(), alive, [true, false], 2, [false, true], 1, true) == true;
    assert !Alike(ws, [true, false], 2, 0);
    assert SomeMarks(f, ws, DefaultVisibility(), DefaultPlayers(), alive, [true, false], 2, [false, true], 0, true) == true;
  }

  lemma HoldsFour0_83(ws: seq<World>, f: Formula, alive: seq<int>)
    requires ws == StatesLevelFour()
    requires f == Not(Know("Be", Atom("b")))
    requires alive == [0, 1, 2, 3, 4, 5, 6, 7, 8, 9]
    ensures Holds(f, ws, DefaultVisibility(), DefaultPlayers(), alive, [true, false], 2, false) == true
  {
    HoldsFour0_82(ws, f.inner, alive);
  }

  lemma HoldsFour0_84(ws: seq<World>, f: Formula, alive: seq<int>)
    requires ws == StatesLevelFour()
    requires f == Know("Al", Not(Know("Be", Atom("b"))))
    requires alive == [0, 1, 2, 3, 4, 5, 6, 7, 8, 9]
    ensures Holds(f, ws, DefaultVisibility(), DefaultPlayers(), alive, [false, true], 2, false) == true
  {
    HoldsFour0_83(ws, f.inner, alive);
    assert AgentIndex(DefaultPlayers(), "Al") == Some(0);
    assert !Alike(ws, [false, true], 2, 9);
    assert SomeMarks(f, ws, DefaultVisibility(), DefaultPlayers(), alive, [false, true], 2, [true, false], 9, false) == false;
    assert !Alike(ws, [false, true], 2, 8);
    assert SomeMarks(f, ws, DefaultVisibility(), DefaultPlayers(), alive, [false, true], 2, [true, false], 8, false) == false;
    assert !Alike(ws, [false, true], 2, 7);
    assert SomeMarks(f, ws, DefaultVisibility(), DefaultPlayers(), alive, [false, true], 2, [true, false], 7, false) == false;
    assert !Alike(ws, [false, true], 2, 6);
    assert SomeMarks(f, ws, DefaultVisibility(), DefaultPlayers(), alive, [false, true], 2, [true, false], 6, false) == false;
    assert !Alike(ws, [false, true], 2, 5);
    assert SomeMarks(f, ws, DefaultVisibility(), DefaultPlayers(), alive, [false, true], 2, [true, false], 5, false) == false;
    assert !Alike(ws, [false, true], 2, 4);
    assert SomeMarks(f, ws, DefaultVisibility(), DefaultPlayers(), alive, [false, true], 2, [true, false], 4, false) == false;
    assert !Alike(ws, [false, true], 2, 3);
    assert SomeMarks(f, ws, DefaultVisibility(), DefaultPlayers(), alive, [false, true], 2, [true, false], 3, false) == false;
    assert Alike(ws, [false, true], 2, 2);
    assert SomeMarks(f, ws, DefaultVisibility(), DefaultPlayers(), alive, [false, true], 2, [true, false], 2, false) == true;
    assert !Alike(ws, [false, true], 2, 1);
    assert SomeMarks(f, ws, DefaultVisibility(), DefaultPlayers(), alive, [false, true], 2, [true, false], 1, false) == true;
    assert !Alike(ws, [false, true], 2, 0);
    assert SomeMarks(f, ws, DefaultVisibility(), DefaultPlayers(), alive, [false, true], 2, [true, false], 0, false) == true;
  }

  lemma HoldsFour0_85(ws: seq<World>, f: Formula, alive: seq<int>)
    requires ws == StatesLevelFour()
    requires f == Know("Al", Not(Know("Be", Atom("b"))))
    requires alive == [0, 1, 2, 3, 4, 5, 6, 7, 8, 9]
    ensures Holds(f, ws, DefaultVisibility(), DefaultPlayers(), alive, [false, true], 3, false) == true
  {
    HoldsFour0_69(ws, f.inner, alive);
    HoldsFour0_73(ws, f.inner, alive);
    assert AgentIndex(DefaultPlayers(), "Al") == Some(0);
    assert !Alike(ws, [false, true], 3, 9);
    assert SomeMarks(f, ws, DefaultVisibility(), DefaultPlayers(), alive, [false, true], 3, [true, false], 9, false) == false;
    assert !Alike(ws, [false, true], 3, 8);
    assert SomeMarks(f, ws, DefaultVisibility(), DefaultPlayers(), alive, [false, true], 3, [true, false], 8, false) == false;
    assert !Alike(ws, [false, true], 3, 7);
    assert SomeMarks(f, ws, DefaultVisibility(), DefaultPlayers(), alive, [false, true], 3, [true, false], 7, false) == false;
    assert !Alike(ws, [false, true], 3, 6);
    assert SomeMarks(f, ws, DefaultVisibility(), DefaultPlayers(), alive, [false, true], 3, [true, false], 6, false) == false;
    assert !Alike(ws, [false, true], 3, 5);
    assert SomeMarks(f, ws, DefaultVisibility(), DefaultPlayers(), alive, [false, true], 3, [true, false], 5, false) == false;
    assert !Alike(ws, [false, true], 3, 4);
    assert SomeMarks(f, ws, DefaultVisibility(), DefaultPlayers(), alive, [false, true], 3, [true, false], 4, false) == false;
    assert Alike(ws, [false, true], 3, 3);
    assert SomeMarks(f, ws, DefaultVisibility(), DefaultPlayers(), alive, [false, true], 3, [true, false], 3, false) == true;
    assert !Alike(ws, [false, true], 3, 2);
    assert SomeMarks(f, ws, DefaultVisibility(), DefaultPlayers(), alive, [false, true], 3, [true, false], 2, false) == true;
    assert !Alike(ws, [false, true], 3, 1);
    assert SomeMarks(f, ws, DefaultVisibility(), DefaultPlayers(), alive, [false, true], 3, [true, false], 1, false) == true;
    assert Alike(ws, [false, true], 3, 0);
    assert SomeMarks(f, ws, DefaultVisibility(), DefaultPlayers(), alive, [false, true], 3, [true, false], 0, false) == true;
  }

  lemma HoldsFour0_86(ws: seq<World>, f: Formula, alive: seq<int>)
    requires ws == StatesLevelFour()
    requires f == Know("Be", Atom("b"))
    requires alive == [0, 1, 2, 3, 4, 5, 6, 7, 8, 9]
    ensures Holds(f, ws, DefaultVisibility(), DefaultPlayers(), alive, [true, false], 4, true) == false
  {
    HoldsFour0_77(ws, f.inner, alive);
    HoldsFour0_78(ws, f.inner, alive);
    assert AgentIndex(DefaultPlayers(), "Be") == Some(1);
    assert !Alike(ws, [true, false], 4, 9);
    assert SomeMarks(f, ws, DefaultVisibility(), DefaultPlayers(), alive, [true, false], 4, [false, true], 9, true) == false;
    assert !Alike(ws, [true, false], 4, 8);
    assert SomeMarks(f, ws, DefaultVisibility(), DefaultPlayers(), alive, [true, false], 4, [false, true], 8, true) == false;
    assert !Alike(ws, [true, false], 4, 7);
    assert SomeMarks(f, ws, DefaultVisibility(), DefaultPlayers(), alive, [true, false], 4, [false, true], 7, true) == false;
    assert !Alike(ws, [true, false], 4, 6);
    assert SomeMarks(f, ws, DefaultVisibility(), DefaultPlayers(), alive, [true, false], 4, [false, true], 6, true) == false;
    assert Alike(ws, [true, false], 4, 5);
    assert SomeMarks(f, ws, DefaultVisibility(), DefaultPlayers(), alive, [true, false], 4, [false, true], 5, true) == false;
    assert Alike(ws, [true, false], 4, 4);
    assert SomeMarks(f, ws, DefaultVisibility(), DefaultPlayers(), alive, [true, false], 4, [false, true], 4, true) == false;
    assert !Alike(ws, [true, false], 4, 3);
    assert SomeMarks(f, ws, DefaultVisibility(), DefaultPlayers(), alive, [true, false], 4, [false, true], 3, true) == false;
    assert !Alike(ws, [true, false], 4, 2);
    assert SomeMarks(f, ws, DefaultVisibility(), DefaultPlayers(), alive, [true, false], 4, [false, true], 2, true) == false;
    assert !Alike(ws, [true, false], 4, 1);
    assert SomeMarks(f, ws, DefaultVisibility(), DefaultPlayers(), alive, [true, false], 4, [false, true], 1, true) == false;
    assert !Alike(ws, [true, false], 4, 0);
    assert SomeMarks(f, ws, DefaultVisibility(), DefaultPlayers(), alive, [true, false], 4, [false, true], 0, true) == false;
  }

  lemma HoldsFour0_87(ws: seq<World>, f: Formula, alive: seq<int>)
    requires ws == StatesLevelFour()
    requires f == Not(Know("Be", Atom("b")))
    requires alive == [0, 1, 2, 3, 4, 5, 6, 7, 8, 9]
    ensures Holds(f, ws, DefaultVisibility(), DefaultPlayers(), alive, [true, false], 4, false) == false
  {
    HoldsFour0_86(ws, f.inner, alive);
  }

  lemma CountFour0B6(ws: seq<World>, alive: seq<int>)
    requires ws == StatesLevelFour()
    requires alive == [0, 1, 2, 3, 4, 5, 6, 7, 8, 9]
    ensures CountFrom(ws, [false, true], alive, 6, 0) == 2
  {
    assert CountFrom(ws, [false, true], alive, 6, 9) == 0;
    assert CountFrom(ws, [false, true], alive, 6, 8) == 1;
    assert CountFrom(ws, [false, true], alive, 6, 7) == 1;
    assert CountFrom(ws, [false, true], alive, 6, 6) == 2;
    assert CountFrom(ws, [false, true], alive, 6, 5) == 2;
    assert CountFrom(ws, [false, true], alive, 6, 4) == 2;
    assert CountFrom(ws, [false, true], alive, 6, 3) == 2;
    assert CountFrom(ws, [false, true], alive, 6, 2) == 2;
    assert CountFrom(ws, [false, true], alive, 6, 1) == 2;
  }

  lemma HoldsFour0_88(ws: seq<World>, f: Formula, alive: seq<int>)
    requires ws == StatesLevelFour()
    requires f == Atom("b")
    requires alive == [0, 1, 2, 3, 4, 5, 6, 7, 8, 9]
    ensures Holds(f, ws, DefaultVisibility(), DefaultPlayers(), alive, [false, true], 6, true) == false
  {
    CountFour0B6(ws, alive);
  }

  lemma CountFour0B7(ws: seq<World>, alive: seq<int>)
    requires ws == StatesLevelFour()
    requires alive == [0, 1, 2, 3, 4, 5, 6, 7, 8, 9]
    ensures CountFrom(ws, [false, true], alive, 7, 0) == 3
  {
    assert CountFrom(ws, [false, true], alive, 7, 9) == 1;
    assert CountFrom(ws, [false, true], alive, 7, 8) == 1;
    assert CountFrom(ws, [false, true], alive, 7, 7) == 2;
    assert CountFrom(ws, [false, true], alive, 7, 6) == 2;
    assert CountFrom(ws, [false, true], alive, 7, 5) == 2;
    assert CountFrom(ws, [false, true], alive, 7, 4) == 3;
    assert CountFrom(ws, [false, true], alive, 7, 3) == 3;
    assert CountFrom(ws, [false, true], alive, 7, 2) == 3;
    assert CountFrom(ws, [false, true], alive, 7, 1) == 3;
  }

  lemma HoldsFour0_89(ws: seq<World>, f: Formula, alive: seq<int>)
    requires ws == StatesLevelFour()
    requires f == Atom("b")
    requires alive == [0, 1, 2, 3, 4, 5, 6, 7, 8, 9]
    ensures Holds(f, ws, DefaultVisibility(), DefaultPlayers(), alive, [false, true], 7, true) == false
  {
    CountFour0B7(ws, alive);
  }

  lemma HoldsFour0_90(ws: seq<World>, f: Formula, alive: seq<int>)
    requires ws == StatesLevelFour()
    requires f == Know("Be", Atom("b"))
    requires alive == [0, 1, 2, 3, 4, 5, 6, 7, 8, 9]
    ensures Holds(f, ws, DefaultVisibility(), DefaultPlayers(), alive, [true, false], 7, true) == false
  {
    HoldsFour0_88(ws, f.inner, alive);
    HoldsFour0_89(ws, f.inner, alive);
    assert AgentIndex(DefaultPlayers(), "Be") == Some(1);
    assert !Alike(ws, [true, false], 7, 9);
    assert SomeMarks(f, ws, DefaultVisibility(), DefaultPlayers(), alive, [true, false], 7, [false, true], 9, true) == false;
    assert !Alike(ws, [true, false], 7, 8);
    assert SomeMarks(f, ws, DefaultVisibility(), DefaultPlayers(), alive, [true, false], 7, [false, true], 8, true) == false;
    assert Alike(ws, [true, false], 7, 7);
    assert SomeMarks(f, ws, DefaultVisibility(), DefaultPlayers(), alive, [true, false], 7, [false, true], 7, true) == false;
    assert Alike(ws, [true, false], 7, 6);
    assert SomeMarks(f, ws, DefaultVisibility(), DefaultPlayers(), alive, [true, false], 7, [false, true], 6, true) == false;
    assert !Alike(ws, [true, false], 7, 5);
    assert SomeMarks(f, ws, DefaultVisibility(), DefaultPlayers(), alive, [true, false], 7, [false, true], 5, true) == false;
    assert !Alike(ws, [true, false], 7, 4);
    assert SomeMarks(f, ws, DefaultVisibility(), DefaultPlayers(), alive, [true, false], 7, [false, true], 4, true) == false;
    assert !Alike(ws, [true, false], 7, 3);
    assert SomeMarks(f, ws, DefaultVisibility(), DefaultPlayers(), alive, [true, false], 7, [false, true], 3, true) == false;
    assert !Alike(ws, [true, false], 7, 2);
    assert SomeMarks(f, ws, DefaultVisibility(), DefaultPlayers(), alive, [true, false], 7, [false, true], 2, true) == false;
    assert !Alike(ws, [true, false], 7, 1);
    assert SomeMarks(f, ws, DefaultVisibility(), DefaultPlayers(), alive, [true, false], 7, [false, true], 1, true) == false;
    assert !Alike(ws, [true, false], 7, 0);
    assert SomeMarks(f, ws, DefaultVisibility(), DefaultPlayers(), alive, [true, false], 7, [false, true], 0, true) == false;
  }

  lemma HoldsFour0_91(ws: seq<World>, f: Formula, alive: seq<int>)
    requires ws == StatesLevelFour()
    requires f == Not(Know("Be", Atom("b")))
    requires alive == [0, 1, 2, 3, 4, 5, 6, 7, 8, 9]
    ensures Holds(f, ws, DefaultVisibility(), DefaultPlayers(), alive, [true, false], 7, false) == false
  {
    HoldsFour0_90(ws, f.inner, alive);
  }

  lemma CountFour0B8(ws: seq<World>, alive: seq<int>)
    requires ws == StatesLevelFour()
    requires alive == [0, 1, 2, 3, 4, 5, 6, 7, 8, 9]
    ensures CountFrom(ws, [false, true], alive, 8, 0) == 2
  {
    assert CountFrom(ws, [false, true], alive, 8, 9) == 0;
    assert CountFrom(ws, [false, true], alive, 8, 8) == 1;
    assert CountFrom(ws, [false, true], alive, 8, 7) == 1;
    assert CountFrom(ws, [false, true], alive, 8, 6) == 2;
    assert CountFrom(ws, [false, true], alive, 8, 5) == 2;
    assert CountFrom(ws, [false, true], alive, 8, 4) == 2;
    assert CountFrom(ws, [false, true], alive, 8, 3) == 2;
    assert CountFrom(ws, [false, true], alive, 8, 2) == 2;
    assert CountFrom(ws, [false, true], alive, 8, 1) == 2;
  }

  lemma HoldsFour0_92(ws: seq<World>, f: Formula, alive: seq<int>)
    requires ws == StatesLevelFour()
    requires f == Atom("b")
    requires alive == [0, 1, 2, 3, 4, 5, 6, 7, 8, 9]
    ensures Holds(f, ws, DefaultVisibility(), DefaultPlayers(), alive, [false, true], 8, true) == false
  {
    CountFour0B8(ws, alive);
  }

  lemma CountFour0B9(ws: seq<World>, alive: seq<int>)
    requires ws == StatesLevelFour()
    requires alive == [0, 1, 2, 3, 4, 5, 6, 7, 8, 9]
    ensures CountFrom(ws, [false, true], alive, 9, 0) == 3
  {
    assert CountFrom(ws, [false, true], alive, 9, 9) == 1;
    assert CountFrom(ws, [false, true], alive, 9, 8) == 1;
    assert CountFrom(ws, [false, true], alive, 9, 7) == 2;
    assert CountFrom(ws, [false, true], alive, 9, 6) == 2;
    assert CountFrom(ws, [false, true], alive, 9, 5) == 2;
    assert CountFrom(ws, [false, true], alive, 9, 4) == 3;
    assert CountFrom(ws, [false, true], alive, 9, 3) == 3;
    assert CountFrom(ws, [false, true], alive, 9, 2) == 3;
    assert CountFrom(ws, [false, true], alive, 9, 1) == 3;
  }

  lemma HoldsFour0_93(ws: seq<World>, f: Formula, alive: seq<int>)
    requires ws == StatesLevelFour()
    requires f == Atom("b")
    requires alive == [0, 1, 2, 3, 4, 5, 6, 7, 8, 9]
    ensures Holds(f, ws, DefaultVisibility(), DefaultPlayers(), alive, [false, true], 9, true) == false
  {
    CountFour0B9(ws, alive);
  }

  lemma HoldsFour0_94(ws: seq<World>, f: Formula, alive: seq<int>)
    requires ws == StatesLevelFour()
    requires f == Know("Be", Atom("b"))
    requires alive == [0, 1, 2, 3, 4, 5, 6, 7, 8, 9]
    ensures Holds(f, ws, DefaultVisibility(), DefaultPlayers(), alive, [true, false], 9, true) == false
  {
    HoldsFour0_92(ws, f.inner, alive);
    HoldsFour0_93(ws, f.inner, alive);
    assert AgentIndex(DefaultPlayers(), "Be") == Some(1);
    assert Alike(ws, [true, false], 9, 9);
    assert SomeMarks(f, ws, DefaultVisibility(), DefaultPlayers(), alive, [true, false], 9, [false, true], 9, true) == false;
    assert Alike(ws, [true, false], 9, 8);
    assert SomeMarks(f, ws, DefaultVisibility(), DefaultPlayers(), alive, [true, false], 9, [false, true], 8, true) == false;
    assert !Alike(ws, [true, false], 9, 7);
    assert SomeMarks(f, ws, DefaultVisibility(), DefaultPlayers(), alive, [true, false], 9, [false, true], 7, true) == false;
    assert !Alike(ws, [true, false], 9, 6);
    assert SomeMarks(f, ws, DefaultVisibility(), DefaultPlayers(), alive, [true, false], 9, [false, true], 6, true) == false;
    assert !Alike(ws, [true, false], 9, 5);
    assert SomeMarks(f, ws, DefaultVisibility(), DefaultPlayers(), alive, [true, false], 9, [false, true], 5, true) == false;
    assert !Alike(ws, [true, false], 9, 4);
    assert SomeMarks(f, ws, DefaultVisibility(), DefaultPlayers(), alive, [true, false], 9, [false, true], 4, true) == false;
    assert !Alike(ws, [true, false], 9, 3);
    assert SomeMarks(f, ws, DefaultVisibility(), DefaultPlayers(), alive, [true, false], 9, [false, true], 3, true) == false;
    assert !Alike(ws, [true, false], 9, 2);
    assert SomeMarks(f, ws, DefaultVisibility(), DefaultPlayers(), alive, [true, false], 9, [false, true], 2, true) == false;
    assert !Alike(ws, [true, false], 9, 1);
    assert SomeMarks(f, ws, DefaultVisibility(), DefaultPlayers(), alive, [true, false], 9, [false, true], 1, true) == false;
    assert !Alike(ws, [true, false], 9, 0);
    assert SomeMarks(f, ws, DefaultVisibility(), DefaultPlayers(), alive, [true, false], 9, [false, true], 0, true) == false;
  }

  lemma HoldsFour0_95(ws: seq<World>, f: Formula, alive: seq<int>)
    requires ws == StatesLevelFour()
    requires f == Not(Know("Be", Atom("b")))
    requires alive == [0, 1, 2, 3, 4, 5, 6, 7, 8, 9]
    ensures Holds(f, ws, DefaultVisibility(), DefaultPlayers(), alive, [true, false], 9, false) == false
  {
    HoldsFour0_94(ws, f.inner, alive);
  }

  lemma HoldsFour0_96(ws: seq<World>, f: Formula, alive: seq<int>)
    requires ws == StatesLevelFour()
    requires f == Know("Al", Not(Know("Be", Atom("b"))))
    requires alive == [0, 1, 2, 3, 4, 5, 6, 7, 8, 9]
    ensures Holds(f, ws, DefaultVisibility(), DefaultPlayers(), alive, [false, true], 4, false) == false
  {
    HoldsFour0_87(ws, f.inner, alive);
    HoldsFour0_91(ws, f.inner, alive);
    HoldsFour0_95(ws, f.inner, alive);
    assert AgentIndex(DefaultPlayers(), "Al") == Some(0);
    assert Alike(ws, [false, true], 4, 9);
    assert SomeMarks(f, ws, DefaultVisibility(), DefaultPlayers(), alive, [false, true], 4, [true, false], 9, false) == false;
    assert !Alike(ws, [false, true], 4, 8);
    assert SomeMarks(f, ws, DefaultVisibility(), DefaultPlayers(), alive, [false, true], 4, [true, false], 8, false) == false;
    assert Alike(ws, [false, true], 4, 7);
    assert SomeMarks(f, ws, DefaultVisibility(), DefaultPlayers(), alive, [false, true], 4, [true, false], 7, false) == false;
    assert !Alike(ws, [false, true], 4, 6);
    assert SomeMarks(f, ws, DefaultVisibility(), DefaultPlayers(), alive, [false, true], 4, [true, false], 6, false) == false;
    assert !Alike(ws, [false, true], 4, 5);
    assert SomeMarks(f, ws, DefaultVisibility(), DefaultPlayers(), alive, [false, true], 4, [true, false], 5, false) == false;
    assert Alike(ws, [false, true], 4, 4);
    assert SomeMarks(f, ws, DefaultVisibility(), DefaultPlayers(), alive, [false, true], 4, [true, false], 4, false) == false;
    assert !Alike(ws, [false, true], 4, 3);
    assert SomeMarks(f, ws, DefaultVisibility(), DefaultPlayers(), alive, [false, true], 4, [true, false], 3, false) == false;
    assert !Alike(ws, [false, true], 4, 2);
    assert SomeMarks(f, ws, DefaultVisibility(), DefaultPlayers(), alive, [false, true], 4, [true, false], 2, false) == false;
    assert !Alike(ws, [false, true], 4, 1);
    assert SomeMarks(f, ws, DefaultVisibility(), DefaultPlayers(), alive, [false, true], 4, [true, false], 1, false) == false;
    assert !Alike(ws, [false, true], 4, 0);
    assert SomeMarks(f, ws, DefaultVisibility(), DefaultPlayers(), alive, [false, true], 4, [true, false], 0, false) == false;
  }

  lemma HoldsFour0_97(ws: seq<World>, f: Formula, alive: seq<int>)
    requires ws == StatesLevelFour()
    requires f == Know("Al", Not(Know("Be", Atom("b"))))
    requires alive == [0, 1, 2, 3, 4, 5, 6, 7, 8, 9]
    ensures Holds(f, ws, DefaultVisibility(), DefaultPlayers(), alive, [false, true], 5, false) == false
  {
    HoldsFour0_76(ws, f.inner, alive);
    HoldsFour0_80(ws, f.inner, alive);
    assert AgentIndex(DefaultPlayers(), "Al") == Some(0);
    assert !Alike(ws, [false, true], 5, 9);
    assert SomeMarks(f, ws, DefaultVisibility(), DefaultPlayers(), alive, [false, true], 5, [true, false], 9, false) == false;
    assert !Alike(ws, [false, true], 5, 8);
    assert SomeMarks(f, ws, DefaultVisibility(), DefaultPlayers(), alive, [false, true], 5, [true, false], 8, false) == false;
    assert !Alike(ws, [false, true], 5, 7);
    assert SomeMarks(f, ws, DefaultVisibility(), DefaultPlayers(), alive, [false, true], 5, [true, false], 7, false) == false;
    assert !Alike(ws, [false, true], 5, 6);
    assert SomeMarks(f, ws, DefaultVisibility(), DefaultPlayers(), alive, [false, true], 5, [true, false], 6, false) == false;
    assert Alike(ws, [false, true], 5, 5);
    assert SomeMarks(f, ws, DefaultVisibility(), DefaultPlayers(), alive, [false, true], 5, [true, false], 5, false) == false;
    assert !Alike(ws, [false, true], 5, 4);
    assert SomeMarks(f, ws, DefaultVisibility(), DefaultPlayers(), alive, [false, true], 5, [true, false], 4, false) == false;
    assert !Alike(ws, [false, true], 5, 3);
    assert SomeMarks(f, ws, DefaultVisibility(), DefaultPlayers(), alive, [false, true], 5, [true, false], 3, false) == false;
    assert !Alike(ws, [false, true], 5, 2);
    assert SomeMarks(f, ws, DefaultVisibility(), DefaultPlayers(), alive, [false, true], 5, [true, false], 2, false) == false;
    assert Alike(ws, [false, true], 5, 1);
    assert SomeMarks(f, ws, DefaultVisibility(), DefaultPlayers(), alive, [false, true], 5, [true, false], 1, false) == false;
    assert !Alike(ws, [false, true], 5, 0);
    assert SomeMarks(f, ws, DefaultVisibility(), DefaultPlayers(), alive, [false, true], 5, [true, false], 0, false) == false;
  }

  lemma HoldsFour0_98(ws: seq<World>, f: Formula, alive: seq<int>)
    requires ws == StatesLevelFour()
    requires f == Know("Be", Atom("b"))
    requires alive == [0, 1, 2, 3, 4, 5, 6, 7, 8, 9]
    ensures Holds(f, ws, DefaultVisibility(), DefaultPlayers(), alive, [true, false], 6, true) == false
  {
    HoldsFour0_88(ws, f.inner, alive);
    HoldsFour0_89(ws, f.inner, alive);
    assert AgentIndex(DefaultPlayers(), "Be") == Some(1);
    assert !Alike(ws, [true, false], 6, 9);
    assert SomeMarks(f, ws, DefaultVisibility(), DefaultPlayers(), alive, [true, false], 6, [false, true], 9, true) == false;
    assert !Alike(ws, [true, false], 6, 8);
    assert SomeMarks(f, ws, DefaultVisibility(), DefaultPlayers(), alive, [true, false], 6, [false, true], 8, true) == false;
    assert Alike(ws, [true, false], 6, 7);
    assert SomeMarks(f, ws, DefaultVisibility(), DefaultPlayers(), alive, [true, false], 6, [false, true], 7, true) == false;
    assert Alike(ws, [true, false], 6, 6);
    assert SomeMarks(f, ws, DefaultVisibility(), DefaultPlayers(), alive, [true, false], 6, [false, true], 6, true) == false;
    assert !Alike(ws, [true, false], 6, 5);
    assert SomeMarks(f, ws, DefaultVisibility(), DefaultPlayers(), alive, [true, false], 6, [false, true], 5, true) == false;
    assert !Alike(ws, [true, false], 6, 4);
    assert SomeMarks(f, ws, DefaultVisibility(), DefaultPlayers(), alive, [true, false], 6, [false, true], 4, true) == false;
    assert !Alike(ws, [true, false], 6, 3);
    assert SomeMarks(f, ws, DefaultVisibility(), DefaultPlayers(), alive, [true, false], 6, [false, true], 3, true) == false;
    assert !Alike(ws, [true, false], 6, 2);
    assert SomeMarks(f, ws, DefaultVisibility(), DefaultPlayers(), alive, [true, false], 6, [false, true], 2, true) == false;
    assert !Alike(ws, [true, false], 6, 1);
    assert SomeMarks(f, ws, DefaultVisibility(), DefaultPlayers(), alive, [true, false], 6, [false, true], 1, true) == false;
    assert !Alike(ws, [true, false], 6, 0);
    assert SomeMarks(f, ws, DefaultVisibility(), DefaultPlayers(), alive, [true, false], 6, [false, true], 0, true) == false;
  }

  lemma HoldsFour0_99(ws: seq<World>, f: Formula, alive: seq<int>)
    requires ws == StatesLevelFour()
    requires f == Not(Know("Be", Atom("b")))
    requires alive == [0, 1, 2, 3, 4, 5, 6, 7, 8, 9]
    ensures Holds(f, ws, DefaultVisibility(), DefaultPlayers(), alive, [true, false], 6, false) == false
  {
    HoldsFour0_98(ws, f.inner, alive);
  }

  lemma HoldsFour0_100(ws: seq<World>, f: Formula, alive: seq<int>)
    requires ws == StatesLevelFour()
    requires f == Know("Be", Atom("b"))
    requires alive == [0, 1, 2, 3, 4, 5, 6, 7, 8, 9]
    ensures Holds(f, ws, DefaultVisibility(), DefaultPlayers(), alive, [true, false], 8, true) == false
  {
    HoldsFour0_92(ws, f.inner, alive);
    HoldsFour0_93(ws, f.inner, alive);
    assert AgentIndex(DefaultPlayers(), "Be") == Some(1);
    assert Alike(ws, [true, false], 8, 9);
    assert SomeMarks(f, ws, DefaultVisibility(), DefaultPlayers(), alive, [true, false], 8, [false, true], 9, true) == false;
    assert Alike(ws, [true, false], 8, 8);
    assert SomeMarks(f, ws, DefaultVisibility(), DefaultPlayers(), alive, [true, false], 8, [false, true], 8, true) == false;
    assert !Alike(ws, [true, false], 8, 7);
    assert SomeMarks(f, ws, DefaultVisibility(), DefaultPlayers(), alive, [true, false], 8, [false, true], 7, true) == false;
    assert !Alike(ws, [true, false], 8, 6);
    assert SomeMarks(f, ws, DefaultVisibility(), DefaultPlayers(), alive, [true, false], 8, [false, true], 6, true) == false;
    assert !Alike(ws, [true, false], 8, 5);
    assert SomeMarks(f, ws, DefaultVisibility(), DefaultPlayers(), alive, [true, false], 8, [false, true], 5, true) == false;
    assert !Alike(ws, [true, false], 8, 4);
    assert SomeMarks(f, ws, DefaultVisibility(), DefaultPlayers(), alive, [true, false], 8, [false, true], 4, true) == false;
    assert !Alike(ws, [true, false], 8, 3);
    assert SomeMarks(f, ws, DefaultVisibility(), DefaultPlayers(), alive, [true, false], 8, [false, true], 3, true) == false;
    assert !Alike(ws, [true, false], 8, 2);
    assert SomeMarks(f, ws, DefaultVisibility(), DefaultPlayers(), alive, [true, false], 8, [false, true], 2, true) == false;
    assert !Alike(ws, [true, false], 8, 1);
    assert SomeMarks(f, ws, DefaultVisibility(), DefaultPlayers(), alive, [true, false], 8, [false, true], 1, true) == false;
    assert !Alike(ws, [true, false], 8, 0);
    assert SomeMarks(f, ws, DefaultVisibility(), DefaultPlayers(), alive, [true, false], 8, [false, true], 0, true) == false;
  }

  lemma HoldsFour0_101(ws: seq<World>, f: Formula, alive: seq<int>)
    requires ws == StatesLevelFour()
    requires f == Not(Know("Be", Atom("b")))
    requires alive == [0, 1, 2, 3, 4, 5, 6, 7, 8, 9]
    ensures Holds(f, ws, DefaultVisibility(), DefaultPlayers(), alive, [true, false], 8, false) == false
  {
    HoldsFour0_100(ws, f.inner, alive);
  }

  lemma HoldsFour0_102(ws: seq<World>, f: Formula, alive: seq<int>)
    requires ws == StatesLevelFour()
    requires f == Know("Al", Not(Know("Be", Atom("b"))))
    requires alive == [0, 1, 2, 3, 4, 5, 6, 7, 8, 9]
    ensures Holds(f, ws, DefaultVisibility(), DefaultPlayers(), alive, [false, true], 6, false) == false
  {
    HoldsFour0_99(ws, f.inner, alive);
    HoldsFour0_101(ws, f.inner, alive);
    assert AgentIndex(DefaultPlayers(), "Al") == Some(0);
    assert !Alike(ws, [false, true], 6, 9);
    assert SomeMarks(f, ws, DefaultVisibility(), DefaultPlayers(), alive, [false, true], 6, [true, false], 9, false) == false;
    assert Alike(ws, [false, true], 6, 8);
    assert SomeMarks(f, ws, DefaultVisibility(), DefaultPlayers(), alive, [false, true], 6, [true, false], 8, false) == false;
    assert !Alike(ws, [false, true], 6, 7);
    assert SomeMarks(f, ws, DefaultVisibility(), DefaultPlayers(), alive, [false, true], 6, [true, false], 7, false) == false;
    assert Alike(ws, [false, true], 6, 6);
    assert SomeMarks(f, ws, DefaultVisibility(), DefaultPlayers(), alive, [false, true], 6, [true, false], 6, false) == false;
    assert !Alike(ws, [false, true], 6, 5);
    assert SomeMarks(f, ws, DefaultVisibility(), DefaultPlayers(), alive, [false, true], 6, [true, false], 5, false) == false;
    assert !Alike(ws, [false, true], 6, 4);
    assert SomeMarks(f, ws, DefaultVisibility(), DefaultPlayers(), alive, [false, true], 6, [true, false], 4, false) == false;
    assert !Alike(ws, [false, true], 6, 3);
    assert SomeMarks(f, ws, DefaultVisibility(), DefaultPlayers(), alive, [false, true], 6, [true, false], 3, false) == false;
    assert !Alike(ws, [false, true], 6, 2);
    assert SomeMarks(f, ws, DefaultVisibility(), DefaultPlayers(), alive, [false, true], 6, [true, false], 2, false) == false;
    assert !Alike(ws, [false, true], 6, 1);
    assert SomeMarks(f, ws, DefaultVisibility(), DefaultPlayers(), alive, [false, true], 6, [true, false], 1, false) == false;
    assert !Alike(ws, [false, true], 6, 0);
    assert SomeMarks(f, ws, DefaultVisibility(), DefaultPlayers(), alive, [false, true], 6, [true, false], 0, false) == false;
  }

  lemma HoldsFour0_103(ws: seq<World>, f: Formula, alive: seq<int>)
    requires ws == StatesLevelFour()
    requires f == Know("Al", Not(Know("Be", Atom("b"))))
    requires alive == [0, 1, 2, 3, 4, 5, 6, 7, 8, 9]
    ensures Holds(f, ws, DefaultVisibility(), DefaultPlayers(), alive, [false, true], 7, false) == false
  {
    HoldsFour0_87(ws, f.inner, alive);
    HoldsFour0_91(ws, f.inner, alive);
    HoldsFour0_95(ws, f.inner, alive);
    assert AgentIndex(DefaultPlayers(), "Al") == Some(0);
    assert Alike(ws, [false, true], 7, 9);
    assert SomeMarks(f, ws, DefaultVisibility(), DefaultPlayers(), alive, [false, true], 7, [true, false], 9, false) == false;
    assert !Alike(ws, [false, true], 7, 8);
    assert SomeMarks(f, ws, DefaultVisibility(), DefaultPlayers(), alive, [false, true], 7, [true, false], 8, false) == false;
    assert Alike(ws, [false, true], 7, 7);
    assert SomeMarks(f, ws, DefaultVisibility(), DefaultPlayers(), alive, [false, true], 7, [true, false], 7, false) == false;
    assert !Alike(ws, [false, true], 7, 6);
    assert SomeMarks(f, ws, DefaultVisibility(), DefaultPlayers(), alive, [false, true], 7, [true, false], 6, false) == false;
    assert !Alike(ws, [false, true], 7, 5);
    assert SomeMarks(f, ws, DefaultVisibility(), DefaultPlayers(), alive, [false, true], 7, [true, false], 5, false) == false;
    assert Alike(ws, [false, true], 7, 4);
    assert SomeMarks(f, ws, DefaultVisibility(), DefaultPlayers(), alive, [false, true], 7, [true, false], 4, false) == false;
    assert !Alike(ws, [false, true], 7, 3);
    assert SomeMarks(f, ws, DefaultVisibility(), DefaultPlayers(), alive, [false, true], 7, [true, false], 3, false) == false;
    assert !Alike(ws, [false, true], 7, 2);
    assert SomeMarks(f, ws, DefaultVisibility(), DefaultPlayers(), alive, [false, true], 7, [true, false], 2, false) == false;
    assert !Alike(ws, [false, true], 7, 1);
    assert SomeMarks(f, ws, DefaultVisibility(), DefaultPlayers(), alive, [false, true], 7, [true, false], 1, false) == false;
    assert !Alike(ws, [false, true], 7, 0);
    assert SomeMarks(f, ws, DefaultVisibility(), DefaultPlayers(), alive, [false, true], 7, [true, false], 0, false) == false;
  }

  lemma HoldsFour0_104(ws: seq<World>, f: Formula, alive: seq<int>)
    requires ws == StatesLevelFour()
    requires f == Know("Al", Not(Know("Be", Atom("b"))))
    requires alive == [0, 1, 2, 3, 4, 5, 6, 7, 8, 9]
    ensures Holds(f, ws, DefaultVisibility(), DefaultPlayers(), alive, [false, true], 8, false) == false
  {
    HoldsFour0_99(ws, f.inner, alive);
    HoldsFour0_101(ws, f.inner, alive);
    assert AgentIndex(DefaultPlayers(), "Al") == Some(0);
    assert !Alike(ws, [false, true], 8, 9);
    assert SomeMarks(f, ws, DefaultVisibility(), DefaultPlayers(), alive, [false, true], 8, [true, false], 9, false) == false;
    assert Alike(ws, [false, true], 8, 8);
    assert SomeMarks(f, ws, DefaultVisibility(), DefaultPlayers(), alive, [false, true], 8, [true, false], 8, false) == false;
    assert !Alike(ws, [false, true], 8, 7);
    assert SomeMarks(f, ws, DefaultVisibility(), DefaultPlayers(), alive, [false, true], 8, [true, false], 7, false) == false;
    assert Alike(ws, [false, true], 8, 6);
    assert SomeMarks(f, ws, DefaultVisibility(), DefaultPlayers(), alive, [false, true], 8, [true, false], 6, false) == false;
    assert !Alike(ws, [false, true], 8, 5);
    assert SomeMarks(f, ws, DefaultVisibility(), DefaultPlayers(), alive, [false, true], 8, [true, false], 5, false) == false;
    assert !Alike(ws, [false, true], 8, 4);
    assert SomeMarks(f, ws, DefaultVisibility(), DefaultPlayers(), alive, [false, true], 8, [true, false], 4, false) == false;
    assert !Alike(ws, [false, true], 8, 3);
    assert SomeMarks(f, ws, DefaultVisibility(), DefaultPlayers(), alive, [false, true], 8, [true, false], 3, false) == false;
    assert !Alike(ws, [false, true], 8, 2);
    assert SomeMarks(f, ws, DefaultVisibility(), DefaultPlayers(), alive, [false, true], 8, [true, false], 2, false) == false;
    assert !Alike(ws, [false, true], 8, 1);
    assert SomeMarks(f, ws, DefaultVisibility(), DefaultPlayers(), alive, [false, true], 8, [true, false], 1, false) == false;
    assert !Alike(ws, [false, true], 8, 0);
    assert SomeMarks(f, ws, DefaultVisibility(), DefaultPlayers(), alive, [false, true], 8, [true, false], 0, false) == false;
  }

  lemma HoldsFour0_105(ws: seq<World>, f: Formula, alive: seq<int>)
    requires ws == StatesLevelFour()
    requires f == Know("Al", Not(Know("Be", Atom("b"))))
    requires alive == [0, 1, 2, 3, 4, 5, 6, 7, 8, 9]
    ensures Holds(f, ws, DefaultVisibility(), DefaultPlayers(), alive, [false, true], 9, false) == false
  {
    HoldsFour0_87(ws, f.inner, alive);
    HoldsFour0_91(ws, f.inner, alive);
    HoldsFour0_95(ws, f.inner, alive);
    assert AgentIndex(DefaultPlayers(), "Al") == Some(0);
    assert Alike(ws, [false, true], 9, 9);
    assert SomeMarks(f, ws, DefaultVisibility(), DefaultPlayers(), alive, [false, true], 9, [true, false], 9, false) == false;
    assert !Alike(ws, [false, true], 9, 8);
    assert SomeMarks(f, ws, DefaultVisibility(), DefaultPlayers(), alive, [false, true], 9, [true, false], 8, false) == false;
    assert Alike(ws, [false, true], 9, 7);
    assert SomeMarks(f, ws, DefaultVisibility(), DefaultPlayers(), alive, [false, true], 9, [true, false], 7, false) == false;
    assert !Alike(ws, [false, true], 9, 6);
    assert SomeMarks(f, ws, DefaultVisibility(), DefaultPlayers(), alive, [false, true], 9, [true, false], 6, false) == false;
    assert !Alike(ws, [false, true], 9, 5);
    assert SomeMarks(f, ws, DefaultVisibility(), DefaultPlayers(), alive, [false, true], 9, [true, false], 5, false) == false;
    assert Alike(ws, [false, true], 9, 4);
    assert SomeMarks(f, ws, DefaultVisibility(), DefaultPlayers(), alive, [false, true], 9, [true, false], 4, false) == false;
    assert !Alike(ws, [false, true], 9, 3);
    assert SomeMarks(f, ws, DefaultVisibility(), DefaultPlayers(), alive, [false, true], 9, [true, false], 3, false) == false;
    assert !Alike(ws, [false, true], 9, 2);
    assert SomeMarks(f, ws, DefaultVisibility(), DefaultPlayers(), alive, [false, true], 9, [true, false], 2, false) == false;
    assert !Alike(ws, [false, true], 9, 1);
    assert SomeMarks(f, ws, DefaultVisibility(), DefaultPlayers(), alive, [false, true], 9, [true, false], 1, false) == false;
    assert !Alike(ws, [false, true], 9, 0);
    assert SomeMarks(f, ws, DefaultVisibility(), DefaultPlayers(), alive, [false, true], 9, [true, false], 0, false) == false;
  }

  lemma KeptFour0_8(ws: seq<World>, t: Target, alive: seq<int>)
    requires ws == StatesLevelFour()
    requires t == Target("Be", Know("Al", Not(Know("Be", Atom("b")))), false)
    requires alive == [0, 1, 2, 3, 4, 5, 6, 7, 8, 9]
    ensures KeptFrom(t, ws, DefaultVisibility(), DefaultPlayers(), alive, [false, true], 8) == [8, 9]
  {
    HoldsFour0_105(ws, t.inner, alive);
    HoldsFour0_104(ws, t.inner, alive);
    assert KeptFrom(t, ws, DefaultVisibility(), DefaultPlayers(), alive, [false, true], 9) == [9];
  }

  lemma KeptFour0_6(ws: seq<World>, t: Target, alive: seq<int>)
    requires ws == StatesLevelFour()
    requires t == Target("Be", Know("Al", Not(Know("Be", Atom("b")))), false)
    requires alive == [0, 1, 2, 3, 4, 5, 6, 7, 8, 9]
    ensures KeptFrom(t, ws, DefaultVisibility(), DefaultPlayers(), alive, [false, true], 6) == [6, 7, 8, 9]
  {
    KeptFour0_8(ws, t, alive);
    HoldsFour0_103(ws, t.inner, alive);
    HoldsFour0_102(ws, t.inner, alive);
    assert KeptFrom(t, ws, DefaultVisibility(), DefaultPlayers(), alive, [false, true], 7) == [7, 8, 9];
  }

  lemma KeptFour0_4(ws: seq<World>, t: Target, alive: seq<int>)
    requires ws == StatesLevelFour()
    requires t == Target("Be", Know("Al", Not(Know("Be", Atom("b")))), false)
    requires alive == [0, 1, 2, 3, 4, 5, 6, 7, 8, 9]
    ensures KeptFrom(t, ws, DefaultVisibility(), DefaultPlayers(), alive, [false, true], 4) == [4, 5, 6, 7, 8, 9]
  {
    KeptFour0_6(ws, t, alive);
    HoldsFour0_97(ws, t.inner, alive);
    HoldsFour0_96(ws, t.inner, alive);
    assert KeptFrom(t, ws, DefaultVisibility(), DefaultPlayers(), alive, [false, true], 5) == [5, 6, 7, 8, 9];
  }

  lemma KeptFour0_2(ws: seq<World>, t: Target, alive: seq<int>)
    requires ws == StatesLevelFour()
    requires t == Target("Be", Know("Al", Not(Know("Be", Atom("b")))), false)
    requires alive == [0, 1, 2, 3, 4, 5, 6, 7, 8, 9]
    ensures KeptFrom(t, ws, DefaultVisibility(), DefaultPlayers(), alive, [false, true], 2) == [4, 5, 6, 7, 8, 9]
  {
    KeptFour0_4(ws, t, alive);
    HoldsFour0_85(ws, t.inner, alive);
    HoldsFour0_84(ws, t.inner, alive);
    assert KeptFrom(t, ws, DefaultVisibility(), DefaultPlayers(), alive, [false, true], 3) == [4, 5, 6, 7, 8, 9];
  }

  lemma KeptFour0_0(ws: seq<World>, t: Target, alive: seq<int>)
    requires ws == StatesLevelFour()
    requires t == Target("Be", Know("Al", Not(Know("Be", Atom("b")))), false)
    requires alive == [0, 1, 2, 3, 4, 5, 6, 7, 8, 9]
    ensures KeptFrom(t, ws, DefaultVisibility(), DefaultPlayers(), alive, [false, true], 0) == [1, 4, 5, 6, 7, 8, 9]
  {
    KeptFour0_2(ws, t, alive);
    HoldsFour0_81(ws, t.inner, alive);
    HoldsFour0_74(ws, t.inner, alive);
    assert KeptFrom(t, ws, DefaultVisibility(), DefaultPlayers(), alive, [false, true], 1) == [1, 4, 5, 6, 7, 8, 9];
  }

  lemma SurvivorsFour0(ws: seq<World>, f: Formula, alive: seq<int>)
    requires ws == StatesLevelFour()
    requires f == Know("Be", Know("Al", Not(Know("Be", Atom("b")))))
    requires alive == [0, 1, 2, 3, 4, 5, 6, 7, 8, 9]
    ensures Survivors(f, ws, DefaultVisibility(), DefaultPlayers(), alive) == [1, 4, 5, 6, 7, 8, 9]
  {
    KeptFour0_0(ws, Target("Be", Know("Al", Not(Know("Be", Atom("b")))), false), alive);
    assert Spine(f, false) == Some(Target("Be", Know("Al", Not(Know("Be", Atom("b")))), false));
    assert AgentIndex(DefaultPlayers(), "Be") == Some(1);
  }

  lemma CountFour1A1(ws: seq<World>, alive: seq<int>)
    requires ws == StatesLevelFour()
    requires alive == [1, 4, 5, 6, 7, 8, 9]
    ensures CountFrom(ws, [true, false], alive, 1, 0) == 1
  {
    assert CountFrom(ws, [true, false], alive, 1, 6) == 0;
    assert CountFrom(ws, [true, false], alive, 1, 5) == 0;
    assert CountFrom(ws, [true, false], alive, 1, 4) == 0;
    assert CountFrom(ws, [true, false], alive, 1, 3) == 0;
    assert CountFrom(ws, [true, false], alive, 1, 2) == 0;
    assert CountFrom(ws, [true, false], alive, 1, 1) == 0;
  }

  lemma HoldsFour1_106(ws: seq<World>, f: Formula, alive: seq<int>)
    requires ws == StatesLevelFour()
    requires f == Atom("b")
    requires alive == [1, 4, 5, 6, 7, 8, 9]
    ensures Holds(f, ws, DefaultVisibility(), DefaultPlayers(), alive, [true, false], 1, false) == false
  {
    CountFour1A1(ws, alive);
  }

  lemma CountFour1A4(ws: seq<World>, alive: seq<int>)
    requires ws == StatesLevelFour()
    requires alive == [1, 4, 5, 6, 7, 8, 9]
    ensures CountFrom(ws, [true, false], alive, 4, 0) == 2
  {
    assert CountFrom(ws, [true, false], alive, 4, 6) == 0;
    assert CountFrom(ws, [true, false], alive, 4, 5) == 0;
    assert CountFrom(ws, [true, false], alive, 4, 4) == 0;
    assert CountFrom(ws, [true, false], alive, 4, 3) == 0;
    assert CountFrom(ws, [true, false], alive, 4, 2) == 1;
    assert CountFrom(ws, [true, false], alive, 4, 1) == 2;
  }

  lemma HoldsFour1_107(ws: seq<World>, f: Formula, alive: seq<int>)
    requires ws == StatesLevelFour()
    requires f == Atom("b")
    requires alive == [1, 4, 5, 6, 7, 8, 9]
    ensures Holds(f, ws, DefaultVisibility(), DefaultPlayers(), alive, [true, false], 4, false) == true
  {
    CountFour1A4(ws, alive);
  }

  lemma CountFour1A5(ws: seq<World>, alive: seq<int>)
    requires ws == StatesLevelFour()
    requires alive == [1, 4, 5, 6, 7, 8, 9]
    ensures CountFrom(ws, [true, false], alive, 5, 0) == 2
  {
    assert CountFrom(ws, [true, false], alive, 5, 6) == 0;
    assert CountFrom(ws, [true, false], alive, 5, 5) == 0;
    assert CountFrom(ws, [true, false], alive, 5, 4) == 0;
    assert CountFrom(ws, [true, false], alive, 5, 3) == 0;
    assert CountFrom(ws, [true, false], alive, 5, 2) == 1;
    assert CountFrom(ws, [true, false], alive, 5, 1) == 2;
  }

  lemma HoldsFour1_108(ws: seq<World>, f: Formula, alive: seq<int>)
    requires ws == StatesLevelFour()
    requires f == Atom("b")
    requires alive == [1, 4, 5, 6, 7, 8, 9]
    ensures Holds(f, ws, DefaultVisibility(), DefaultPlayers(), alive, [true, false], 5, false) == true
  {
    CountFour1A5(ws, alive);
  }

  lemma CountFour1A6(ws: seq<World>, alive: seq<int>)
    requires ws == StatesLevelFour()
    requires alive == [1, 4, 5, 6, 7, 8, 9]
    ensures CountFrom(ws, [true, false], alive, 6, 0) == 2
  {
    assert CountFrom(ws, [true, false], alive, 6, 6) == 0;
    assert CountFrom(ws, [true, false], alive, 6, 5) == 0;
    assert CountFrom(ws, [true, false], alive, 6, 4) == 1;
    assert CountFrom(ws, [true, false], alive, 6, 3) == 2;
    assert CountFrom(ws, [true, false], alive, 6, 2) == 2;
    assert CountFrom(ws, [true, false], alive, 6, 1) == 2;
  }

  lemma HoldsFour1_109(ws: seq<World>, f: Formula, alive: seq<int>)
    requires ws == StatesLevelFour()
    requires f == Atom("b")
    requires alive == [1, 4, 5, 6, 7, 8, 9]
    ensures Holds(f, ws, DefaultVisibility(), DefaultPlayers(), alive, [true, false], 6, false) == true
  {
    CountFour1A6(ws, alive);
  }

  lemma CountFour1A7(ws: seq<World>, alive: seq<int>)
    requires ws == StatesLevelFour()
    requires alive == [1, 4, 5, 6, 7, 8, 9]
    ensures CountFrom(ws, [true, false], alive, 7, 0) == 2
  {
    assert CountFrom(ws, [true, false], alive, 7, 6) == 0;
    assert CountFrom(ws, [true, false], alive, 7, 5) == 0;
    assert CountFrom(ws, [true, false], alive, 7, 4) == 1;
    assert CountFrom(ws, [true, false], alive, 7, 3) == 2;
    assert CountFrom(ws, [true, false], alive, 7, 2) == 2;
    assert CountFrom(ws, [true, false], alive, 7, 1) == 2;
  }

  lemma HoldsFour1_110(ws: seq<World>, f: Formula, alive: seq<int>)
    requires ws == StatesLevelFour()
    requires f == Atom("b")
    requires alive == [1, 4, 5, 6, 7, 8, 9]
    ensures Holds(f, ws, DefaultVisibility(), DefaultPlayers(), alive, [true, false], 7, false) == true
  {
    CountFour1A7(ws, alive);
  }

  lemma CountFour1A8(ws: seq<World>, alive: seq<int>)
    requires ws == StatesLevelFour()
    requires alive == [1, 4, 5, 6, 7, 8, 9]
    ensures CountFrom(ws, [true, false], alive, 8, 0) == 2
  {
    assert CountFrom(ws, [true, false], alive, 8, 6) == 1;
    assert CountFrom(ws, [true, false], alive, 8, 5) == 2;
    assert CountFrom(ws, [true, false], alive, 8, 4) == 2;
    assert CountFrom(ws, [true, false], alive, 8, 3) == 2;
    assert CountFrom(ws, [true, false], alive, 8, 2) == 2;
    assert CountFrom(ws, [true, false], alive, 8, 1) == 2;
  }

  lemma HoldsFour1_111(ws: seq<World>, f: Formula, alive: seq<int>)
    requires ws == StatesLevelFour()
    requires f == Atom("b")
    requires alive == [1, 4, 5, 6, 7, 8, 9]
    ensures Holds(f, ws, DefaultVisibility(), DefaultPlayers(), alive, [true, false], 8, false) == true
  {
    CountFour1A8(ws, alive);
  }

  lemma CountFour1A9(ws: seq<World>, alive: seq<int>)
    requires ws == StatesLevelFour()
    requires alive == [1, 4, 5, 6, 7, 8, 9]
    ensures CountFrom(ws, [true, false], alive, 9, 0) == 2
  {
    assert CountFrom(ws, [true, false], alive, 9, 6) == 1;
    assert CountFrom(ws, [true, false], alive, 9, 5) == 2;
    assert CountFrom(ws, [true, false], alive, 9, 4) == 2;
    assert CountFrom(ws, [true, false], alive, 9, 3) == 2;
    assert CountFrom(ws, [true, false], alive, 9, 2) == 2;
    assert CountFrom(ws, [true, false], alive, 9, 1) == 2;
  }

  lemma HoldsFour1_112(ws: seq<World>, f: Formula, alive: seq<int>)
    requires ws == StatesLevelFour()
    requires f == Atom("b")
    requires alive == [1, 4, 5, 6, 7, 8, 9]
    ensures Holds(f, ws, DefaultVisibility(), DefaultPlayers(), alive, [true, false], 9, false) == true
  {
    CountFour1A9(ws, alive);
  }

  lemma KeptFour1_5(ws: seq<World>, t: Target, alive: seq<int>)
    requires ws == StatesLevelFour()
    requires t == Target("Al", Atom("b"), false)
    requires alive == [1, 4, 5, 6, 7, 8, 9]
    ensures KeptFrom(t, ws, DefaultVisibility(), DefaultPlayers(), alive, [true, false], 5) == []
  {
    HoldsFour1_112(ws, t.inner, alive);
    HoldsFour1_111(ws, t.inner, alive);
    assert KeptFrom(t, ws, DefaultVisibility(), DefaultPlayers(), alive, [true, false], 6) == [];
  }

  lemma KeptFour1_3(ws: seq<World>, t: Target, alive: seq<int>)
    requires ws == StatesLevelFour()
    requires t == Target("Al", Atom("b"), false)
    requires alive == [1, 4, 5, 6, 7, 8, 9]
    ensures KeptFrom(t, ws, DefaultVisibility(), DefaultPlayers(), alive, [true, false], 3) == []
  {
    KeptFour1_5(ws, t, alive);
    HoldsFour1_110(ws, t.inner, alive);
    HoldsFour1_109(ws, t.inner, alive);
    assert KeptFrom(t, ws, DefaultVisibility(), DefaultPlayers(), alive, [true, false], 4) == [];
  }

  lemma KeptFour1_1(ws: seq<World>, t: Target, alive: seq<int>)
    requires ws == StatesLevelFour()
    requires t == Target("Al", Atom("b"), false)
    requires alive == [1, 4, 5, 6, 7, 8, 9]
    ensures KeptFrom(t, ws, DefaultVisibility(), DefaultPlayers(), alive, [true, false], 1) == []
  {
    KeptFour1_3(ws, t, alive);
    HoldsFour1_108(ws, t.inner, alive);
    HoldsFour1_107(ws, t.inner, alive);
    assert KeptFrom(t, ws, DefaultVisibility(), DefaultPlayers(), alive, [true, false], 2) == [];
  }

  lemma KeptFour1_0(ws: seq<World>, t: Target, alive: seq<int>)
    requires ws == StatesLevelFour()
    requires t == Target("Al", Atom("b"), false)
    requires alive == [1, 4, 5, 6, 7, 8, 9]
    ensures KeptFrom(t, ws, DefaultVisibility(), DefaultPlayers(), alive, [true, false], 0) == [1]
  {
    KeptFour1_1(ws, t, alive);
    HoldsFour1_106(ws, t.inner, alive);
  }

  lemma SurvivorsFour1(ws: seq<World>, f: Formula, alive: seq<int>)
    requires ws == StatesLevelFour()
    requires f == Know("Al", Atom("b"))
    requires alive == [1, 4, 5, 6, 7, 8, 9]
    ensures Survivors(f, ws, DefaultVisibility(), DefaultPlayers(), alive) == [1]
  {
    KeptFour1_0(ws, Target("Al", Atom("b"), false), alive);
    assert Spine(f, false) == Some(Target("Al", Atom("b"), false));
    assert AgentIndex(DefaultPlayers(), "Al") == Some(0);
  }

  lemma LevelFourOutcome(ws: seq<World>, anns: seq<Formula>, alive: seq<int>)
    requires ws == StatesLevelFour()
    requires anns == AllAnnouncements("Al", "Be")[3]
    requires alive == Range(10)
    ensures Outcome(anns, ws, DefaultVisibility(), DefaultPlayers(), alive) == [1]
  {
    RangeTen(alive);
    assert anns == [Know("Be", Know("Al", Not(Know("Be", Atom("b"))))), Know("Al", Atom("b"))];
    SurvivorsFour0(ws, anns[0], alive);
    SurvivorsFour1(ws, anns[1], [1, 4, 5, 6, 7, 8, 9]);
    assert Outcome(anns[2..], ws, DefaultVisibility(), DefaultPlayers(), [1]) == [1];
    assert anns[1..][0] == anns[1] && anns[1..][1..] == anns[2..];
    assert Outcome(anns[1..], ws, DefaultVisibility(), DefaultPlayers(), [1, 4, 5, 6, 7, 8, 9]) == [1];
  }

  /** Over distinct worlds, the engine's answer is the label of the reference outcome. */
  lemma SolveByOutcome(ws: seq<World>, anns: seq<Formula>, nodes: seq<int>, k: nat, answer: string)
    requires Distinct(ws) && nodes == Range(|ws|)
    requires forall j :: 0 <= j < |anns| ==> AgentsIn(anns[j], DefaultPlayers())
    requires Outcome(anns, ws, DefaultVisibility(), DefaultPlayers(), nodes) == [k]
    requires k < |ws| && FormatState(ws[k]) == answer
    ensures Solve(ws, anns, Relations(ws, DefaultVisibility()), DefaultPlayers(), nodes) == Ok(answer)
  {
    RunAgrees(anns, ws, DefaultVisibility(), DefaultPlayers());
  }

  lemma AnnouncementsNameThePlayers(l: nat)
    requires l < 4
    ensures forall k :: 0 <= k < |AllAnnouncements("Al", "Be")[l]| ==> AgentsIn(AllAnnouncements("Al", "Be")[l][k], DefaultPlayers())
  {
    assert AgentIndex(DefaultPlayers(), "Al") == Some(0);
    assert AgentIndex(DefaultPlayers(), "Be") == Some(1);
  }

  lemma RangeTen(r: seq<int>)
    requires r == Range(10)
    ensures r == [0, 1, 2, 3, 4, 5, 6, 7, 8, 9]
  {
  }

  /**
   * The four levels of the puzzle, with the default players and views,
   * have the single answers May 15, Sept 14, Sept 15 and May 18.
   */
  lemma LevelOneAnswer(ws: seq<World>, anns: seq<Formula>, rels: seq<seq<Edge>>, nodes: seq<int>)
    requires ws == StatesLevelOne()
    requires anns == AllAnnouncements("Al", "Be")[0]
    requires rels == Relations(ws, DefaultVisibility())
    requires nodes == Range(10)
    ensures Solve(ws, anns, rels, DefaultPlayers(), nodes) == Ok("May, 15")
  {
    assert FormatState(ws[0]) == "May, 15" by {
      assert ws[0] == World(May, 15) && IntToString(15) == "15";
    }
    assert Distinct(ws) by {
      AllStatesDistinct();
      assert AllStates()[0] == ws;
    }
    AnnouncementsNameThePlayers(0);
    LevelOneOutcome(ws, anns, nodes);
    SolveByOutcome(ws, anns, nodes, 0, "May, 15");
  }

  lemma LevelTwoAnswer(ws: seq<World>, anns: seq<Formula>, rels: seq<seq<Edge>>, nodes: seq<int>)
    requires ws == StatesLevelTwo()
    requires anns == AllAnnouncements("Al", "Be")[1]
    requires rels == Relations(ws, DefaultVisibility())
    requires nodes == Range(10)
    ensures Solve(ws, anns, rels, DefaultPlayers(), nodes) == Ok("Sept, 14")
  {
    assert FormatState(ws[8]) == "Sept, 14" by {
      assert ws[8] == World(Sept, 14) && IntToString(14) == "14";
    }
    assert Distinct(ws) by {
      AllStatesDistinct();
      assert AllStates()[1] == ws;
    }
    AnnouncementsNameThePlayers(1);
    LevelTwoOutcome(ws, anns, nodes);
    SolveByOutcome(ws, anns, nodes, 8, "Sept, 14");
  }

  lemma LevelThreeAnswer(ws: seq<World>, anns: seq<Formula>, rels: seq<seq<Edge>>, nodes: seq<int>)
    requires ws == StatesLevelThree()
    requires anns == AllAnnouncements("Al", "Be")[2]
    requires rels == Relations(ws, DefaultVisibility())
    requires nodes == Range(10)
    ensures Solve(ws, anns, rels, DefaultPlayers(), nodes) == Ok("Sept, 15")
  {
    assert FormatState(ws[8]) == "Sept, 15" by {
      assert ws[8] == World(Sept, 15) && IntToString(15) == "15";
    }
    assert Distinct(ws) by {
      AllStatesDistinct();
      assert AllStates()[2] == ws;
    }
    AnnouncementsNameThePlayers(2);
    LevelThreeOutcome(ws, anns, nodes);
    SolveByOutcome(ws, anns, nodes, 8, "Sept, 15");
  }

  lemma LevelFourAnswer(ws: seq<World>, anns: seq<Formula>, rels: seq<seq<Edge>>, nodes: seq<int>)
    requires ws == StatesLevelFour()
    requires anns == AllAnnouncements("Al", "Be")[3]
    requires rels == Relations(ws, DefaultVisibility())
    requires nodes == Range(10)
    ensures Solve(ws, anns, rels, DefaultPlayers(), nodes) == Ok("May, 18")
  {
    assert FormatState(ws[1]) == "May, 18" by {
      assert ws[1] == World(May, 18) && IntToString(18) == "18";
    }
    assert Distinct(ws) by {
      AllStatesDistinct();
      assert AllStates()[3] == ws;
    }
    AnnouncementsNameThePlayers(3);
    LevelFourOutcome(ws, anns, nodes);
    SolveByOutcome(ws, anns, nodes, 1, "May, 18");
  }
}
