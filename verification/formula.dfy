/**
 * Epistemic formulas: propositional atoms, negation, other unary operators,
 * "agent knows that" and binary operators, with their theory-of-mind (ToM)
 * level and their textual rendering.
 *
 * The Python constructors raise TypeError when an operand is not a formula;
 * here the operand's type rules that out.
 */
module Formulas {
  import opened Wrappers

  datatype Formula =
    | Atom(name: string)
    | Not(inner: Formula)
    | Unary(symbol: string, inner: Formula)
    | Know(agent: string, inner: Formula)
    | Bin(symbol: string, left: Formula, right: Formula)

  function Max(a: nat, b: nat): nat { if a >= b then a else b }

  /**
   * The ToM level, computed bottom-up as the Python constructors do: an atom
   * has level 0, unary and binary operators take their operands' level, and
   * a knowledge formula adds one unless it directly wraps a knowledge formula
   * of the same agent.
   */
  function TomLevel(f: Formula): (r: nat)
    ensures f.Know? ==> r >= 1
  {
    match f
    case Atom(_) => 0
    case Not(g) => TomLevel(g)
    case Unary(_, g) => TomLevel(g)
    case Know(a, g) => if g.Know? && g.agent == a then TomLevel(g) else TomLevel(g) + 1
    case Bin(_, l, r) => Max(TomLevel(l), TomLevel(r))
  }

  /** Number of knowledge operators in `f`. */
  function KnowCount(f: Formula): nat
  {
    match f
    case Atom(_) => 0
    case Not(g) => KnowCount(g)
    case Unary(_, g) => KnowCount(g)
    case Know(_, g) => 1 + KnowCount(g)
    case Bin(_, l, r) => KnowCount(l) + KnowCount(r)
  }

  /**
   * Reference reading of the ToM level, top-down: along each path from the
   * root, count the knowledge operators whose agent differs from that of a
   * knowledge operator directly above them (`parent`), and take the largest
   * count.
   */
  function AgentChanges(f: Formula, parent: Option<string>): nat
  {
    match f
    case Atom(_) => 0
    case Not(g) => AgentChanges(g, None)
    case Unary(_, g) => AgentChanges(g, None)
    case Know(a, g) => (if parent == Some(a) then 0 else 1) + AgentChanges(g, Some(a))
    case Bin(_, l, r) => Max(AgentChanges(l, None), AgentChanges(r, None))
  }

  lemma {:induction false} AgentChangesFrom(f: Formula, parent: Option<string>)
    ensures AgentChanges(f, parent) ==
      TomLevel(f) - (if f.Know? && parent == Some(f.agent) then 1 else 0)
  {
    match f
    case Atom(_) =>
    case Not(g) => AgentChangesFrom(g, None);
    case Unary(_, g) => AgentChangesFrom(g, None);
    case Know(a, g) => AgentChangesFrom(g, Some(a));
    case Bin(_, l, r) => AgentChangesFrom(l, None); AgentChangesFrom(r, None);
  }

  /** The bottom-up level equals the top-down count of agent changes. */
  lemma TomLevelCountsAgentChanges(f: Formula)
    ensures TomLevel(f) == AgentChanges(f, None)
  {
    AgentChangesFrom(f, None);
  }

  /** The ToM level never exceeds the number of knowledge operators. */
  lemma {:induction false} TomLevelAtMostKnowCount(f: Formula)
    ensures TomLevel(f) <= KnowCount(f)
  {
    match f
    case Atom(_) =>
    case Not(g) => TomLevelAtMostKnowCount(g);
    case Unary(_, g) => TomLevelAtMostKnowCount(g);
    case Know(_, g) => TomLevelAtMostKnowCount(g);
    case Bin(_, l, r) => TomLevelAtMostKnowCount(l); TomLevelAtMostKnowCount(r);
  }

  /** A formula has ToM level 0 exactly when it contains no knowledge operator. */
  lemma {:induction false} TomLevelZeroIffNoKnow(f: Formula)
    ensures TomLevel(f) == 0 <==> KnowCount(f) == 0
  {
    TomLevelAtMostKnowCount(f);
    match f
    case Atom(_) =>
    case Not(g) => TomLevelZeroIffNoKnow(g);
    case Unary(_, g) => TomLevelZeroIffNoKnow(g);
    case Know(_, g) =>
    case Bin(_, l, r) => TomLevelZeroIffNoKnow(l); TomLevelZeroIffNoKnow(r);
  }

  /** Python's `str()` of a formula. */
  function Render(f: Formula): string
  {
    match f
    case Atom(n) => n
    case Not(g) => "not " + Render(g)
    case Unary(s, g) => s + " " + Render(g)
    case Know(a, g) => a + " knows that " + Render(g)
    case Bin(s, l, r) => "(" + Render(l) + " " + s + " " + Render(r) + ")"
  }

  /** Number of binary operators in `f`. */
  function BinCount(f: Formula): nat
  {
    match f
    case Atom(_) => 0
    case Not(g) => BinCount(g)
    case Unary(_, g) => BinCount(g)
    case Know(_, g) => BinCount(g)
    case Bin(_, l, r) => 1 + BinCount(l) + BinCount(r)
  }

  /** No atom name, agent or operator symbol in `f` contains character `c`. */
  predicate Avoids(f: Formula, c: char)
  {
    match f
    case Atom(n) => c !in n
    case Not(g) => Avoids(g, c)
    case Unary(s, g) => c !in s && Avoids(g, c)
    case Know(a, g) => c !in a && Avoids(g, c)
    case Bin(s, l, r) => c !in s && Avoids(l, c) && Avoids(r, c)
  }

  /** Characters a rendering adds around its operands. */
  lemma LiteralsAvoidParentheses(c: char)
    requires c == '(' || c == ')'
    ensures c !in "not " && c !in " " && c !in " knows that "
    ensures (c in "(") != (c in ")")
  {
  }

  lemma CountAround(a: string, m: string, g: string, c: char)
    requires c !in a && c !in m
    ensures multiset(a + m + g)[c] == multiset(g)[c]
  {
    assert multiset(a)[c] == 0 && multiset(m)[c] == 0;
  }

  lemma CountBinText(l: string, s: string, r: string, c: char)
    requires c !in " " && c !in s
    requires (c in "(") != (c in ")")
    ensures multiset("(" + l + " " + s + " " + r + ")")[c] == 1 + multiset(l)[c] + multiset(r)[c]
  {
    assert multiset(" ")[c] == 0 && multiset(s)[c] == 0;
    if c in "(" {
      assert multiset("(")[c] == 1 && multiset(")")[c] == 0;
    } else {
      assert multiset("(")[c] == 0 && multiset(")")[c] == 1;
    }
  }

  lemma NotParentheses(g: Formula, c: char)
    requires c == '(' || c == ')'
    ensures multiset(Render(Not(g)))[c] == multiset(Render(g))[c]
  {
    var not, r := "not ", Render(g);
    assert Render(Not(g)) == not + r;
    assert multiset(not)[c] == 0 by {
      LiteralsAvoidParentheses(c);
    }
    assert multiset(not + r) == multiset(not) + multiset(r);
  }

  lemma UnaryOpParentheses(s: string, g: Formula, c: char)
    requires c == '(' || c == ')'
    requires c !in s
    ensures multiset(Render(Unary(s, g)))[c] == multiset(Render(g))[c]
  {
    LiteralsAvoidParentheses(c);
    CountAround(s, " ", Render(g), c);
  }

  lemma KnowParentheses(a: string, g: Formula, c: char)
    requires c == '(' || c == ')'
    requires c !in a
    ensures multiset(Render(Know(a, g)))[c] == multiset(Render(g))[c]
  {
    LiteralsAvoidParentheses(c);
    CountAround(a, " knows that ", Render(g), c);
  }

  lemma BinParentheses(f: Formula, c: char)
    requires c == '(' || c == ')'
    requires f.Bin? && Avoids(f, c)
    requires multiset(Render(f.left))[c] == BinCount(f.left)
    requires multiset(Render(f.right))[c] == BinCount(f.right)
    ensures multiset(Render(f))[c] == BinCount(f)
  {
    LiteralsAvoidParentheses(c);
    CountBinText(Render(f.left), f.symbol, Render(f.right), c);
  }

  /**
   * Each binary operator contributes exactly one opening and one closing
   * parenthesis to the rendering; when the names themselves hold none, the
   * rendered text is therefore balanced.
   */
  lemma {:induction false} RenderParentheses(f: Formula, c: char)
    requires c == '(' || c == ')'
    requires Avoids(f, c)
    ensures multiset(Render(f))[c] == BinCount(f)
  {
    match f
    case Atom(n) =>
      assert multiset(n)[c] == 0;
    case Not(g) =>
      RenderParentheses(g, c);
      NotParentheses(g, c);
    case Unary(s, g) =>
      RenderParentheses(g, c);
      UnaryOpParentheses(s, g, c);
    case Know(a, g) =>
      RenderParentheses(g, c);
      KnowParentheses(a, g, c);
    case Bin(_, l, r) =>
      RenderParentheses(l, c);
      RenderParentheses(r, c);
      BinParentheses(f, c);
  }

  /** A Python value handed to a formula constructor: a string or a formula object. */
  datatype Arg = StrArg(s: string) | FormulaArg(f: Formula)

  /**
   * `KNOW(formula, agent)` with its parameters in the declared order: a
   * first argument that is not a formula raises TypeError before the agent
   * is looked at.  An agent that is not a string lies outside this model.
   */
  function KnowDeclared(formula: Arg, agent: Arg): (r: Result<Formula, Error>)
    requires formula.FormulaArg? ==> agent.StrArg?
    ensures r.Ok? <==> formula.FormulaArg?
    ensures r.Err? ==> r.error == TypeError
    ensures r.Ok? ==> r.value.Know? && r.value.agent == agent.s && r.value.inner == formula.f && TomLevel(r.value) >= 1
  {
    if formula.StrArg? then Err(TypeError) else Ok(Know(agent.s, formula.f))
  }

  /**
   * The announcements name the agent first and the formula second, so the
   * constructor as declared rejects every one of them.
   */
  lemma DeclaredOrderRejectsAnnouncements(agent: string, inner: Formula)
    ensures KnowDeclared(StrArg(agent), FormulaArg(inner)) == Err(TypeError)
  {
  }

  datatype PublicAnnouncement = PublicAnnouncement(formula: Formula)

  /** Python's `str()` of a public announcement. */
  function AnnouncementText(pa: PublicAnnouncement): string
  {
    "Public announcement: " + Render(pa.formula)
  }

  /**
   * The announcement's text adds no parenthesis of its own: those in it are
   * the formula's, one pair per binary operator.
   */
  lemma AnnouncementParentheses(pa: PublicAnnouncement, c: char)
    requires c == '(' || c == ')'
    requires Avoids(pa.formula, c)
    ensures multiset(AnnouncementText(pa))[c] == BinCount(pa.formula)
  {
    PrefixAvoidsParentheses("Public announcement: ", c);
    CountAfter(AnnouncementText(pa), "Public announcement: ", Render(pa.formula), c);
    RenderParentheses(pa.formula, c);
  }

  lemma PrefixAvoidsParentheses(prefix: string, c: char)
    requires prefix == "Public announcement: "
    requires c == '(' || c == ')'
    ensures c !in prefix
  {
    assert forall k :: 0 <= k < |prefix| ==> prefix[k] != '(' && prefix[k] != ')';
  }

  lemma CountAfter(text: string, a: string, g: string, c: char)
    requires text == a + g && c !in a
    ensures multiset(text)[c] == multiset(g)[c]
  {
    assert multiset(a)[c] == 0;
    assert multiset(text) == multiset(a) + multiset(g);
  }

  /** The formula module's own example: a same-agent nesting stays at level 1. */
  lemma SameAgentExample(f: Formula)
    requires f == Know("a", Know("a", Atom("c")))
    ensures TomLevel(f) == 1
  {
    assert TomLevel(f.inner) == 1;
  }
}
