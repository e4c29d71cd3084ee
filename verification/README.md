# Cheryl's birthday puzzle: epistemic solver and experiment logic, in Dafny

This project models the Cheryl-Puzzle repository. The repository is a theory-of-mind
experiment built on "Cheryl's birthday"-style puzzles. It holds:

- an **epistemic solver** (`modeling/`). Public announcements are epistemic formulas
  (atoms, negation, "agent knows that", binary operators), each with a theory-of-mind
  (ToM) level. They are evaluated on a Kripke model with one world per candidate
  birthday (a `Month` enum value and a day). Each player's indistinguishability relation
  is built from what that player sees. The model is updated by removing the worlds an
  announcement flags and pruning every relation. The answer reports the single
  surviving birthday, "No solution" or "Multiple solutions";
- the **model-evidence arithmetic** (`modeling/fitting.py`). It turns solver answers
  into predictions, compares them with participants' answers and computes the
  log-likelihood terms;
- the **answer-translation tables** (`analysis/utilities.py`, `utilities.py`). These
  rename the birthday puzzle into the drink, toy and hair scenarios and mirror months
  or days;
- the **experiment utilities** (`utilities.py`, `interface/utilities.py`, `puzzle.py`):
  - the age and email validators;
  - the derangement shuffle of trials;
  - the reward;
  - time conversions and warnings;
  - puzzle numbering;
  - the instruction text and the answer menu.

## How the model is organised

Modules follow the source files:

- `Formulas`, for `formula.py`;
- `Worlds`, for the `Month` enum and `format_text_states`;
- `Uncertainty`, for relation building and pruning;
- `Puzzles`, for `puzzle_formalism.py`;
- `Engine` and `Epistemic`, for `epistemic_model.py`;
- `Solvers`, for `solver.py`;
- `Fitting`, for `fitting.py`;
- `Translation`, for the scenario tables and `translate_answer`;
- `Validation`, `Shuffling` and `Screens`, for the experiment utilities.

Helper modules:

- `Wrappers` holds Option, Result and Python's exception classes;
- `Text` holds Python's `str()`, `int()`, `split`, `join` and `replace`.

Where the source updates state in place, the model is imperative:

- `Puzzle`, `Solver`, `EpistemicModel` and the warning log are classes. Their fields are
  reassigned by methods with `modifies` clauses.
- The nested relation-building loops, the dictionary-writing loop of
  `process_announcement`, the counting loops of `fitting.py`, the shuffle loop and the
  instruction-text loops are `while` loops with invariants.

Each method is proved against a specification function, such as `Uncertainty.Edges`,
`Engine.Step`, `Engine.Run`, `Fitting.Tally` or `Screens.InstructionText`. The properties
are lemmas about those functions.

The solver has two readings:

- a faithful one over relation lists (`Engine`);
- a reference Kripke semantics over what each player sees (`Kripke`).

`Kripke.RunAgrees` proves that they remove the same worlds. With it, `Regression` proves
the four puzzle levels' answers: "May, 15", "Sept, 14", "Sept, 15" and "May, 18".

Conventions:

- A Python exception is an `Err` carrying the exception's class.
- Randomness (`random.shuffle`, `random.choice`) is a parameter holding the draws.
- Python floats are exact reals. A logarithm is a symbolic term `coeff * ln(arg)`.
- Code that appears twice, in `utilities.py` and in `interface/utilities.py`, is modelled
  once. Each row below cites one copy.
- The docstring of `compute_reward` in `utilities.py` says the bonus is 0.25 euros. The
  code adds 2.5, and so does the model. The copy in `interface/utilities.py` says 2.5.

## Model

| member | source | states |
|---|---|---|
| Wrappers.ListIndex | modeling/puzzle_formalism.py:85 | Python list indexing `lst[i]`: defined exactly for `-len <= i < len`, a negative index counting from the end; otherwise IndexError |
| Wrappers.LevelIndex | modeling/puzzle_formalism.py:125 | indexing by `curr_level`, which may be `None`: TypeError exactly for `None`, IndexError out of range, else the list position |
| Text.ParseIntToString | utilities.py:47 | `int(str(i)) == i` for every integer `i` |
| Text.IntToStringInjective | modeling/utilities.py:23 | distinct integers print differently under `str` |
| Text.JoinSplit | puzzle.py:55-57 | splitting at a separator and joining with another replaces every separator occurrence, left to right |
| Text.JoinSplitRoundTrip | puzzle.py:55 | `sep.join(s.split(sep)) == s` |
| Text.ParseInt | utilities.py:47 | Python's `int()` on a string: a number only when the string holds a digit; `Text.ParseIntToString` proves it reads back every printed integer |
| Text.Split | puzzle.py:55 | `s.split(sep)`; `Text.JoinSplitRoundTrip` proves joining the pieces with `sep` gives `s` back |
| Text.Join | puzzle.py:55-57 | `sep.join(parts)`; `Text.JoinSplit` proves that joining the pieces of a split with another separator replaces every occurrence |
| Text.ReplaceAll | modeling/fitting.py:23 | `s.replace(pat, rep)`, every occurrence, left to right; `Text.JoinSplit` proves it equal to splitting at `pat` and joining with `rep` |
| Formulas.TomLevel | modeling/formula.py:78-89 | the ToM level computed bottom-up as the constructors do; a KNOW formula has level at least 1 |
| Formulas.TomLevelCountsAgentChanges | modeling/formula.py:78-89 | the bottom-up level equals an independent top-down count: along each path, the KNOW operators whose agent differs from the KNOW directly above, maximised over paths (atom 0, NOT and unary keep, binary takes the max) |
| Formulas.TomLevelAtMostKnowCount | modeling/formula.py:85-89 | a formula's ToM level never exceeds the number of KNOW operators in it |
| Formulas.TomLevelZeroIffNoKnow | modeling/formula.py:15 | level 0 exactly when the formula contains no KNOW |
| Formulas.RenderParentheses | modeling/formula.py:118-119 | in `str(f)` the number of `(` and the number of `)` each equal the number of binary operators, when no name contains them |
| Formulas.Render | modeling/formula.py:91-92 | `str(f)` of every formula class (also formula.py:17-18, 47-48 and 118-119); `Formulas.RenderParentheses` proves each binary operator contributes exactly one `(` and one `)` |
| Formulas.AnnouncementText | modeling/formula.py:131-132 | `str()` of a public announcement, the fixed prefix followed by the formula's text; `Formulas.AnnouncementParentheses` states its parentheses |
| Formulas.AnnouncementParentheses | modeling/formula.py:131-132 | the announcement's text holds exactly one `(` and one `)` per binary operator when no name contains them: the prefix adds none |
| Formulas.SameAgentExample | modeling/formula.py:136-138 | `KNOW(KNOW(c, a), a)` has ToM level 1 |
| Formulas.KnowDeclared | modeling/formula.py:62-76 | `KNOW(formula, agent)` in its declared order: TypeError exactly when the first argument is not a formula, else a KNOW of level at least 1 |
| Formulas.DeclaredOrderRejectsAnnouncements | modeling/puzzle_formalism.py:39-48 | the announcements pass the agent's name first, so the declared constructor raises TypeError on them |
| Worlds.ValueReversesCalendar | modeling/utilities.py:9-14 | the Month values are distinct and strictly decreasing in calendar order |
| Worlds.MonthNamed | modeling/utilities.py:9-14 | `Month[name]` returns a member whose name is `name` |
| Worlds.MonthNamedName | modeling/utilities.py:9-14 | every member is found by its own name, `Sept` included |
| Worlds.ParseFormat | modeling/utilities.py:17-23 | `format_text_states` reads back: the label parses to the same (month, day) |
| Worlds.FormatState | modeling/utilities.py:17-23 | the label `"{name}, {day}"`; `Worlds.ParseFormat` proves it parses back to the world and `Worlds.FormatStateInjective` that distinct worlds get distinct labels |
| Worlds.FormatStateInjective | modeling/utilities.py:23 | distinct worlds have distinct labels |
| Worlds.LabelHasComma | modeling/utilities.py:23 | every label contains the ", " separator's comma |
| Uncertainty.VisibleEqualIffSameView | modeling/puzzle_formalism.py:90-106 | comparing the visible parts, which stand for the concatenated visible strings, equals comparing every visible component |
| Uncertainty.SameViewReflexive | modeling/puzzle_formalism.py:106 | looking alike is reflexive |
| Uncertainty.SameViewSymmetric | modeling/puzzle_formalism.py:106 | looking alike is symmetric |
| Uncertainty.SameViewTransitive | modeling/puzzle_formalism.py:106 | looking alike is transitive |
| Uncertainty.SeesMonthOnly | modeling/puzzle_formalism.py:85-106 | with visibility row `[True, False]` two worlds look alike exactly when their months are equal |
| Uncertainty.SeesDayOnly | modeling/puzzle_formalism.py:85-106 | with visibility row `[False, True]` two worlds look alike exactly when their days are equal |
| Uncertainty.BeforeTotal | modeling/puzzle_formalism.py:99 | of two different worlds, one passes the one-directional test against the other |
| Uncertainty.BeforeIrreflexive | modeling/puzzle_formalism.py:99 | no world passes the test against itself |
| Uncertainty.Relations | modeling/puzzle_formalism.py:32-36 | one relation per visibility row, each built by `compute_uncertainty` |
| Uncertainty.EdgesMember | modeling/puzzle_formalism.py:87-114 | a pair is in a player's relation exactly when both indices are in range and it is reflexive or joins alike worlds passing the test one way or the other |
| Uncertainty.Edges | modeling/puzzle_formalism.py:64-115 | the relation `compute_uncertainty` returns; `Uncertainty.EdgesMember` states exactly which pairs it holds and `Uncertainty.BuildEdges` proves the loops return it |
| Uncertainty.EdgesMemberDistinct | modeling/puzzle_formalism.py:87-114 | over distinct worlds the relation holds exactly the in-range pairs of worlds that look alike |
| Uncertainty.EdgesInRange | modeling/puzzle_formalism.py:107-114 | every pair has both indices in `range(len(possible_worlds))` |
| Uncertainty.EdgesReflexive | modeling/puzzle_formalism.py:113-114 | `(x, x)` is present for every world index |
| Uncertainty.EdgesSymmetric | modeling/puzzle_formalism.py:111-112 | `(x, y)` present implies `(y, x)` present |
| Uncertainty.PassNoDuplicates | modeling/puzzle_formalism.py:108-109 | the comparison pass never records a pair twice |
| Uncertainty.VisiblePart | modeling/puzzle_formalism.py:90-95 | the player loop assembles the visible portion of a world |
| Uncertainty.AddRow | modeling/puzzle_formalism.py:96-109 | the inner loop appends exactly world `i`'s row of alike, ordered pairs |
| Uncertainty.BuildEdges | modeling/puzzle_formalism.py:86-115 | the nested loops return the specified relation (pass, mirror, reflexive pairs) |
| Uncertainty.Prune | modeling/puzzle_formalism.py:125-127 | the kept pairs are exactly those with both ends in `list_states`, in order |
| Uncertainty.PruneTwice | modeling/puzzle_formalism.py:125-127 | pruning to a set and then to a subset of it is pruning to the subset |
| Uncertainty.PruneKeepsAll | modeling/puzzle_formalism.py:125-127 | pruning to a set containing every end changes nothing |
| Uncertainty.Accessible | modeling/epistemic_model.py:74-75 | `get_accessible_worlds(R, w)` is exactly `{y \| (w, y) in R}`, each once |
| Uncertainty.EdgesCoherent | modeling/puzzle_formalism.py:111-114 | a built relation is closed under mirror and reflexive pairs of its members |
| Uncertainty.PruneCoherent | modeling/puzzle_formalism.py:125-127 | pruning keeps that closure: no dangling pair, no pair without its mirror or loops |
| Puzzles.AllStates | modeling/puzzle_formalism.py:12-24 | four levels of ten worlds each |
| Puzzles.AllStatesDistinct | modeling/puzzle_formalism.py:12-23 | no level lists a birthday twice |
| Puzzles.AllAnnouncements | modeling/puzzle_formalism.py:39-51 | one announcement list per level |
| Puzzles.AnnouncementLevels | modeling/puzzle_formalism.py:39-48 | with the agent first, the announcements have ToM levels 1; 1, 1; 2, 1; 3, 1 |
| Puzzles.Puzzle.Init | modeling/puzzle_formalism.py:7-54 | the fields after construction: the tables, players, visibility, level and every level's relations |
| Puzzles.Puzzle.New | modeling/puzzle_formalism.py:7-54 | `Puzzle(...)`: IndexError for a visibility of the wrong shape (with a player), KeyError with fewer than two players, otherwise a valid puzzle whose relations are built from the views |
| Puzzles.Puzzle.SetLevel | modeling/puzzle_formalism.py:56-62 | only the level changes |
| Puzzles.Puzzle.ComputeUncertainty | modeling/puzzle_formalism.py:64-115 | IndexError unless the visibility is players × players or for a bad index, else the player's relation |
| Puzzles.Puzzle.UpdateUncertainty | modeling/puzzle_formalism.py:117-127 | only `all_uncertainty[curr_level][player_idx]` changes, to its pruning; a `None` level or bad index raises and changes nothing |
| Puzzles.Puzzle.GenerateFullModel | modeling/puzzle_formalism.py:129-166 | nodes `0..n-1` of the current level and the union of every player's pairs, every pair between nodes; IndexError when the colour list runs out |
| Puzzles.BuildAll | modeling/puzzle_formalism.py:31-36 | the construction loop builds every level's relations |
| Puzzles.NumberNodes | modeling/puzzle_formalism.py:144-151 | nodes are added as `0..n-1` |
| Puzzles.DrawEdges | modeling/puzzle_formalism.py:153-164 | every pair is added, or IndexError at the first pair without a colour |
| Puzzles.CheckShape | modeling/puzzle_formalism.py:78-83 | the loop accepts exactly a square matrix of the players' size |
| Engine.AgentIndex | modeling/epistemic_model.py:51 | the first position of the agent among the players; none exactly when absent (ValueError) |
| Engine.CheckValidityCases | modeling/epistemic_model.py:92-94 | `check_validity` is `(|S| != 1) xor negate`; true means "remove" |
| Engine.CheckValidity | modeling/epistemic_model.py:77-94 | `check_validity`; `Engine.CheckValidityCases` states its cases |
| Engine.Process | modeling/epistemic_model.py:19-63 | `process_announcement`'s verdict, true meaning "remove"; `Kripke.ProcessAgrees` proves it equals the reference Kripke verdict, `Engine.ProcessOk` that it fails only for an agent who is not a player, `Engine.SpineProcess` that NOT flips the flag |
| Engine.ProcessEach | modeling/epistemic_model.py:47-63 | the loop over the worlds under KNOW; `Engine.EachMarks` and `Kripke.ProcessEachAny` prove it returns whether some world's inner verdict is true |
| Engine.Run | modeling/epistemic_model.py:108-121 | the announcement loop of `run_model_once`; `Engine.RunShrinks` states its survivors and relations, `Kripke.RunAgrees` that they are the reference semantics' |
| Engine.Solve | modeling/epistemic_model.py:108-121 | `run_model_once`'s answer; `Regression.SolveByOutcome` proves it is the label of the reference outcome's single world, and the `Regression.Level*Answer` lemmas give the four levels' answers |
| Engine.Answer | modeling/epistemic_model.py:123-136 | `get_answer`; `Engine.AnswerClassifies` states its three cases |
| Engine.ProcessOk | modeling/epistemic_model.py:38-63 | evaluating an announcement fails only when it names an agent who is not a player |
| Engine.Unmarked | modeling/epistemic_model.py:101 | the kept nodes are among the old ones and no more numerous |
| Engine.UnmarkedMember | modeling/epistemic_model.py:101 | a node is kept exactly when some position holding it is unflagged |
| Engine.UnmarkedDistinct | modeling/epistemic_model.py:101-103 | keeping nodes keeps them distinct |
| Engine.Step | modeling/epistemic_model.py:115-119 | one announcement and update: the node set only shrinks |
| Engine.PruneAll | modeling/epistemic_model.py:104-106 | every player's relation is pruned to the survivors |
| Engine.AnswerClassifies | modeling/epistemic_model.py:129-136 | "No solution" iff 0 survivors, "Multiple solutions" iff 2 or more, and one survivor's label parses back to that world |
| Engine.StepRemovesMarked | modeling/epistemic_model.py:101 | an announcement removes exactly the worlds whose written verdict is true |
| Engine.StepWithoutTarget | modeling/epistemic_model.py:38-63 | an announcement writing no verdict (atom, binary) removes nothing |
| Engine.RunShrinks | modeling/epistemic_model.py:115-121 | after all announcements the survivors are among the initial worlds, distinct, and every relation is the initial one pruned to them |
| Engine.StepKeepsDistinct | modeling/epistemic_model.py:101-103 | an update keeps the nodes distinct |
| Engine.SpineProcess | modeling/epistemic_model.py:43-44 | NOT only flips the negation flag, on the same world set |
| Engine.NoTargetOk | modeling/epistemic_model.py:38-39 | an announcement without a knowledge target never fails |
| Engine.EachMarks | modeling/epistemic_model.py:49-63 | the loop over worlds fails like the first failing verdict and otherwise returns whether any verdict is true |
| Engine.ProcessStep | modeling/epistemic_model.py:115-119 | the update fails exactly when evaluating the announcement fails, with the same error |
| Kripke.BuiltRepresents | modeling/puzzle_formalism.py:87-114 | over distinct worlds the built relations are the view-based reading |
| Kripke.AccessibleCount | modeling/epistemic_model.py:74-75 | in a represented relation the accessible worlds are the live alike worlds, counted by the reference count |
| Kripke.ProcessEachAny | modeling/epistemic_model.py:49-63 | the KNOW loop returns whether some world's inner verdict is true |
| Kripke.ProcessAgrees | modeling/epistemic_model.py:38-63 | evaluation over a represented relation equals the reference Kripke verdict |
| Kripke.StepAgrees | modeling/epistemic_model.py:115-119 | one announcement removes the same worlds in both readings |
| Kripke.PruneRepresents | modeling/epistemic_model.py:104-106 | pruning represented relations to surviving worlds represents the survivors |
| Kripke.RunAgreesFrom | modeling/epistemic_model.py:115-121 | from any represented state the engine's run leaves the reference outcome |
| Kripke.RunAgrees | modeling/epistemic_model.py:115-121 | from the full model the engine's run and the reference semantics leave the same worlds |
| Epistemic.Cleared | modeling/epistemic_model.py:17 | the fresh dictionary: exactly the nodes as keys, all false |
| Epistemic.KeepUnmarked | modeling/epistemic_model.py:101 | the nodes an update keeps are the unflagged keys in order |
| Epistemic.PruneEveryPlayer | modeling/epistemic_model.py:105-106 | only the current level's relations change, each pruned to the survivors |
| Epistemic.StepByWritten | modeling/epistemic_model.py:58-63 | the verdicts written into the dictionary are those the update reads |
| Epistemic.Restrict | modeling/epistemic_model.py:101 | removing nodes keeps exactly the pairs between surviving nodes |
| Epistemic.EdgeSetPrune | modeling/epistemic_model.py:101-106 | removing nodes from the graph removes exactly the pairs that pruning the relations removes |
| Epistemic.EpistemicModel.Init | modeling/epistemic_model.py:8-17 | the fields after construction: the puzzle, the graph, no world flagged |
| Epistemic.EpistemicModel.New | modeling/epistemic_model.py:8-17 | `EpistemicModel(puzzle)`: the full model of the current level, or the error generating it raises |
| Epistemic.EpistemicModel.ProcessAnnouncement | modeling/epistemic_model.py:19-63 | returns the verdict `Engine` defines; the dictionary keeps its keys and holds the written verdicts |
| Epistemic.EpistemicModel.ProcessKnow | modeling/epistemic_model.py:47-63 | the KNOW loop overwrites every existing key with the inner verdict over the agent's current relation, adds none, returns whether any is true |
| Epistemic.EpistemicModel.UpdateModel | modeling/epistemic_model.py:96-106 | survivors = old nodes minus flagged ones; the graph's pairs are restricted to them; the dictionary's keys are the survivors; every relation is pruned |
| Epistemic.EpistemicModel.GetAnswer | modeling/epistemic_model.py:123-136 | the answer `Engine.Answer` defines for the current nodes, never an error |
| Epistemic.EpistemicModel.Announce | modeling/epistemic_model.py:115-119 | one announcement and update equals `Engine.Step`, relations pruned to its survivors |
| Epistemic.EpistemicModel.RunModelOnce | modeling/epistemic_model.py:108-121 | the answer of `Engine.Solve`; afterwards the model holds the survivors and pruned relations of `Engine.Run` |
| Regression.SolveByOutcome | modeling/epistemic_model.py:108-136 | over distinct worlds the engine's answer is the label of the reference outcome's single world |
| Regression.AnnouncementsNameThePlayers | modeling/puzzle_formalism.py:39-48 | with players Al and Be every announcement names a player |
| Regression.LevelOneOutcome | modeling/puzzle_formalism.py:12-14 | level 1 leaves world 0 |
| Regression.LevelTwoOutcome | modeling/puzzle_formalism.py:15-17 | level 2 leaves world 8 |
| Regression.LevelThreeOutcome | modeling/puzzle_formalism.py:18-20 | level 3 leaves world 8 |
| Regression.LevelFourOutcome | modeling/puzzle_formalism.py:21-23 | level 4 leaves world 1 |
| Regression.LevelOneAnswer | modeling/puzzle_formalism.py:39 | Al sees the month, Be the day: level 1 answers "May, 15" |
| Regression.LevelTwoAnswer | modeling/puzzle_formalism.py:40-41 | level 2 answers "Sept, 14" |
| Regression.LevelThreeAnswer | modeling/puzzle_formalism.py:42-44 | level 3 answers "Sept, 15" |
| Regression.LevelFourAnswer | modeling/puzzle_formalism.py:45-48 | level 4 answers "May, 18" |
| Solvers.RoundsLength | modeling/solver.py:54-86 | the doubled player loop gives players² relations per level |
| Solvers.RoundsPrefix | modeling/solver.py:54-86 | the first `players` relations are the players' own, in order |
| Solvers.RoundsMembers | modeling/solver.py:54-86 | the repetition adds no new relation and loses none |
| Solvers.RepeatRelations | modeling/solver.py:53-86 | the nested loops build `players` rounds of the row |
| Solvers.RepeatAll | modeling/solver.py:51-89 | one such list per level |
| Solvers.Solver.Init | modeling/solver.py:9-20 | the fields before the model is generated |
| Solvers.Solver.New | modeling/solver.py:9-24 | `Solver(...)`: IndexError for a bad level or shape or colour overflow, else the solver with its initial graph and the rebuilt relations |
| Solvers.Solver.RunModelOnce | modeling/solver.py:26-30 | the base class always raises NotImplementedError |
| Solvers.Solver.ComputeUncertainty | modeling/solver.py:32-89 | IndexError on a shape mismatch, else one list per level of players² relations |
| Solvers.Solver.UpdateUncertainty | modeling/solver.py:91-101 | only relation `player_idx` of the current level changes, to its pruning; a bad index raises and changes nothing |
| Solvers.Solver.GenerateFullModel | modeling/solver.py:103-142 | relations recomputed from scratch, discarding earlier pruning; nodes `0..n-1`; the first `players` relations drawn |
| Fitting.PredictionOfLabel | modeling/fitting.py:23 | a label's "Sept" becomes "September"; other months and the day unchanged |
| Fitting.PredictionKeepsVerdicts | modeling/fitting.py:23 | "No solution" and "Multiple solutions" pass unchanged |
| Fitting.Prediction | modeling/fitting.py:23 | the answer with "Sept" replaced; `Fitting.PredictionOfLabel` and `Fitting.PredictionKeepsVerdicts` state what it does to labels and verdicts |
| Fitting.ConfigCount | modeling/fitting.py:55-58 | `2L - 1` configurations for max level `L > 0` |
| Fitting.ConfigsEnumerate | modeling/fitting.py:55-58 | the configurations are exactly the (level, direction) pairs below the max except (0, rl), each once |
| Fitting.Config | modeling/fitting.py:55-58 | the `k`-th (level, direction) configuration of the strategy loop; `Fitting.ConfigsEnumerate` proves it enumerates each allowed pair once |
| Fitting.TrialPredictions | modeling/fitting.py:55-65 | one prediction per configuration, with an equally long correctness list, each entry compared with the correct answer |
| Fitting.CountTrue | modeling/fitting.py:86 | `sum` of booleans lies in `[0, len]`, is `len` iff all true and 0 iff none |
| Fitting.GetAccuracy | modeling/fitting.py:77-86 | ZeroDivisionError iff empty, else in `[0, 1]`, 1 iff all correct, 0 iff none |
| Fitting.CountCommonAnswers | modeling/fitting.py:89-101 | IndexError when the model list is shorter, else the number of equal positions |
| Fitting.MatchesBounds | modeling/fitting.py:97-101 | the count is everything iff the lists agree and 0 iff they never do |
| Fitting.Tally | modeling/fitting.py:111-118 | the histogram: every distinct answer in first-occurrence order with its multiplicity |
| Fitting.CountSubjectAnswers | modeling/fitting.py:104-118 | the counting loop builds that histogram |
| Fitting.TallyTotal | modeling/fitting.py:111-118 | the counts sum to the list length |
| Fitting.TallyPositive | modeling/fitting.py:111-118 | every count is at least 1 |
| Fitting.Likelihood | modeling/fitting.py:122-138 | ZeroDivisionError iff no answers; the ln(1-e) term only when correct > 0 and the ln(e·p) term only when incorrect > 0, every argument positive |
| Fitting.LikelihoodArguments | modeling/fitting.py:122-138 | with penalty in (0, 1] every log argument lies in (0, 1]; no incorrect answer gives the single term `correct·ln(1)` |
| Fitting.ErrorLikelihoodRandom | modeling/fitting.py:142-154 | the terms `a·ln(a/n)`; ZeroDivisionError when all counts are 0, ValueError on a zero count, every argument in (0, 1] |
| Fitting.TallyLikelihood | modeling/fitting.py:151-154 | on a participant's histogram the random model's likelihood is always defined |
| Fitting.CorrectRateRandom | modeling/fitting.py:157-167 | ZeroDivisionError exactly when there are no answers |
| Fitting.SquaresBound | modeling/fitting.py:165-167 | Σa² ≤ (Σa)², with equality iff one count holds everything |
| Fitting.RateBounds | modeling/fitting.py:165-167 | the rate lies in (0, 1] and is 1 iff one answer carries all counts |
| Fitting.TallyRate | modeling/fitting.py:157-167 | for a participant the rate is 1 iff they always gave the same answer |
| Translation.ToMap | analysis/utilities.py:40-54 | the keys of a dictionary literal are exactly its items' keys |
| Translation.Invert | analysis/utilities.py:56-59 | the keys of the inverted table are exactly the printed values |
| Translation.InvertUndoes | analysis/utilities.py:56-59 | for a table with distinct keys and values, the inverse undoes it on every key |
| Translation.IdentityTable | analysis/utilities.py:56 | a table printing each value as its key reads each key back as itself |
| Translation.MirrorSelfInverse | analysis/utilities.py:42-47 | a table following a self-inverse month/day-preserving permutation is its own inverse and maps months to months |
| Translation.TranslateAnswer | analysis/utilities.py:62-73 | `str(c0) + ", " + str(c1)` with `c` the answer through the scenario key then the config key; KeyError for a missing component, IndexError for fewer than two (same code at utilities.py:251-262) |
| Translation.Show | analysis/utilities.py:73 | `str()` of a table value, a word as itself and a day as its digits; `Translation.Invert` and `Translation.InvertUndoes` state the tables read back through it |
| Translation.TranslateOrKeep | analysis/analysis.py:216-219 | a KeyError falls back on the given answer; an IndexError propagates; otherwise the translation |
| Translation.BirthdayWordsDistinct | analysis/utilities.py:40-41 | the ten keys are distinct |
| Translation.WordTable | analysis/utilities.py:49-59 | a table of ten distinct words is one to one |
| Translation.DrinkWordsDistinct | analysis/utilities.py:49-50 | the drink words are ten and distinct |
| Translation.ToyWordsDistinct | analysis/utilities.py:51-52 | the toy words are ten and distinct |
| Translation.HairWordsDistinct | analysis/utilities.py:53-54 | the hair words are ten and distinct |
| Translation.DayShows | analysis/utilities.py:40-41 | `str` of the day numbers 14..18 gives the day keys |
| Translation.OriginalMirror | analysis/utilities.py:40-41 | `birthday_original` follows the identity permutation |
| Translation.NewMonthMirror | analysis/utilities.py:42-43 | `birthday_new_month` reverses the months, keeps the days |
| Translation.NewDayMirror | analysis/utilities.py:44-45 | `birthday_new_day` reverses the days, keeps the months |
| Translation.NewMonthDayMirror | analysis/utilities.py:46-47 | `birthday_new_month_day` reverses both |
| Translation.MirrorTables | analysis/utilities.py:40-47 | each mirror table follows its self-inverse permutation |
| Translation.MirrorShows | analysis/utilities.py:42-47 | such a table has distinct keys and prints each value as the key at the mirrored position |
| Translation.OriginalShows | analysis/utilities.py:56 | `birthday_to_bday` is the identity on its ten keys |
| Translation.MirrorTableSelfInverse | analysis/utilities.py:42-47 | every mirror table maps months to months and days to days and is self-inverse when days are compared as strings |
| Translation.ScenarioTableBijective | analysis/utilities.py:49-59 | every scenario table renames the ten birthday words to ten distinct words |
| Translation.ScenarioKeyUndoes | analysis/utilities.py:56-59 | `X_to_bday[X[k]] == k` for every key |
| Translation.TranslatePair | analysis/utilities.py:70-73 | a two-word answer is translated word by word |
| Translation.TranslateThrough | analysis/utilities.py:70-73 | an answer of two renamed words reads through the config the two keys it renames |
| Translation.TranslateRoundTrip | analysis/utilities.py:62-73 | translating a scenario answer with the identity mirror gives back the birthday it renames |
| Validation.AgeValidity | utilities.py:40-52 | 1 iff `int(age)` succeeds with a value in [15, 80], else 0; a parse failure is 0, not an exception (same code at interface/utilities.py:7-19) |
| Validation.AgeOfNumber | utilities.py:46-52 | a printed integer is accepted exactly within [15, 80] |
| Validation.AgeNeedsDigit | utilities.py:50-51 | a string without a digit is rejected |
| Validation.Recognize | utilities.py:63-64 | the first-'@', first-dot matcher decides exactly the anchored pattern's language |
| Validation.EmailValidity | utilities.py:55-64 | `re.match` with `$`: the pattern matches the whole string, or all but a final newline (same code at interface/utilities.py:22-31) |
| Validation.EmailShape | utilities.py:63-64 | an accepted address has exactly one '@', a non-empty `[A-Za-z0-9_.+-]` run before it, then a non-empty `[A-Za-z0-9-]` run, '.', and a non-empty `[A-Za-z0-9-.]` run |
| Validation.MatchOneAt | utilities.py:63 | a match has exactly one '@' |
| Shuffling.Zip | utilities.py:164 | `zip` is as long as the shorter list and pairs equal positions |
| Shuffling.Firsts | utilities.py:169 | `zip(*pairs)`'s first list |
| Shuffling.Seconds | utilities.py:169 | `zip(*pairs)`'s second list |
| Shuffling.Compose | utilities.py:167-168 | reshuffling a shuffled list is one shuffle of the original |
| Shuffling.SinglePerm | interface/utilities.py:131-136 | the only reordering of one pair leaves it in place |
| Shuffling.ShuffleTwoLists | interface/utilities.py:109-136 | on return the pairs are a reordering of the zipped pairs with none in its old place, partners together; empty input has no pairs to unpack, represented as two empty lists, which the caller turns into ValueError; a single pair never terminates (same code at utilities.py:142-169) |
| Shuffling.UnzipShuffles | utilities.py:169 | unzipping a reordering of pairs reorders each list the same way |
| Shuffling.ShufflesTrans | utilities.py:183-185 | a reordering of a reordering is a reordering |
| Shuffling.GetShuffledList | utilities.py:172-188 | 2n scenarios and 2n levels, each half a reordering of the inputs, both halves deranged; ValueError on empty input (same code at interface/utilities.py:139-155) |
| Shuffling.ComputeReward | utilities.py:126-139 | IndexError on no answers; otherwise the chosen puzzle's index and 7.5 or 10.0, 10.0 iff its given answer equals its correct one (same code at interface/utilities.py:93-106) |
| Screens.MinutesToMs | puzzle.py:10-16 | `m · 60000`, of the same sign as `m` |
| Screens.MsToMinutes | puzzle.py:19-25 | the quotient by 60000 truncated toward zero |
| Screens.MinutesRoundTrip | puzzle.py:10-25 | minutes → milliseconds → minutes is the identity |
| Screens.WarningSchedule | puzzle.py:28-33 | 0 < first warning < second warning < time out, announcing 15 and 5 minutes left |
| Screens.Record | puzzle.py:167-170 | the remaining time is appended only if absent, so the list never repeats |
| Screens.RecordAllOnce | puzzle.py:161-175 | however often requested, each warning is recorded exactly once |
| Screens.WarningLog.constructor | puzzle.py:34 | the log starts empty |
| Screens.WarningLog.ShowWarning | puzzle.py:161-175 | a message "You have N minutes left" exactly when N was not shown before; the log is updated by `Record` |
| Screens.PuzzleNumber | puzzle.py:83-92 | the p-beauty slot iff `count + 1 == no_puzzles // 2 + 1`; later slots display `count` |
| Screens.NumberingBijective | puzzle.py:84-92 | over the session one slot is the game and the puzzles are numbered 1..no_puzzles, increasing, each once |
| Screens.DialogueLinesJoin | puzzle.py:55-57 | the dialogue lines each after a newline are the lines joined by newlines |
| Screens.InstructionDialogue | puzzle.py:48-60 | the text is part0, the option lines, "\n" + part1, the dialogue with every "; " a line break, part2 |
| Screens.FormatInstructionText | puzzle.py:37-60 | IndexError iff the file splits into fewer than three parts, else the instruction text |
| Screens.InstructionText | puzzle.py:37-60 | the instruction text; `Screens.FormatInstructionText` proves the loops build it and `Screens.InstructionDialogue` states its parts |
| Screens.OptionEntriesShape | puzzle.py:130 | one "month, day" entry per listed day |
| Screens.OptionEntries | puzzle.py:130 | the "month, day" entries of the answer menu; `Screens.OptionEntriesShape` states one entry per listed day |
| Screens.AnswerMenu | puzzle.py:130-132 | Σ\|days\| + 2 entries: a reordering of the option entries, then "No solution" and "Multiple solutions", none of the entries a verdict |

## Findings

| source | as written | input that shows it | evidently intended | confidence | as-written member | corrected member |
|---|---|---|---|---|---|---|
| modeling/formula.py:62 | `KNOW.__init__(self, formula, agent)` raises TypeError when its first argument is not a formula, but every announcement passes the agent's name first | `KNOW("Be", PropositionalAtom("b"))` at modeling/puzzle_formalism.py:39 | the agent first and the formula second, as the call sites write it | high; not executed | Formulas.KnowDeclared, Formulas.DeclaredOrderRejectsAnnouncements | Puzzles.AnnouncementLevels |

## Left out

- Graphical interface and experiment flow. This covers the widgets and timers of `PuzzleApp`, `interface/background_form.py`, `interface/practice_trials.py`, `interface/window.py` and `interface/quickstart.py`. It is event handling; only the logic listed above is modelled.
- pandas and CSV input and output, plotting, `compute_mean_dict` (a NaN-aware mean), `combine_csvs_by_title`, `write_to_txt`, `write_all_to_txt`, `generate_puzzle_list` and `get_level_and_scen`. They are file I/O and display.
- `generate_all_predictions` and `generate_log_likelihoods` beyond the strategy loop. `fitting.py` calls `run_model_once(graph, model_level=..., cutting_direction=...)`, which the shown `run_model_once` does not accept. The depth-cutting transform is not part of this model. The solver run is therefore a parameter `run` of `Fitting.TrialPredictions`.
- `test_participant_no_validity`, because it reads a CSV file.
- `draw_model` and the edge and node display attributes (colours, positions, player names). These are display only. Only the IndexError from running out of colours is modelled.
- `modeling/random_model.py` and `modeling/main.py`: library randomness and a driver script.
- The debug counter `UPDATE_COUNT`.
- Shuffling.ShuffleTwoLists: the iterator `zip(*pairs)` is represented by its two unpacked lists. For empty input Python's `zip()` yields nothing to unpack; the model returns two empty lists, and `Shuffling.GetShuffledList` raises the caller's ValueError.
- Uncertainty.VisibleEqualIffSameView: the concatenated `str()` of the visible one-element tuples is represented as the sequence of visible parts. For a fixed visibility row the two comparisons agree, because each tuple's text ends at its first `)`.
- `Engine.Process`: `None` returned by `process_announcement` for a binary or other unary operator is modelled as false. Likewise the `None` values that `update_model` stores in `curr_states`. Only their truth value is ever read.
- Formulas.KnowDeclared: an agent that is not a string is outside the model. Python would store it, but the declared-order model requires a string agent once the first argument is a formula.
- Announcements are built in the call-site order `KNOW(agent, formula)`, which is what the code evidently intends (see Findings).
- Iteration order of Python sets is not modelled. `get_accessible_worlds` returns a set; the model lists each accessible world once in order of first occurrence. The graph's pairs are a set. The graph's node list keeps insertion order.
- A failing `process_announcement` raises part-way through its dictionary writes. The model does not describe the dictionary after such a failure.
- Python floats are exact reals. `math.log` is kept symbolic as `coeff * ln(arg)`, and its domain error is modelled by checking every argument.
- Screens.MsToMinutes: Python's `/` is float division, which rounds for very large millisecond counts; the model divides exactly.
- Text.ParseInt: Python's `int()` also accepts non-ASCII digits and Unicode white space; the model accepts ASCII digits, ASCII white space, one sign and single underscores between digits.
- `eval` of the scenario name and of the translation key are modelled as the `Scenario` and `MirrorKey` choices.
- `format_instruction_text` reads `text/<scenario>.txt`; the model receives the file's contents. The question bank's option lists are taken as their printed strings.
- Randomness is a parameter: `random.shuffle`'s draws for `ShuffleTwoLists`, `GetShuffledList` and `AnswerMenu`, and `random.choice`'s position for `ComputeReward`. Shuffling.ShuffleTwoLists and Shuffling.GetShuffledList return `None` when the given draws run out before the loop stops. This is how a single pair, which never terminates in Python, shows up in the model.
- `Solvers.Solver.Init` and `Epistemic.EpistemicModel.Init` are the constructors' field set-up. The Python constructors' work, which may raise, is modelled by the static `New` methods returning a Result.
