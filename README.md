# CBC design engine, modelled in Dafny

This project models the core of a choice-based conjoint (CBC) design server. A caller
describes a design grid: attributes, each with a list of levels. The engine then does the
following:

- validates the grid;
- builds a design, a list of choice tasks (screens) whose options map each attribute name to
  one level name, with one of four generators:
  - a random one;
  - a balanced-overlap rotation;
  - an orthogonal bit-toggle that falls back to the rotation;
  - a D-optimal simulated-annealing search over a dummy-coded design matrix;
- scores the design by level balance or D-efficiency;
- checks it against prohibited and required option combinations;
- sizes the study: the product of the level counts, the parameter count, binary searches for
  respondents, screens and options, and a respondent heuristic.

Around the engine sit the request handlers for generation and parameter optimisation, the
server's JSON-RPC error objects, a performance limiter that checks request sizes against
configured limits, and the sanitiser that masks request parameters before they are logged.

One module per source file:

- `Designs` (data model)
- `Validation`
- `RandomDesign`
- `Balanced`
- `Orthogonal`
- `DesignMatrix` and `DOptimal` (both from `doptimal.py`)
- `Metrics`
- `Constraints`
- `Stats`
- `RespondentOptimization`
- `Generation`
- `Optimization`
- `Errors`
- `Performance`
- `Logging`

`Wrappers`, `Seqs`, `Text`, `Arith` and `JsonValues` are small helper modules: `Result` and
`Optional`, distinct sequences, decimal text and ASCII lower-casing, modular arithmetic, and
JSON values.

Where the code works step by step, the model is imperative:

- generators append tasks and options in loops;
- the design matrix is an `array2<int>` filled in place;
- counts are accumulated in maps;
- the binary searches update `low`/`high`/`best`.

Each such method is proved against a function or predicate on values. Properties across calls
are lemmas about those functions. Python's `random` module becomes a nondeterministic choice
of an index below the list length (and of a real in `[0, 1)` for the annealing acceptance
test). Floating-point operations become function-valued parameters that the model never
interprets: `np.linalg.det`, `math.log`, `math.exp`, `**`, `math.erf`, `math.sqrt`,
`math.tanh`, and `:.1f`/`:.3f`/`repr` formatting.

Three places where the code behaves in a way its callers may not expect; the model follows the code:

- The respondent heuristic uses 7.5 observations per parameter, clamped to [30, 1000], or
  [20, 1000] for small designs with at least 10 observations per respondent. It has no other
  formula, buffer or floor.
- Without `num_respondents`, the generation handler calls the respondent heuristic with a
  keyword argument the heuristic does not declare. Python then raises `TypeError`, so that path
  is an error outcome (`Generation.UnexpectedKeyword`).
- Validation does not check attribute names for duplicates. The generators treat attributes
  that share a name as Python's dicts do: the last one wins, and the balanced cursor advances
  once per occurrence. The closed forms for distinct names are proved under `DistinctNames`.

## Model

| member | source | states |
|---|---|---|
| Validation.ValidateAttributes | src/conjoint_mcp/utils/validation.py:14-19 | Ok iff every attribute has a level and distinct level names; an error is the message of the FIRST failing attribute, and every attribute before it passes |
| Validation.ValidateGrid | src/conjoint_mcp/utils/validation.py:6-19 | Ok iff the grid is valid; an empty attribute list gives "Design grid must include at least one attribute"; otherwise the first failing attribute's message ("must include at least one level" or "Duplicate level names in attribute") |
| Validation.ValidGridHasLevels | src/conjoint_mcp/utils/validation.py:12-19 | a grid the validator accepts gives every attribute a level, which the generators' draws and moduli need |
| Validation.DuplicateAttributeNamesAccepted | src/conjoint_mcp/utils/validation.py:14-19 | two attributes with the same name pass validation: names are not checked |
| Validation.DuplicateLevelRejected | src/conjoint_mcp/utils/validation.py:17-19 | a repeated level name is rejected with "Duplicate level names in attribute 'Price'" |
| RandomDesign.Choices | src/conjoint_mcp/algorithms/random.py:17 | one entry per level, in order, each tagged with the attribute name and that level's name |
| RandomDesign.EnumerateAttributeLevels | src/conjoint_mcp/algorithms/random.py:9-19 | one list per attribute, in grid order, equal to that attribute's tagged levels |
| RandomDesign.DrawOption | src/conjoint_mcp/algorithms/random.py:43-46 | fails (empty choice) iff some attribute has no levels; otherwise the option names every attribute with a level of the last attribute of that name |
| RandomDesign.GenerateRandomDesign | src/conjoint_mcp/algorithms/random.py:22-49 | fails iff a draw is made from an attribute without levels; otherwise num_screens tasks indexed 1..n, each with options_per_screen options of declared levels |
| Balanced.RotIndex | src/conjoint_mcp/algorithms/balanced.py:31 | the rotated level index lies in [0, L) |
| Balanced.BuildOption | src/conjoint_mcp/algorithms/balanced.py:28-33 | fails with Python's modulo-by-zero iff some name's level list is empty; otherwise equals the option whose every attribute takes level (cursor + k + t) mod L |
| Balanced.RotatedOption | src/conjoint_mcp/algorithms/balanced.py:29-32 | every option built by rotation names each attribute once with a declared level |
| Balanced.AdvanceCycles | src/conjoint_mcp/algorithms/balanced.py:35-37 | fails iff a level list is empty; otherwise the cursors after each attribute's advance by options_per_screen mod L |
| Balanced.BuildTask | src/conjoint_mcp/algorithms/balanced.py:25-38 | one screen: task index t + 1, options_per_screen options, each the rotated option of the cursors at its start |
| Balanced.GenerateBalancedOverlapDesign | src/conjoint_mcp/algorithms/balanced.py:12-39 | fails iff a screen is built over an empty level list; otherwise returns exactly the rotation design of n screens |
| Balanced.CursorAtClosed | src/conjoint_mcp/algorithms/balanced.py:21-37 | the cursor of a name at the start of screen t is (t * count * o) mod L, where count is the number of attributes with that name, and stays in [0, L) |
| Balanced.CursorAtDistinct | src/conjoint_mcp/algorithms/balanced.py:21-37 | with distinct attribute names, every cursor at the start of screen t is (t * options_per_screen) mod L |
| Balanced.BalancedOptionDistinct | src/conjoint_mcp/algorithms/balanced.py:29-32 | with distinct names, option k of screen t gives attribute j level ((t*o mod L) + k + t) mod L |
| Balanced.BalancedDesignShape | src/conjoint_mcp/algorithms/balanced.py:24-39 | the design has n tasks indexed 1..n, o options each, every option naming each attribute with a declared level |
| Balanced.BalancedNoRepeatWithinScreen | src/conjoint_mcp/algorithms/balanced.py:27-32 | with distinct level names, two options of a screen less than L apart never share that attribute's level |
| Balanced.RotatedNoRepeat | src/conjoint_mcp/algorithms/balanced.py:31-32 | for any cursors, two shifts less than L apart read different levels of an attribute with distinct level names |
| Orthogonal.ToggleIndex | src/conjoint_mcp/algorithms/orthogonal.py:30 | the toggled level index is 0 or 1 |
| Orthogonal.GenerateOrthogonalArrayDesign | src/conjoint_mcp/algorithms/orthogonal.py:8-34 | when every attribute has two levels the result is the toggle design; otherwise it is exactly the balanced generator's result, failure included |
| Orthogonal.BuildToggleOptions | src/conjoint_mcp/algorithms/orthogonal.py:26-32 | the options of screen t are the toggle options 0..o-1 |
| Orthogonal.BuildToggleOption | src/conjoint_mcp/algorithms/orthogonal.py:28-31 | the option written attribute by attribute equals the toggle option |
| Orthogonal.OrthogonalOptionKept | src/conjoint_mcp/algorithms/orthogonal.py:29-31 | every toggle option names each attribute with a level of the last attribute of that name |
| Orthogonal.OrthogonalDesignShape | src/conjoint_mcp/algorithms/orthogonal.py:24-34 | the two-level design has n tasks indexed 1..n with o options each, all of declared levels |
| Orthogonal.OrthogonalOptionDistinct | src/conjoint_mcp/algorithms/orthogonal.py:29-31 | with distinct names, attribute a of option k on screen t takes levels[(t + k + a) mod 2] |
| Orthogonal.OrthogonalShift | src/conjoint_mcp/algorithms/orthogonal.py:30 | option k of screen t + 1 equals option k + 1 of screen t |
| Orthogonal.OrthogonalAdjacentDiffer | src/conjoint_mcp/algorithms/orthogonal.py:30 | adjacent options of a screen differ in every attribute whose levels are distinct |
| Orthogonal.EmptyGridOptions | src/conjoint_mcp/algorithms/orthogonal.py:16-32 | an empty grid takes the two-level branch and every option is empty |
| DesignMatrix.Tail | src/conjoint_mcp/algorithms/doptimal.py:38 | the non-reference levels are the levels after the first, one fewer than the levels |
| DesignMatrix.TailColumns | src/conjoint_mcp/algorithms/doptimal.py:37-40 | each non-reference level gets a column in [start, start + count) |
| DesignMatrix.TailColumnsKeys | src/conjoint_mcp/algorithms/doptimal.py:38-39 | a level name has a column iff it is among the non-reference levels |
| DesignMatrix.ColumnMap | src/conjoint_mcp/algorithms/doptimal.py:34-40 | the mapping has exactly the attribute names as keys, and every column lies below the number of columns handed out |
| DesignMatrix.ColumnMapLast | src/conjoint_mcp/algorithms/doptimal.py:36-37 | an attribute name repeated in the grid maps to the columns built for its last occurrence |
| DesignMatrix.ColumnMapAt | src/conjoint_mcp/algorithms/doptimal.py:34-40 | with distinct names and levels, level i >= 1 of attribute a owns column sum(levels-1 before a) + i - 1, and the reference level owns none |
| DesignMatrix.ColumnsSeparate | src/conjoint_mcp/algorithms/doptimal.py:34-40 | no two (attribute, non-reference level) pairs share a column |
| DesignMatrix.UsedColumnsIsParameterCount | src/conjoint_mcp/algorithms/doptimal.py:28-40 | the columns handed out number exactly sum(levels - 1), the matrix width |
| DesignMatrix.MatrixRows | src/conjoint_mcp/algorithms/doptimal.py:12-51 | the matrix, when it exists, has one row per option of the design and sum(levels - 1) columns |
| DesignMatrix.MatrixRowsShape | src/conjoint_mcp/algorithms/doptimal.py:25-31 | for a grid whose attributes all have levels the matrix exists, with that shape |
| DesignMatrix.MatrixRowsAt | src/conjoint_mcp/algorithms/doptimal.py:43-49 | every entry is 0 or 1, and entry (r, c) is 1 iff c is the column of some known attribute/level pair of option r (unknown pairs are ignored) |
| DesignMatrix.RowAtLevel | src/conjoint_mcp/algorithms/doptimal.py:34-49 | with distinct names and levels, an option's row has a 1 in the column of level i >= 1 of attribute a iff the option picks that level |
| DesignMatrix.BuildLevelColumns | src/conjoint_mcp/algorithms/doptimal.py:38-40 | the inner numbering loop builds the level-to-column map and advances the counter by the number of non-reference levels |
| DesignMatrix.BuildColumnMap | src/conjoint_mcp/algorithms/doptimal.py:34-40 | the numbering loop builds exactly the column mapping |
| DesignMatrix.FillRow | src/conjoint_mcp/algorithms/doptimal.py:46-48 | succeeds iff no known pair's column is out of bounds; then sets 1 exactly at the option's columns and leaves every other cell as it was |
| DesignMatrix.FillTask | src/conjoint_mcp/algorithms/doptimal.py:45-49 | fills the rows of one task's options with their cells, fails on an out-of-bounds column, and leaves earlier rows untouched |
| DesignMatrix.FillDesign | src/conjoint_mcp/algorithms/doptimal.py:42-49 | succeeds iff no option has an out-of-bounds column; then every row r holds option r's cells |
| DesignMatrix.CreateDesignMatrix | src/conjoint_mcp/algorithms/doptimal.py:12-51 | a fresh array whose rows equal the matrix value, or exactly its error (negative width, column out of bounds) |
| DesignMatrix.Information | src/conjoint_mcp/algorithms/doptimal.py:54-64 | X'X is p by p |
| DesignMatrix.InformationShape | src/conjoint_mcp/algorithms/doptimal.py:54-64 | X'X of the design matrix is symmetric, and its diagonal counts the options that use each column |
| DesignMatrix.BetterOrder | src/conjoint_mcp/algorithms/doptimal.py:198-205 | the `>` on scores (minus infinity below every finite score) is irreflexive, asymmetric and transitive, and its negation is transitive |
| DesignMatrix.DOptimality | src/conjoint_mcp/algorithms/doptimal.py:67-85 | minus infinity iff the determinant is at most 1e-10, otherwise the log of the determinant |
| DesignMatrix.Clamp01 | src/conjoint_mcp/algorithms/doptimal.py:259 | the result lies in [0, 1] and leaves values already in [0, 1] unchanged |
| DesignMatrix.DEfficiency | src/conjoint_mcp/algorithms/doptimal.py:234-259 | within [0, 1]; 0.0 when the determinant is at most 1e-10; the only error is the `1/p` division with no parameters, raised exactly when the empty determinant is above 1e-10; no options with a non-singular determinant gives 1.0 (infinity clamped) |
| DesignMatrix.DEfficiencyEdges | src/conjoint_mcp/algorithms/doptimal.py:247-257 | with numpy's determinants (1.0 for the empty matrix, 0.0 for zeros), no parameters always raises at `1/p` and a design with no options scores 0.0 |
| DesignMatrix.CalculateDEfficiency | src/conjoint_mcp/algorithms/doptimal.py:234-259 | computes exactly the D-efficiency value |
| DOptimal.DrawLevels | src/conjoint_mcp/algorithms/doptimal.py:112-115 | fails iff some attribute has no levels; otherwise every attribute gets a level of the last attribute of that name |
| DOptimal.InitialCandidate | src/conjoint_mcp/algorithms/doptimal.py:106-118 | fails iff a draw meets an attribute without levels; otherwise num_screens tasks indexed 1..n with options_per_screen options of declared levels |
| DOptimal.MutateDesign | src/conjoint_mcp/algorithms/doptimal.py:120-143 | an empty design comes back unchanged; otherwise the result is the input with exactly one (task, option, attribute) cell set to a level of that attribute; it fails only on an empty option list, no attributes or an attribute without levels, and always fails when every task has no options or there are no attributes |
| DOptimal.SetCellFrame | src/conjoint_mcp/algorithms/doptimal.py:121-141 | the mutated copy keeps the task count, task indices and option counts and changes only one cell |
| DOptimal.MutationWellFormed | src/conjoint_mcp/algorithms/doptimal.py:121-141 | mutation preserves the design's shape and well-formedness |
| DOptimal.MutationKeepsLevels | src/conjoint_mcp/algorithms/doptimal.py:137-141 | with distinct names, every option still holds levels of its attributes after a mutation |
| DOptimal.ScoreDesign | src/conjoint_mcp/algorithms/doptimal.py:172-173 | the score of a design, or exactly the error of building its matrix |
| DOptimal.CoolStep | src/conjoint_mcp/algorithms/doptimal.py:221 | one cooling multiplies the temperature after k coolings into the temperature after k + 1 |
| DOptimal.Decide | src/conjoint_mcp/algorithms/doptimal.py:197-218 | improves iff the candidate's score is strictly better; improvements are always accepted; a worse candidate is accepted only at positive temperature with a random draw below the acceptance probability, and rejected only at non-positive temperature or with a draw not below it |
| DOptimal.Propose | src/conjoint_mcp/algorithms/doptimal.py:191-195 | the candidate is a one-cell mutation of the current design (or the empty design), its matrix exists, and its score is the design's score; it fails when the mutation must fail |
| DOptimal.Advance | src/conjoint_mcp/algorithms/doptimal.py:197-221 | the new walk is one `Step`: a better candidate becomes current, resets the counter and becomes best iff it beats the best; a worse one accepted (positive temperature, draw below exp(delta/T)) becomes current with counter and best unchanged; a rejected one leaves current and best and adds one to the counter; the temperature is cooled in every case; the walk invariant is kept |
| DOptimal.Anneal | src/conjoint_mcp/algorithms/doptimal.py:182-231 | the trace is a whole run from the start: walks[0] is the start, each walk is a `Step` from the one before on a candidate drawn for its current design, no walk before the last stopped, at most max_iterations steps and fewer only on a stop; the result is the best of the final walk, a design the run held, scored no worse than any of them; with levels everywhere it fails iff there are screens, iterations, and no options or no attributes |
| DOptimal.GenerateDOptimalDesign | src/conjoint_mcp/algorithms/doptimal.py:146-231 | a well-formed design of the requested shape; the random fallback runs iff num_screens is negative and then gives no tasks; otherwise the trace is a whole annealing run from a well-formed random start and the result is its best design, scored no worse than any design the run held; with levels everywhere it fails iff there are screens, iterations, and no options or no attributes |
| DOptimal.Iterate | src/conjoint_mcp/algorithms/doptimal.py:189-221 | one loop iteration: the candidate is drawn for the current design and the new walk is one `Step` on it; it fails only when the draws fail, and always when there are screens but no options or no attributes |
| DOptimal.ChainedSnoc | src/conjoint_mcp/algorithms/doptimal.py:189-229 | a chain of steps extended by a step from its last walk, which did not stop, is still a chain |
| DOptimal.DrawnSnoc | src/conjoint_mcp/algorithms/doptimal.py:191-195 | the candidates stay drawn for their walks' current designs when one more is appended |
| DOptimal.WalkedSnoc | src/conjoint_mcp/algorithms/doptimal.py:189-229 | one more iteration extends a walk of the loop, and the new walk is its final one |
| DOptimal.WalkTemperature | src/conjoint_mcp/algorithms/doptimal.py:186-221 | the temperature after i steps is the initial temperature times cooling_rate^i |
| DOptimal.StepKeepsBest | src/conjoint_mcp/algorithms/doptimal.py:197-209 | one step never lowers the best score, keeps current no better than best, and either keeps best or makes it the new current design |
| DOptimal.WalkBest | src/conjoint_mcp/algorithms/doptimal.py:182-209 | the best after step j is a design held as current at some step up to j, and no design held up to j scores better |
| DOptimal.AnnealEnd | src/conjoint_mcp/algorithms/doptimal.py:189-231 | a loop that ended within max_iterations, early only on a stop, is a whole run whose best design is scored no worse than any design held |
| Metrics.DesignBagHas | src/conjoint_mcp/utils/metrics.py:17-21 | a key "attr::level" is counted iff some option of some task assigns that level |
| Metrics.CountedKeys | src/conjoint_mcp/utils/metrics.py:17-21 | the counts' keys are exactly the attr::level keys of the design's options |
| Metrics.CountsOf | src/conjoint_mcp/utils/metrics.py:15-21 | each counted key maps to its (positive) number of occurrences |
| Metrics.DesignBagSize | src/conjoint_mcp/utils/metrics.py:16-22 | the total equals the number of option entries |
| Metrics.CountOption | src/conjoint_mcp/utils/metrics.py:19-22 | the innermost loop adds one count per attribute of the option and keeps the total equal to the number of counted keys |
| Metrics.CountTask | src/conjoint_mcp/utils/metrics.py:18-22 | the option loop adds the counts of one task's options |
| Metrics.CountLevels | src/conjoint_mcp/utils/metrics.py:14-22 | counts[attr::level] is the number of options assigning that level, and total is the number of entries |
| Metrics.SumAbsDeviation | src/conjoint_mcp/utils/metrics.py:27 | sums abs(c - avg) over all counts |
| Metrics.ScoreOfCounts | src/conjoint_mcp/utils/metrics.py:23-28 | the score before rounding lies in [0, 1] |
| Metrics.NaiveLevelBalanceScore | src/conjoint_mcp/utils/metrics.py:6-29 | equals the balance score of the tasks, within [0, 1]; 0.0 for no tasks |
| Metrics.CountsAddUpToTotal | src/conjoint_mcp/utils/metrics.py:15-22 | the counts add up to the total |
| Metrics.EqualCountsScoreOne | src/conjoint_mcp/utils/metrics.py:25-28 | when all counted keys occur equally often the score is 1.0 |
| Metrics.NoEntriesScoreZero | src/conjoint_mcp/utils/metrics.py:23-24 | tasks without option entries score 0.0 |
| Constraints.BuildCombinationSet | src/conjoint_mcp/constraints/manager.py:25-41 | the set holds exactly the attribute maps of the combinations (order-independent, duplicates collapsed) |
| Constraints.CombinationSetSize | src/conjoint_mcp/constraints/manager.py:25-41 | the set is no larger than the list |
| Constraints.ConstraintManager.constructor | src/conjoint_mcp/constraints/manager.py:14-23 | keeps the specification and builds both lookup sets from it |
| Constraints.ConstraintManager.IsCombinationValid | src/conjoint_mcp/constraints/manager.py:43-58 | invalid iff the option's whole pair set equals some prohibited entry (extra attributes make it valid); the reason is empty iff valid and names the option otherwise |
| Constraints.TaskViolations | src/conjoint_mcp/constraints/manager.py:72-76 | every violation of a task is tagged with its task index and is a prohibited option of that task |
| Constraints.TaskViolationsMembers | src/conjoint_mcp/constraints/manager.py:72-76 | a violation is reported for a task iff it names a prohibited option of that task under its index |
| Constraints.DesignViolationsMembers | src/conjoint_mcp/constraints/manager.py:72-76 | the design's prohibited-option violations are exactly those of its tasks |
| Constraints.DesignViolationsEmpty | src/conjoint_mcp/constraints/manager.py:72-76 | there are none iff no option of the design is prohibited |
| Constraints.ConstraintManager.CheckTask | src/conjoint_mcp/constraints/manager.py:72-76 | one "Task i" violation per prohibited option occurrence of the task, in order |
| Constraints.CollectCombinations | src/conjoint_mcp/constraints/manager.py:89-93 | collects exactly the set of options occurring in the design |
| Constraints.ReportMissing | src/conjoint_mcp/constraints/manager.py:95-98 | exactly one distinct "Missing required combination" violation per required combination absent from the design |
| Constraints.ConstraintManager.CheckRequiredCombinations | src/conjoint_mcp/constraints/manager.py:84-100 | lists each required combination equal to no option of the design exactly once |
| Constraints.ConstraintManager.ValidateDesign | src/conjoint_mcp/constraints/manager.py:60-82 | the prohibited-option violations in design order, followed by the missing required combinations (none when the required set is empty); valid iff no violation |
| Constraints.FilterValid | src/conjoint_mcp/constraints/manager.py:113-118 | keeps only options of the input that are not prohibited |
| Constraints.FilterValidMembers | src/conjoint_mcp/constraints/manager.py:113-118 | an option is kept iff it is among the input and not prohibited |
| Constraints.ProhibitedSplit | src/conjoint_mcp/constraints/manager.py:113-118 | every option is either filtered out as prohibited or kept |
| Constraints.FilterValidNothingProhibited | src/conjoint_mcp/constraints/manager.py:113-118 | with no prohibitions the filter returns its input |
| Constraints.ConstraintManager.FilterValidOptions | src/conjoint_mcp/constraints/manager.py:102-118 | the order-preserving subsequence of valid options; the grid is not used |
| Constraints.ConstraintManager.ConstraintSummary | src/conjoint_mcp/constraints/manager.py:120-132 | the four counts are the specification's list lengths, never less than the sizes of the lookup sets |
| Stats.CalculateDesignComplexity | src/conjoint_mcp/utils/stats.py:9-23 | the product of the level counts |
| Stats.LevelProductZero | src/conjoint_mcp/utils/stats.py:20-23 | the product is non-negative, and zero iff some attribute has no levels |
| Stats.LevelProductCovers | src/conjoint_mcp/utils/stats.py:20-23 | when every attribute has levels the product is at least each attribute's level count |
| Stats.EstimateParametersCount | src/conjoint_mcp/utils/stats.py:26-44 | total levels minus the number of attributes (no interaction terms), non-negative when every attribute has a level |
| Stats.ZValue | src/conjoint_mcp/utils/stats.py:86 | 1.96, 2.576 or 1.645 |
| Stats.StatisticalPower | src/conjoint_mcp/utils/stats.py:47-92 | in [0, 1], and 0.0 whenever n * t * (o - 1) is at most the parameter count |
| Stats.SearchLeast | src/conjoint_mcp/utils/stats.py:123-137 | the result is in [lo, hi] (hi when the range is empty) and either hi or a value meeting the target; for a monotone target it is the least value meeting it |
| Stats.OptimizeRespondentSize | src/conjoint_mcp/utils/stats.py:95-138 | in [1, max] when max >= 1; max or a respondent count meeting the target power; the least such count when power is non-decreasing |
| Stats.OptimizeScreenCount | src/conjoint_mcp/utils/stats.py:141-184 | the same for screens over [1, max_screens] |
| Stats.OptimizeOptionsPerScreen | src/conjoint_mcp/utils/stats.py:187-230 | the same for options over [2, max_options]; max_options itself when it is below 2 |
| RespondentOptimization.CeilObservations | src/conjoint_mcp/utils/respondent_optimization.py:41-44 | ceil(7.5 * p) as an integer |
| RespondentOptimization.SuggestFor | src/conjoint_mcp/utils/respondent_optimization.py:46-54 | in [20, 1000], at least 30 unless p <= 3 with at least 10 observations per respondent, and equal to ceil(7.5 p) when that lies strictly between 30 and 1000 |
| RespondentOptimization.SuggestOptimalRespondents | src/conjoint_mcp/utils/respondent_optimization.py:9-56 | in [20, 1000], for every grid and screen/option counts; power, effect size and alpha are unused |
| RespondentOptimization.SuggestMonotone | src/conjoint_mcp/utils/respondent_optimization.py:41-54 | for fixed observations per respondent, the suggestion never decreases as the parameter count grows |
| RespondentOptimization.CalculateExpectedPower | src/conjoint_mcp/utils/respondent_optimization.py:59-99 | clamped into [0.01, 0.99]; the `math.sqrt` ValueError exactly when respondents × screens × options is negative and the effect size is not zero |
| RespondentOptimization.SqrtArgumentSign | src/conjoint_mcp/utils/respondent_optimization.py:92-94 | the argument of `math.sqrt` is negative exactly when the observation count is negative and the effect size is not zero |
| Generation.DefaultRequest | src/conjoint_mcp/models/requests.py:56-61 | three options per screen, ten screens, no respondent count and no constraints by default |
| Generation.ParseMethod | src/conjoint_mcp/handlers/generation.py:45-63 | after lower-casing: random; balanced or balanced_overlap; orthogonal or orthogonal_array; doptimal or d-optimal; nothing else |
| Generation.ParseMethodIgnoresCase | src/conjoint_mcp/handlers/generation.py:45 | the method name is matched without regard to (ASCII) case |
| Generation.HandleGenerateDesign | src/conjoint_mcp/handlers/generation.py:26-75 | validation first; a missing respondent count raises; an unknown method raises "Unsupported design method: …"; otherwise the echoed respondent count, no suggestion or notes, a well-formed design of the selected generator, and the balance score (or D-efficiency for D-optimal). For D-optimal the random fallback runs iff num_screens is negative and gives no tasks; otherwise the tasks are the best of a whole annealing run with 100 iterations, temperature 1.0 and cooling 0.95; it fails iff there are screens but no options, or the grid has no parameters and `1/p` is reached |
| Optimization.DefaultRequest | src/conjoint_mcp/handlers/optimization.py:17-32 | the defaults lie within the declared field bounds and fix nothing |
| Optimization.OrDefault | src/conjoint_mcp/handlers/optimization.py:58-60 | `x or d`: a given non-zero value, else the default |
| Optimization.Notes | src/conjoint_mcp/handlers/optimization.py:112-116 | a power warning iff power < target, an observations warning iff parameters > n * t * (o - 1), none otherwise |
| Optimization.JoinNotes | src/conjoint_mcp/handlers/optimization.py:125 | None iff there are no notes |
| Optimization.SettleCounts | src/conjoint_mcp/handlers/optimization.py:57-94 | fixed values are kept; free ones are searched in order (respondents, then screens with those respondents, then options with both), each within its range, the maximum or a count meeting the target power, and the least such count when power is monotone in it |
| Optimization.HandleOptimizeParameters | src/conjoint_mcp/handlers/optimization.py:49-126 | the settled counts with the search guarantees, the parameter count, the product of level counts, the power at the settled counts, and the notes: the power warning iff power < target, then the observations warning iff parameters exceed observations, joined by "; ", absent iff there is none |
| Errors.NewError | src/conjoint_mcp/utils/errors.py:11-23 | message, code (by default -32000) and data stored unchanged |
| Errors.NewValidationError | src/conjoint_mcp/utils/errors.py:31-39 | code -32602 and data {"validation_errors": list or null} |
| Errors.NewMethodNotFoundError | src/conjoint_mcp/utils/errors.py:47-54 | code -32601, message "Method not found: {method}", no data |
| Errors.NewInternalError | src/conjoint_mcp/utils/errors.py:62-70 | code -32603 with the details as data |
| Errors.NewDesignGenerationError | src/conjoint_mcp/utils/errors.py:78-87 | code -32001 in the server-error range, data {"method", "details"} |
| Errors.NewConstraintViolationError | src/conjoint_mcp/utils/errors.py:95-103 | code -32002 in the server-error range, data {"violations": list} |
| Errors.CreateErrorResponse | src/conjoint_mcp/utils/errors.py:106-129 | jsonrpc "2.0", the request id echoed, code and message copied, and a "data" key iff the data is truthy |
| Errors.ValidationErrorHasData | src/conjoint_mcp/utils/errors.py:26-39 | a validation error's response carries data even when its list is absent |
| Errors.MethodNotFoundHasNoData | src/conjoint_mcp/utils/errors.py:42-54 | a method-not-found response carries no data |
| Performance.PerformanceLimiter.constructor | src/conjoint_mcp/utils/performance.py:109-121 | stores the limits; by default 512 MB, 30 s, 2000 respondents, 20 tasks and 5 options |
| Performance.PerformanceLimiter.EstimateMemoryUsage | src/conjoint_mcp/utils/performance.py:183-207 | at least the 50 MB base for non-negative inputs |
| Performance.PerformanceLimiter.EstimateExecutionTime | src/conjoint_mcp/utils/performance.py:209-229 | at least the 1 s base for non-negative inputs |
| Performance.FewerRespondentsCheaper | src/conjoint_mcp/utils/performance.py:183-229 | fewer respondents never raise either estimate |
| Performance.PerformanceLimiter.DetectedIssues | src/conjoint_mcp/utils/performance.py:140-171 | each issue is raised iff its value strictly exceeds its limit; none iff all are within limits |
| Performance.Only | src/conjoint_mcp/utils/performance.py:141-171 | one check contributes its issue iff it fires, and nothing else |
| Performance.AppendIf | src/conjoint_mcp/utils/performance.py:141-171 | appends the issue text together with exactly one recommendation when the check fires |
| Performance.PerformanceLimiter.ValidateDesignParameters | src/conjoint_mcp/utils/performance.py:123-181 | issues and recommendations pairwise render the detected issues (equal lengths); valid iff there are none; the estimates are those of the two estimators |
| Logging.Sanitized | src/conjoint_mcp/utils/logging.py:93-103 | the output has exactly the input's keys |
| Logging.SanitizeParams | src/conjoint_mcp/utils/logging.py:83-103 | the loop builds exactly the sanitised map, recursing into nested maps |
| Logging.SanitizeRedacts | src/conjoint_mcp/utils/logging.py:95-102 | at every depth, sensitive keys are masked as "***" (even over a map) and lists longer than 10 become "[n items]" |
| Logging.RedactedUnchanged | src/conjoint_mcp/utils/logging.py:95-102 | a value with nothing left to mask passes through unchanged |
| Logging.SanitizeIdempotent | src/conjoint_mcp/utils/logging.py:93-103 | sanitising twice is sanitising once |
| Logging.SensitiveIgnoresCase | src/conjoint_mcp/utils/logging.py:95 | a key is sensitive iff its lower-cased form is |

## Left out

- Protocol layers (stdio/HTTP JSON-RPC servers), the export handler, configuration, scripts and
  deployment: I/O and framing around the engine, not part of this model.
- Process monitoring (psutil) in `utils/performance.py` and the log-emitting methods of
  `utils/logging.py`: process introspection and log output.
- Floating-point numerics (`np.linalg.det`, `math.log`, `math.exp`, `**`, `math.erf`,
  `math.sqrt`, `math.tanh`) and float formatting are uninterpreted parameters. Only the guards
  and clamps around them are modelled.
- Python's `random` module: only which draws are possible is modelled, never their
  distribution.
- Metrics.NaiveLevelBalanceScore: computed in exact reals, without the final `round(score, 4)`.
- Performance.PerformanceLimiter.EstimateMemoryUsage: exact real arithmetic, not IEEE doubles;
  the same holds for EstimateExecutionTime.
- Performance.PerformanceLimiter.ValidateDesignParameters: the `:.1f` and float-repr renderings
  in the messages are parameters (`Formats`), not modelled text.
- Optimization.HandleOptimizeParameters: the `:.3f` and repr renderings in the power warning are
  parameters. The request-model bounds are a predicate (`RequestInBounds`) that the handler
  does not rely on.
- Logging.SanitizeParams: a Dafny map has no key order, so the insertion order of the output
  dict is not modelled. Lower-casing is ASCII-only (`Text.Lower`).
- Generation.ParseMethod: ASCII-only lower-casing; Python's Unicode case mapping is not
  modelled.
- Generation.HandleGenerateDesign: the path without `num_respondents` is the `TypeError`
  outcome the code raises. The `constraints` field is ignored, as in the code.
- Constraints.ConstraintManager.IsCombinationValid: the reason and violation texts are
  structured values (`ProhibitedCombination(option)`, `ProhibitedInTask(t, option)`,
  `MissingRequired(c)`). The Python dict repr in the f-strings is not modelled.
- Constraints.ConstraintManager.ValidateDesign: the missing-combination violations follow the
  iteration order of a Python set, which is unspecified. The contract states which violations
  appear, each once, but not their order.
- Level-balance constraints and custom rules of the constraint specification: they are only
  counted (in `ConstraintSummary`), as in the code.
- Stats.StatisticalPower: the normal approximation is an uninterpreted parameter; the search
  minimality lemmas assume monotonicity of the power in the searched variable.
- Stats.StatisticalPower: does not raise the `ValueError` of `math.sqrt` on a negative
  observation count. That needs a negative parameter count, which only an attribute with no
  levels gives; the model passes the negative count to `sqrt` instead.
- DOptimal.GenerateDOptimalDesign: `convergence_threshold` is accepted and unused, as in the
  code.
- DOptimal.Anneal: the random acceptance test is a nondeterministic real in `[0, 1)`;
  `math.exp` of the score difference is a parameter. The loop's list copies share nothing and
  are plain values.
