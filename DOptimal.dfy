/**
 * The D-optimal generator: a random starting design improved by simulated annealing, where a
 * candidate is the current design with one cell redrawn and designs are compared by the
 * D-optimality of their dummy-coded matrix. Random draws are arbitrary choices (`:|`) and the
 * floating-point numerics are the `Numerics` parameter.
 */
module DOptimal {
  import opened Wrappers
  import opened Designs
  import opened DesignMatrix
  import RandomDesign

  /** The messages `random.choice` and `random.randint` raise on empty ranges. */
  const EmptyChoice := "IndexError: Cannot choose from an empty sequence"
  const EmptyRange := "ValueError: empty range for randrange()"

  /** The annealing constants of `generate_doptimal_design`. */
  const MaxNoImprovement := 50
  const MinTemperature: real := 0.0000000001

  /** One option of the starting design: a level drawn for each attribute in grid order. */
  method DrawLevels(attrs: seq<Attribute>) returns (r: Result<Option>)
    ensures r.Err? <==> !HasLevels(attrs)
    ensures r.Err? ==> r.error == EmptyChoice
    ensures r.Ok? ==> KeptLevels(attrs, r.value)
  {
    var option: Option := map[];
    for j := 0 to |attrs|
      invariant KeptLevels(attrs[..j], option)
      invariant HasLevels(attrs[..j])
    {
      var attr := attrs[j];
      if |attr.levels| == 0 {
        assert attrs[j] in attrs;
        return Err(EmptyChoice);
      }
      var l :| 0 <= l < |attr.levels|;
      assert LevelNames(attr)[l] == attr.levels[l].name;
      KeptLevelsStep(attrs, j, option, attr.levels[l].name);
      HasLevelsStep(attrs, j);
      option := option[attr.name := attr.levels[l].name];
    }
    assert attrs[..|attrs|] == attrs;
    return Ok(option);
  }

  /** `_generate_candidate_design` without a current design: a fresh random design. */
  method InitialCandidate(attrs: seq<Attribute>, numScreens: int, optionsPerScreen: int) returns (r: Result<Design>)
    ensures r.Err? <==> Count(numScreens) > 0 && Count(optionsPerScreen) > 0 && !HasLevels(attrs)
    ensures r.Err? ==> r.error == EmptyChoice
    ensures r.Ok? ==> WellFormed(attrs, r.value, Count(optionsPerScreen), Count(numScreens)) && AllKept(attrs, r.value)
  {
    var design: Design := [];
    for taskIdx := 0 to Count(numScreens)
      invariant WellFormed(attrs, design, Count(optionsPerScreen), taskIdx) && AllKept(attrs, design)
      invariant taskIdx > 0 && Count(optionsPerScreen) > 0 ==> HasLevels(attrs)
    {
      var options: seq<Option> := [];
      for k := 0 to Count(optionsPerScreen)
        invariant |options| == k
        invariant forall option | option in options :: KeptLevels(attrs, option) && OptionOk(attrs, option)
        invariant k > 0 ==> HasLevels(attrs)
      {
        var option := DrawLevels(attrs);
        if option.Err? {
          return Err(option.error);
        }
        KeptLevelsOk(attrs, option.value);
        options := options + [option.value];
      }
      design := design + [ChoiceTask(taskIdx + 1, options)];
    }
    return Ok(design);
  }

  /** The design with one cell, option `k` of task `t` at attribute `name`, set to `level`. */
  function SetCell(d: Design, t: nat, k: nat, name: string, level: string): Design
    requires t < |d| && k < |d[t].options|
  {
    d[t := ChoiceTask(d[t].taskIndex, d[t].options[k := d[t].options[k][name := level]])]
  }

  /** The draws of one mutation: task `t`, option `k`, attribute `a` and level `l` of that attribute. */
  datatype Cell = Cell(t: nat, k: nat, a: nat, l: nat)

  /** `d'` is `d` with the cell drawn as `cell` set to the drawn level. */
  predicate MutationAt(attrs: seq<Attribute>, d: Design, cell: Cell, d': Design) {
    && cell.t < |d| && cell.k < |d[cell.t].options| && cell.a < |attrs| && cell.l < |attrs[cell.a].levels|
    && d' == SetCell(d, cell.t, cell.k, attrs[cell.a].name, attrs[cell.a].levels[cell.l].name)
  }

  /** `d'` is `d` with one cell redrawn: some option's attribute set to one of that attribute's levels. */
  ghost predicate MutationOf(attrs: seq<Attribute>, d: Design, d': Design) {
    exists cell :: MutationAt(attrs, d, cell, d')
  }

  /**
   * `_generate_candidate_design` with a current design: a copy with one random cell redrawn.
   * An empty design comes back as it is; the draws fail on an empty option list, an empty
   * attribute list or an attribute without levels.
   */
  method MutateDesign(attrs: seq<Attribute>, current: Design) returns (r: Result<Design>)
    ensures current == [] ==> r == Ok([])
    ensures r.Ok? && current != [] ==> MutationOf(attrs, current, r.value)
    ensures r.Err? ==> current != [] && ((exists t | 0 <= t < |current| :: current[t].options == []) || !HasLevels(attrs) || attrs == [])
    ensures r.Err? ==> r.error == EmptyRange || r.error == EmptyChoice
    ensures current != [] && (forall t | 0 <= t < |current| :: current[t].options != []) && HasLevels(attrs) && attrs != []
            ==> r.Ok?
    ensures current != [] && ((forall t | 0 <= t < |current| :: current[t].options == []) || attrs == []) ==> r.Err?
  {
    var design := current;
    if design == [] {
      return Ok(design);
    }
    var t :| 0 <= t < |design|;
    if |design[t].options| == 0 {
      return Err(EmptyRange);
    }
    var k :| 0 <= k < |design[t].options|;
    if |attrs| == 0 {
      return Err(EmptyChoice);
    }
    var a :| 0 <= a < |attrs|;
    if |attrs[a].levels| == 0 {
      assert attrs[a] in attrs;
      return Err(EmptyChoice);
    }
    var l :| 0 <= l < |attrs[a].levels|;
    design := SetCell(design, t, k, attrs[a].name, attrs[a].levels[l].name);
    assert MutationAt(attrs, current, Cell(t, k, a, l), design);
    return Ok(design);
  }

  /** Setting one cell keeps every task index, every length and every other cell. */
  lemma {:induction false} SetCellFrame(d: Design, t: nat, k: nat, name: string, level: string)
    requires t < |d| && k < |d[t].options|
    ensures var d' := SetCell(d, t, k, name, level);
      && |d'| == |d|
      && (forall i | 0 <= i < |d| :: d'[i].taskIndex == d[i].taskIndex && |d'[i].options| == |d[i].options|)
      && (forall i, j | 0 <= i < |d| && 0 <= j < |d[i].options| && (i, j) != (t, k) :: d'[i].options[j] == d[i].options[j])
      && d'[t].options[k] == d[t].options[k][name := level]
  {
  }

  /** An option of a mutated screen is the written option or an option the screen had before. */
  lemma {:induction false} SetCellMembers(d: Design, t: nat, k: nat, name: string, level: string, i: nat, option: Option)
    requires t < |d| && k < |d[t].options| && i < |d|
    requires option in SetCell(d, t, k, name, level)[i].options
    ensures option == d[t].options[k][name := level] || option in d[i].options
  {
    var options' := SetCell(d, t, k, name, level)[i].options;
    var j :| 0 <= j < |options'| && options'[j] == option;
    if (i, j) != (t, k) {
      assert options'[j] == d[i].options[j];
    }
  }

  /** A mutation keeps a well-formed design well-formed: the cell it writes already exists and gets a declared level. */
  lemma {:induction false} MutationWellFormed(attrs: seq<Attribute>, d: Design, d': Design, o: nat, n: nat)
    requires WellFormed(attrs, d, o, n) && MutationOf(attrs, d, d')
    ensures WellFormed(attrs, d', o, n)
  {
    var cell :| MutationAt(attrs, d, cell, d');
    var t, k, a, l := cell.t, cell.k, cell.a, cell.l;
    SetCellWellFormed(attrs, d, t, k, a, l, o, n);
  }

  lemma {:induction false} SetCellWellFormed(attrs: seq<Attribute>, d: Design, t: nat, k: nat, a: nat, l: nat, o: nat, n: nat)
    requires WellFormed(attrs, d, o, n)
    requires t < |d| && k < |d[t].options| && a < |attrs| && l < |attrs[a].levels|
    ensures WellFormed(attrs, SetCell(d, t, k, attrs[a].name, attrs[a].levels[l].name), o, n)
  {
    var name, level := attrs[a].name, attrs[a].levels[l].name;
    var d' := SetCell(d, t, k, name, level);
    SetCellFrame(d, t, k, name, level);
    assert d[t].options[k] in d[t].options;
    NameIn(attrs, a);
    assert attrs[a] in attrs && level in LevelNames(attrs[a]);
    OptionOkUpdate(attrs, d[t].options[k], name, level);
    forall i, option' | 0 <= i < |d'| && option' in d'[i].options
      ensures OptionOk(attrs, option')
    {
      SetCellMembers(d, t, k, name, level, i, option');
    }
  }

  lemma {:induction false} OptionOkUpdate(attrs: seq<Attribute>, option: Option, n: string, v: string)
    requires OptionOk(attrs, option) && n in option && DeclaredLevel(attrs, n, v)
    ensures OptionOk(attrs, option[n := v])
  {
  }

  /**
   * With distinct attribute names a mutation also keeps every value a level of its own
   * attribute; with a repeated name it may write a level of the earlier attribute.
   */
  lemma {:induction false} MutationKeepsLevels(attrs: seq<Attribute>, d: Design, d': Design)
    requires DistinctNames(attrs) && AllKept(attrs, d) && MutationOf(attrs, d, d')
    ensures AllKept(attrs, d')
  {
    var cell :| MutationAt(attrs, d, cell, d');
    var t, k, a, l := cell.t, cell.k, cell.a, cell.l;
    var name, level := attrs[a].name, attrs[a].levels[l].name;
    LastPositionDistinct(attrs, a);
    LevelsByNameAt(attrs, name);
    NameIn(attrs, a);
    assert d[t].options[k] in d[t].options;
    assert LevelNames(attrs[a])[l] == level;
    KeptLevelsUpdate(attrs, d[t].options[k], name, level);
    forall i, option' | 0 <= i < |d'| && option' in d'[i].options
      ensures KeptLevels(attrs, option')
    {
      SetCellMembers(d, t, k, name, level, i, option');
    }
  }

  lemma {:induction false} KeptLevelsUpdate(attrs: seq<Attribute>, option: Option, n: string, v: string)
    requires KeptLevels(attrs, option) && n in option && v in LevelsByName(attrs)[n]
    ensures KeptLevels(attrs, option[n := v])
  {
  }

  /** The D-optimality of a design whose matrix exists. */
  ghost function ScoreOf(attrs: seq<Attribute>, d: Design, num: Numerics): Score
    requires MatrixRows(attrs, d).Ok?
  {
    DOptimality(Information(MatrixRows(attrs, d).value, ParameterCount(attrs)), num)
  }

  /** `_create_design_matrix` followed by `_calculate_d_optimality`. */
  method ScoreDesign(attrs: seq<Attribute>, d: Design, num: Numerics) returns (r: Result<Score>)
    ensures r.Err? <==> MatrixRows(attrs, d).Err?
    ensures r.Err? ==> r.error == MatrixRows(attrs, d).error
    ensures r.Ok? ==> r.value == ScoreOf(attrs, d, num)
  {
    var x := CreateDesignMatrix(d, attrs);
    if x.Err? {
      return Err(x.error);
    }
    return Ok(DOptimality(Information(Rows(x.value), x.value.Length1), num));
  }

  /**
   * Whether the uniform draw `u` accepts a candidate that is no better than the current
   * design: u < exp((candidate - current) / temperature). A minus-infinity candidate gives
   * exp(-inf) = 0 and a minus-infinity current design gives NaN; neither accepts.
   */
  predicate Accepts(u: real, candidate: Score, current: Score, temperature: real, num: Numerics)
    requires temperature > 0.0
  {
    candidate.Finite? && current.Finite? && u < num.exp((candidate.value - current.value) / temperature)
  }

  function Pow(x: real, k: nat): real {
    if k == 0 then 1.0 else Pow(x, k - 1) * x
  }

  /** The temperature after `k` coolings by factor `c` from `t0`. */
  function Cooled(t0: real, c: real, k: nat): real {
    t0 * Pow(c, k)
  }

  lemma {:induction false} CoolStep(t0: real, c: real, k: nat, temperature: real)
    requires temperature == Cooled(t0, c, k)
    ensures temperature * c == Cooled(t0, c, k + 1)
  {
    assert t0 * Pow(c, k) * c == t0 * (Pow(c, k) * c);
  }

  /**
   * The acceptance rule: a better candidate is always taken; another only at a positive
   * temperature when a uniform draw in [0, 1) falls below exp(delta / temperature).
   */
  method Decide(candidate: Score, current: Score, temperature: real, num: Numerics) returns (accept: bool, improved: bool)
    ensures improved <==> Better(candidate, current)
    ensures improved ==> accept
    ensures accept && !improved ==> temperature > 0.0 && exists u: real | 0.0 <= u < 1.0 :: Accepts(u, candidate, current, temperature, num)
    ensures !accept ==> temperature <= 0.0 || exists u: real | 0.0 <= u < 1.0 :: !Accepts(u, candidate, current, temperature, num)
  {
    if Better(candidate, current) {
      return true, true;
    }
    if temperature > 0.0 {
      var u: real :| 0.0 <= u < 1.0;
      return Accepts(u, candidate, current, temperature, num), false;
    }
    return false, false;
  }

  /** A candidate design together with its D-optimality. */
  datatype Proposal = Proposal(design: Design, score: Score)

  /** A candidate `_generate_candidate_design` can return for `current`, with its score. */
  ghost predicate Candidate(attrs: seq<Attribute>, num: Numerics, current: Design, c: Proposal) {
    && (current == [] ==> c.design == [])
    && (current != [] ==> MutationOf(attrs, current, c.design))
    && MatrixRows(attrs, c.design).Ok?
    && c.score == ScoreOf(attrs, c.design, num)
  }

  /** One candidate of the walk: the current design mutated, then scored. */
  method Propose(attrs: seq<Attribute>, current: Design, num: Numerics) returns (r: Result<Proposal>)
    ensures r.Ok? ==> Candidate(attrs, num, current, r.value)
    ensures r.Err? ==> !HasLevels(attrs)
                       || (current != [] && ((exists t | 0 <= t < |current| :: current[t].options == []) || attrs == []))
    ensures current != [] && ((forall t | 0 <= t < |current| :: current[t].options == []) || attrs == []) ==> r.Err?
  {
    var candidate := MutateDesign(attrs, current);
    if candidate.Err? {
      return Err(candidate.error);
    }
    var scored := ScoreDesign(attrs, candidate.value, num);
    if scored.Err? {
      if HasLevels(attrs) {
        MatrixRowsShape(attrs, candidate.value);
      }
      return Err(scored.error);
    }
    return Ok(Proposal(candidate.value, scored.value));
  }

  /** A design with its score, well-formed and with an existing design matrix. */
  ghost predicate Scored(attrs: seq<Attribute>, o: nat, n: nat, num: Numerics, d: Design, score: Score) {
    WellFormed(attrs, d, o, n) && MatrixRows(attrs, d).Ok? && score == ScoreOf(attrs, d, num)
  }

  /**
   * The state of the walk: the current and the best design with their scores, the count of
   * steps without improvement and the temperature.
   */
  datatype Walk = Walk(current: Design, currentScore: Score, best: Design, bestScore: Score, noImprovement: nat,
                       temperature: real)

  /** The state before the first step: the starting design is current and best. */
  function Begin(start: Design, startScore: Score, t0: real): Walk {
    Walk(start, startScore, start, startScore, 0, t0)
  }

  /** The walk's invariant: both designs scored, and the current one no better than the best. */
  ghost predicate WalkOk(attrs: seq<Attribute>, o: nat, n: nat, num: Numerics, w: Walk) {
    && Scored(attrs, o, n, num, w.current, w.currentScore)
    && Scored(attrs, o, n, num, w.best, w.bestScore)
    && !Better(w.currentScore, w.bestScore)
  }

  /**
   * One iteration of `generate_doptimal_design` on candidate `c`, ending with the temperature
   * multiplied by the cooling rate. A candidate better than the current design becomes current
   * and resets the counter, and becomes the best when it is also better than the best.
   * Otherwise, at a positive temperature, a uniform draw may accept it: it becomes current and
   * the counter is kept. Or it is rejected: the counter grows by one.
   */
  ghost predicate Step(num: Numerics, coolingRate: real, w: Walk, c: Proposal, w': Walk) {
    var cooled := w.temperature * coolingRate;
    if Better(c.score, w.currentScore) then
      w' == Walk(c.design, c.score,
                 if Better(c.score, w.bestScore) then c.design else w.best,
                 if Better(c.score, w.bestScore) then c.score else w.bestScore,
                 0, cooled)
    else
      || (&& w' == w.(current := c.design, currentScore := c.score, temperature := cooled)
          && w.temperature > 0.0
          && exists u: real | 0.0 <= u < 1.0 :: Accepts(u, c.score, w.currentScore, w.temperature, num))
      || (&& w' == w.(noImprovement := w.noImprovement + 1, temperature := cooled)
          && (w.temperature <= 0.0 || exists u: real | 0.0 <= u < 1.0 :: !Accepts(u, c.score, w.currentScore, w.temperature, num)))
  }

  /** Accept or reject one candidate, then cool: one step, keeping the walk's invariant. */
  method Advance(attrs: seq<Attribute>, o: nat, n: nat, num: Numerics, coolingRate: real, w: Walk, candidate: Proposal)
    returns (w': Walk)
    requires WalkOk(attrs, o, n, num, w)
    requires Scored(attrs, o, n, num, candidate.design, candidate.score)
    ensures Step(num, coolingRate, w, candidate, w')
    ensures WalkOk(attrs, o, n, num, w')
  {
    var accept, improved := Decide(candidate.score, w.currentScore, w.temperature, num);
    BetterOrder(candidate.score, w.currentScore, w.bestScore);
    var temperature := w.temperature * coolingRate;
    if improved {
      if Better(candidate.score, w.bestScore) {
        w' := Walk(candidate.design, candidate.score, candidate.design, candidate.score, 0, temperature);
      } else {
        w' := Walk(candidate.design, candidate.score, w.best, w.bestScore, 0, temperature);
      }
    } else if accept {
      w' := w.(current := candidate.design, currentScore := candidate.score, temperature := temperature);
    } else {
      w' := w.(noImprovement := w.noImprovement + 1, temperature := temperature);
    }
  }

  /** The loop stops after a step that leaves 50 steps without improvement or a temperature below 1e-10. */
  predicate Stops(w: Walk) {
    w.noImprovement >= MaxNoImprovement || w.temperature < MinTemperature
  }

  /**
   * The chain of an annealing run from `start`: each walk after the first is the step from the
   * one before with candidate `proposals[i]`, and no walk before the last one met the stop
   * condition.
   */
  ghost predicate Chained(num: Numerics, start: Design, startScore: Score, t0: real, c: real,
                          walks: seq<Walk>, proposals: seq<Proposal>)
  {
    && |walks| == |proposals| + 1
    && walks[0] == Begin(start, startScore, t0)
    && (forall i | 0 <= i < |proposals| :: Step(num, c, walks[i], proposals[i], walks[i + 1]))
    && (forall i | 1 <= i < |proposals| :: !Stops(walks[i]))
  }

  /** Each candidate of the run was drawn for the current design of the walk it was judged in. */
  ghost predicate Drawn(attrs: seq<Attribute>, num: Numerics, walks: seq<Walk>, proposals: seq<Proposal>)
    requires |walks| == |proposals| + 1
  {
    forall i | 0 <= i < |proposals| :: Candidate(attrs, num, walks[i].current, proposals[i])
  }

  /** A walk of the annealing loop from `start`: the chain of steps, on candidates drawn as the generator draws them. */
  ghost predicate Walked(attrs: seq<Attribute>, num: Numerics, start: Design, startScore: Score, t0: real, c: real,
                         walks: seq<Walk>, proposals: seq<Proposal>)
  {
    Chained(num, start, startScore, t0, c, walks, proposals) && Drawn(attrs, num, walks, proposals)
  }

  /** A chain extended by one step from its last state, which did not stop unless it was the start. */
  lemma {:induction false} ChainedSnoc(num: Numerics, start: Design, startScore: Score, t0: real, c: real,
                                       walks: seq<Walk>, proposals: seq<Proposal>, p: Proposal, w': Walk)
    requires Chained(num, start, startScore, t0, c, walks, proposals)
    requires Step(num, c, walks[|proposals|], p, w')
    requires |proposals| > 0 ==> !Stops(walks[|proposals|])
    ensures Chained(num, start, startScore, t0, c, walks + [w'], proposals + [p])
  {
    var walks', proposals' := walks + [w'], proposals + [p];
    forall i | 0 <= i < |proposals'|
      ensures Step(num, c, walks'[i], proposals'[i], walks'[i + 1])
    {
      if i < |proposals| {
        assert walks'[i] == walks[i] && walks'[i + 1] == walks[i + 1] && proposals'[i] == proposals[i];
      }
    }
    forall i | 1 <= i < |proposals'|
      ensures !Stops(walks'[i])
    {
      assert walks'[i] == walks[i];
    }
  }

  /** The candidates extended by one drawn for the last walk. */
  lemma {:induction false} DrawnSnoc(attrs: seq<Attribute>, num: Numerics, walks: seq<Walk>, proposals: seq<Proposal>,
                                     p: Proposal, w': Walk)
    requires |walks| == |proposals| + 1 && Drawn(attrs, num, walks, proposals)
    requires Candidate(attrs, num, walks[|proposals|].current, p)
    ensures Drawn(attrs, num, walks + [w'], proposals + [p])
  {
    var walks', proposals' := walks + [w'], proposals + [p];
    forall i | 0 <= i < |proposals'|
      ensures Candidate(attrs, num, walks'[i].current, proposals'[i])
    {
      if i < |proposals| {
        assert walks'[i] == walks[i] && proposals'[i] == proposals[i];
      }
    }
  }

  /** The temperature after `i` steps is the initial one cooled `i` times. */
  lemma {:induction false} WalkTemperature(num: Numerics, start: Design, startScore: Score,
                                           t0: real, c: real, walks: seq<Walk>, proposals: seq<Proposal>, i: nat)
    requires Chained(num, start, startScore, t0, c, walks, proposals) && i < |walks|
    ensures walks[i].temperature == Cooled(t0, c, i)
  {
    if i > 0 {
      WalkTemperature(num, start, startScore, t0, c, walks, proposals, i - 1);
      assert Step(num, c, walks[i - 1], proposals[i - 1], walks[i]);
      CoolStep(t0, c, i - 1, walks[i - 1].temperature);
    }
  }

  /**
   * One step keeps the current design no better than the best, never lowers the best score,
   * and either keeps the best or makes the new current design the best.
   */
  lemma {:induction false} StepKeepsBest(num: Numerics, coolingRate: real, w: Walk, p: Proposal, w': Walk)
    requires Step(num, coolingRate, w, p, w') && !Better(w.currentScore, w.bestScore)
    ensures !Better(w'.currentScore, w'.bestScore)
    ensures !Better(w.bestScore, w'.bestScore)
    ensures (w'.best == w.best && w'.bestScore == w.bestScore) || (w'.best == w'.current && w'.bestScore == w'.currentScore)
  {
    BetterOrder(p.score, w.currentScore, w.bestScore);
    BetterOrder(w.bestScore, p.score, w.bestScore);
  }

  /** The walk after the last step. */
  function Final(walks: seq<Walk>): Walk
    requires |walks| > 0
  {
    walks[|walks| - 1]
  }

  /**
   * Along a walk, the best design after step `j` is a design the walk held as current, and no
   * design held up to then scores better.
   */
  lemma {:induction false} WalkBest(num: Numerics, start: Design, startScore: Score, t0: real, c: real,
                                    walks: seq<Walk>, proposals: seq<Proposal>, j: nat)
    requires Chained(num, start, startScore, t0, c, walks, proposals) && j < |walks|
    ensures forall i | 0 <= i <= j :: !Better(walks[i].currentScore, walks[j].bestScore)
    ensures exists i | 0 <= i <= j :: walks[i].current == walks[j].best && walks[i].currentScore == walks[j].bestScore
  {
    if j == 0 {
      BetterOrder(startScore, startScore, startScore);
      assert walks[0].current == walks[0].best;
    } else {
      WalkBest(num, start, startScore, t0, c, walks, proposals, j - 1);
      var w, w' := walks[j - 1], walks[j];
      assert Step(num, c, w, proposals[j - 1], w');
      StepKeepsBest(num, c, w, proposals[j - 1], w');
      forall i | 0 <= i < j
        ensures !Better(walks[i].currentScore, w'.bestScore)
      {
        BetterOrder(walks[i].currentScore, w.bestScore, w'.bestScore);
      }
      if w'.best == w.best && w'.bestScore == w.bestScore {
        var i :| 0 <= i <= j - 1 && walks[i].current == w.best && walks[i].currentScore == w.bestScore;
      } else {
        assert walks[j].current == w'.best;
      }
    }
  }

  /** A whole run: at most `max_iterations` steps, and fewer only when the last step met the stop condition. */
  ghost predicate AnnealRun(attrs: seq<Attribute>, num: Numerics, start: Design, startScore: Score, maxIterations: int,
                            t0: real, c: real, walks: seq<Walk>, proposals: seq<Proposal>) {
    && Walked(attrs, num, start, startScore, t0, c, walks, proposals)
    && |proposals| <= Count(maxIterations)
    && (|proposals| < Count(maxIterations) ==> |proposals| > 0 && Stops(walks[|proposals|]))
  }

  /** A walk extended by one iteration from its last state, which did not stop unless it was the start. */
  lemma {:induction false} WalkedSnoc(attrs: seq<Attribute>, num: Numerics, start: Design, startScore: Score, t0: real, c: real,
                                      walks: seq<Walk>, proposals: seq<Proposal>, p: Proposal, w': Walk)
    requires Walked(attrs, num, start, startScore, t0, c, walks, proposals)
    requires Candidate(attrs, num, Final(walks).current, p) && Step(num, c, Final(walks), p, w')
    requires |proposals| > 0 ==> !Stops(Final(walks))
    ensures Walked(attrs, num, start, startScore, t0, c, walks + [w'], proposals + [p])
    ensures Final(walks + [w']) == w'
  {
    ChainedSnoc(num, start, startScore, t0, c, walks, proposals, p, w');
    DrawnSnoc(attrs, num, walks, proposals, p, w');
  }

  /**
   * A walk that kept its invariant and ended within the iteration bound, early only on the
   * stop condition, is a whole run whose best design is scored no worse than any design held.
   */
  lemma {:induction false} AnnealEnd(attrs: seq<Attribute>, o: nat, n: nat, num: Numerics, start: Design, startScore: Score,
                                     maxIterations: int, t0: real, c: real, walks: seq<Walk>, proposals: seq<Proposal>)
    requires Walked(attrs, num, start, startScore, t0, c, walks, proposals) && WalkOk(attrs, o, n, num, Final(walks))
    requires |proposals| <= Count(maxIterations)
    requires |proposals| < Count(maxIterations) ==> |proposals| > 0 && Stops(Final(walks))
    ensures AnnealRun(attrs, num, start, startScore, maxIterations, t0, c, walks, proposals)
    ensures Scored(attrs, o, n, num, Final(walks).best, Final(walks).bestScore)
    ensures forall i | 0 <= i < |walks| :: !Better(walks[i].currentScore, Final(walks).bestScore)
    ensures exists i | 0 <= i < |walks| :: walks[i].current == Final(walks).best
  {
    WalkBest(num, start, startScore, t0, c, walks, proposals, |walks| - 1);
  }

  /** What the annealing loop did: whether the random fallback ran, every walk state and every candidate. */
  datatype Trace = Trace(fallback: bool, walks: seq<Walk>, proposals: seq<Proposal>)

  /**
   * One iteration of the annealing loop: propose a candidate for the current design, decide on
   * it, then cool. It fails as the candidate's draws fail: no levels to draw from, or a design
   * with tasks but no options or no attributes.
   */
  method Iterate(attrs: seq<Attribute>, o: nat, n: nat, num: Numerics, coolingRate: real, w: Walk)
    returns (r: Result<Proposal>, w': Walk)
    requires WalkOk(attrs, o, n, num, w)
    ensures r.Ok? ==> && Candidate(attrs, num, w.current, r.value)
                      && Step(num, coolingRate, w, r.value, w')
                      && WalkOk(attrs, o, n, num, w')
    ensures r.Err? ==> !HasLevels(attrs) || (n > 0 && (attrs == [] || o == 0))
    ensures n > 0 && (attrs == [] || o == 0) ==> r.Err?
  {
    w' := w;
    var proposal := Propose(attrs, w.current, num);
    if proposal.Err? {
      return Err(proposal.error), w';
    }
    if w.current != [] {
      MutationWellFormed(attrs, w.current, proposal.value.design, o, n);
    }
    w' := Advance(attrs, o, n, num, coolingRate, w, proposal.value);
    return Ok(proposal.value), w';
  }

  /**
   * The annealing loop of `generate_doptimal_design` from a scored starting design. The trace is
   * a whole run (see `AnnealRun`), and the result is the best design of its final walk: a design
   * the walk held, scored no worse than any design it held.
   */
  method Anneal(attrs: seq<Attribute>, o: nat, n: nat, start: Design, startScore: Score, maxIterations: int,
                initialTemperature: real, coolingRate: real, num: Numerics)
    returns (r: Result<Design>, ghost trace: Trace)
    requires Scored(attrs, o, n, num, start, startScore)
    ensures r.Ok? ==> !trace.fallback
                      && AnnealRun(attrs, num, start, startScore, maxIterations, initialTemperature, coolingRate,
                                   trace.walks, trace.proposals)
    ensures r.Ok? ==> && r.value == Final(trace.walks).best
                      && Scored(attrs, o, n, num, Final(trace.walks).best, Final(trace.walks).bestScore)
                      && (forall i | 0 <= i < |trace.walks| :: !Better(trace.walks[i].currentScore, Final(trace.walks).bestScore))
                      && (exists i | 0 <= i < |trace.walks| :: trace.walks[i].current == Final(trace.walks).best)
    ensures r.Err? ==> !HasLevels(attrs) || (n > 0 && maxIterations > 0 && (attrs == [] || o == 0))
    ensures n > 0 && maxIterations > 0 && (attrs == [] || o == 0) ==> r.Err?
  {
    var w := Begin(start, startScore, initialTemperature);
    ghost var walks := [w];
    ghost var proposals: seq<Proposal> := [];
    var iteration := 0;
    while iteration < maxIterations
      invariant iteration == |proposals| <= Count(maxIterations)
      invariant Walked(attrs, num, start, startScore, initialTemperature, coolingRate, walks, proposals)
      invariant w == Final(walks) && WalkOk(attrs, o, n, num, w)
      invariant iteration > 0 ==> !Stops(w)
      invariant n > 0 && (attrs == [] || o == 0) ==> iteration == 0
    {
      var proposal, next := Iterate(attrs, o, n, num, coolingRate, w);
      if proposal.Err? {
        return Err(proposal.error), Trace(false, walks, proposals);
      }
      WalkedSnoc(attrs, num, start, startScore, initialTemperature, coolingRate, walks, proposals, proposal.value, next);
      w := next;
      walks := walks + [w];
      proposals := proposals + [proposal.value];
      iteration := iteration + 1;
      if Stops(w) {
        break;
      }
    }
    AnnealEnd(attrs, o, n, num, start, startScore, maxIterations, initialTemperature, coolingRate, walks, proposals);
    return Ok(w.best), Trace(false, walks, proposals);
  }

  /**
   * The trace is a whole annealing run from a random starting design of the requested shape,
   * and the starting score is that design's score.
   */
  ghost predicate RandomStartRun(attrs: seq<Attribute>, num: Numerics, o: nat, n: nat, maxIterations: int,
                                 t0: real, c: real, trace: Trace) {
    && |trace.walks| > 0
    && WellFormed(attrs, trace.walks[0].current, o, n)
    && AllKept(attrs, trace.walks[0].current)
    && MatrixRows(attrs, trace.walks[0].current).Ok?
    && AnnealRun(attrs, num, trace.walks[0].current, ScoreOf(attrs, trace.walks[0].current, num),
                 maxIterations, t0, c, trace.walks, trace.proposals)
  }

  /** `d` is the best design of the run's final walk, scored no worse than any design the run held. */
  ghost predicate BestOfRun(attrs: seq<Attribute>, num: Numerics, trace: Trace, d: Design) {
    && |trace.walks| > 0
    && d == Final(trace.walks).best
    && MatrixRows(attrs, d).Ok?
    && Final(trace.walks).bestScore == ScoreOf(attrs, d, num)
    && (forall i | 0 <= i < |trace.walks| :: !Better(trace.walks[i].currentScore, Final(trace.walks).bestScore))
  }

  /**
   * `generate_doptimal_design`. The result has the requested shape. The random fallback is taken
   * only for a negative screen count, and then gives no tasks. Otherwise the trace is a whole
   * annealing run from a random starting design, and the result is the best design of its final
   * walk. For a grid whose attributes all have levels, it fails exactly when the first candidate
   * draw meets a task without options or an empty attribute list. `convergence_threshold` is
   * unused, as in the generator itself.
   */
  method GenerateDOptimalDesign(grid: DesignGrid, numScreens: int, optionsPerScreen: int, maxIterations: int,
                                convergenceThreshold: real, initialTemperature: real, coolingRate: real,
                                num: Numerics)
    returns (r: Result<Design>, ghost trace: Trace)
    ensures r.Ok? ==> WellFormed(grid.attributes, r.value, Count(optionsPerScreen), Count(numScreens))
    ensures r.Ok? ==> (trace.fallback <==> numScreens < 0)
    ensures r.Ok? && trace.fallback ==> r.value == []
    ensures r.Ok? && !trace.fallback ==>
              && RandomStartRun(grid.attributes, num, Count(optionsPerScreen), Count(numScreens), maxIterations,
                                initialTemperature, coolingRate, trace)
              && BestOfRun(grid.attributes, num, trace, r.value)
    ensures r.Err? ==> !HasLevels(grid.attributes)
                       || (Count(numScreens) > 0 && maxIterations > 0 && (grid.attributes == [] || Count(optionsPerScreen) == 0))
    ensures (&& HasLevels(grid.attributes) && Count(numScreens) > 0 && maxIterations > 0
             && (grid.attributes == [] || Count(optionsPerScreen) == 0)) ==> r.Err?
  {
    var attrs := grid.attributes;
    trace := Trace(false, [], []);
    var initial := InitialCandidate(attrs, numScreens, optionsPerScreen);
    if initial.Err? {
      return Err(initial.error), trace;
    }
    var current := initial.value;
    var scored := ScoreDesign(attrs, current, num);
    if scored.Err? {
      if HasLevels(attrs) {
        MatrixRowsShape(attrs, current);
      }
      return Err(scored.error), trace;
    }
    if |current| != numScreens {
      r := RandomDesign.GenerateRandomDesign(grid, optionsPerScreen, numScreens);
      return r, trace.(fallback := true);
    }
    r, trace := Anneal(attrs, Count(optionsPerScreen), Count(numScreens), current, scored.value, maxIterations,
                       initialTemperature, coolingRate, num);
  }
}
