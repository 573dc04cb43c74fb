/**
 * The design-generation handler: validate the grid, settle the respondent count, pick the
 * generator named by the (case-insensitive) method and score its design.
 */
module Generation {
  import opened Wrappers
  import opened Text
  import opened JsonValues
  import opened Designs
  import opened Validation
  import opened RandomDesign
  import opened Balanced
  import opened Orthogonal
  import opened DesignMatrix
  import opened DOptimal
  import opened Metrics

  datatype GenerateDesignRequest = GenerateDesignRequest(
    designMethod: string,
    grid: DesignGrid,
    optionsPerScreen: int,
    numScreens: int,
    numRespondents: Optional<int>,
    constraints: Optional<Json>)

  datatype GenerateDesignResponse = GenerateDesignResponse(
    tasks: seq<ChoiceTask>,
    efficiency: Optional<real>,
    notes: Optional<string>,
    numRespondents: int,
    suggestedRespondents: Optional<int>)

  /** A request with the declared defaults: three options per screen, ten screens. */
  function DefaultRequest(designMethod: string, grid: DesignGrid): (req: GenerateDesignRequest)
    ensures req.optionsPerScreen == 3 && req.numScreens == 10
    ensures req.numRespondents.None? && req.constraints.None?
  {
    GenerateDesignRequest(designMethod, grid, 3, 10, None, None)
  }

  /**
   * Without a respondent count the handler calls the respondent heuristic with a keyword
   * argument its signature does not declare, so the call raises.
   */
  const UnexpectedKeyword := "TypeError: suggest_optimal_respondents() got an unexpected keyword argument 'default_commercial'"

  const UnsupportedMethod := "Unsupported design method: "

  /** The annealing settings the handler leaves at their defaults. */
  const DefaultMaxIterations := 100
  const DefaultConvergenceThreshold: real := 0.000001
  const DefaultInitialTemperature: real := 1.0
  const DefaultCoolingRate: real := 0.95

  datatype DesignMethod = RandomMethod | BalancedOverlap | OrthogonalArray | DOptimalMethod

  /** The generator a method name selects, after lower-casing; `None` for an unknown name. */
  function ParseMethod(name: string): (m: Optional<DesignMethod>)
    ensures m == Some(RandomMethod) <==> Lower(name) == "random"
    ensures m == Some(BalancedOverlap) <==> Lower(name) == "balanced" || Lower(name) == "balanced_overlap"
    ensures m == Some(OrthogonalArray) <==> Lower(name) == "orthogonal" || Lower(name) == "orthogonal_array"
    ensures m == Some(DOptimalMethod) <==> Lower(name) == "doptimal" || Lower(name) == "d-optimal"
  {
    var key := Lower(name);
    if key == "random" then Some(RandomMethod)
    else if key == "balanced" || key == "balanced_overlap" then Some(BalancedOverlap)
    else if key == "orthogonal" || key == "orthogonal_array" then Some(OrthogonalArray)
    else if key == "doptimal" || key == "d-optimal" then Some(DOptimalMethod)
    else None
  }

  /** The method name is matched without regard to ASCII case. */
  lemma {:induction false} ParseMethodIgnoresCase(name: string)
    ensures ParseMethod(Lower(name)) == ParseMethod(name)
  {
    LowerIdempotent(name);
  }

  /**
   * `handle_generate_design`. The grid is validated first; then a missing respondent count
   * raises; then an unknown method raises; otherwise the selected generator runs and its design
   * is scored by the level-balance score, or by the D-efficiency for the D-optimal method.
   * For the D-optimal method `trace` is the generator's annealing run, and the call fails
   * exactly when the first candidate draw meets a screen without options, or when `1/p` meets
   * a grid without parameters.
   */
  method HandleGenerateDesign(req: GenerateDesignRequest, num: Numerics)
    returns (r: Result<GenerateDesignResponse>, ghost trace: Trace)
    ensures !ValidGrid(req.grid) ==> r == Err(ValidateGrid(req.grid).error)
    ensures ValidGrid(req.grid) && req.numRespondents.None? ==> r == Err(UnexpectedKeyword)
    ensures ValidGrid(req.grid) && req.numRespondents.Some? && ParseMethod(req.designMethod).None?
            ==> r == Err(UnsupportedMethod + req.designMethod)
    ensures (&& ValidGrid(req.grid) && req.numRespondents.Some? && ParseMethod(req.designMethod).Some?
             && ParseMethod(req.designMethod) != Some(DOptimalMethod)) ==> r.Ok?
    ensures r.Ok? ==> && ValidGrid(req.grid) && req.numRespondents.Some? && ParseMethod(req.designMethod).Some?
                      && r.value.numRespondents == req.numRespondents.value
                      && r.value.suggestedRespondents.None? && r.value.notes.None?
                      && WellFormed(req.grid.attributes, r.value.tasks, Count(req.optionsPerScreen), Count(req.numScreens))
    ensures r.Ok? && ParseMethod(req.designMethod) != Some(DOptimalMethod)
            ==> r.value.efficiency == Some(BalanceScore(r.value.tasks))
    ensures r.Ok? && ParseMethod(req.designMethod) == Some(DOptimalMethod)
            ==> r.value.efficiency.Some? && DEfficiency(req.grid.attributes, r.value.tasks, num) == Ok(r.value.efficiency.value)
    ensures r.Ok? && ParseMethod(req.designMethod) == Some(BalancedOverlap)
            ==> && NamedLevelsNonEmpty(req.grid.attributes)
                && r.value.tasks == BalancedDesign(req.grid.attributes, req.optionsPerScreen, req.numScreens)
    ensures r.Ok? && ParseMethod(req.designMethod) == Some(OrthogonalArray)
            ==> && NamedLevelsNonEmpty(req.grid.attributes)
                && r.value.tasks == if AllTwoLevel(req.grid.attributes)
                                 then OrthogonalDesign(req.grid.attributes, req.optionsPerScreen, req.numScreens)
                                 else BalancedDesign(req.grid.attributes, req.optionsPerScreen, req.numScreens)
    ensures r.Ok? && ParseMethod(req.designMethod) == Some(DOptimalMethod)
            ==> && (trace.fallback <==> req.numScreens < 0)
                && (trace.fallback ==> r.value.tasks == [])
                && (!trace.fallback ==>
                      && RandomStartRun(req.grid.attributes, num, Count(req.optionsPerScreen), Count(req.numScreens),
                                        DefaultMaxIterations, DefaultInitialTemperature, DefaultCoolingRate, trace)
                      && BestOfRun(req.grid.attributes, num, trace, r.value.tasks))
    ensures ValidGrid(req.grid) && req.numRespondents.Some? && ParseMethod(req.designMethod) == Some(DOptimalMethod)
            ==> (r.Err? <==> || (Count(req.numScreens) > 0 && Count(req.optionsPerScreen) == 0)
                             || (ParameterCount(req.grid.attributes) == 0 && num.det([]) > SingularThreshold))
  {
    trace := Trace(false, [], []);
    var valid := ValidateGrid(req.grid);
    if valid.Err? {
      return Err(valid.error), trace;
    }
    ValidGridHasLevels(req.grid);
    HasLevelsNamedNonEmpty(req.grid.attributes);
    var attrs := req.grid.attributes;
    if req.numRespondents.None? {
      return Err(UnexpectedKeyword), trace;
    }
    var numRespondents := req.numRespondents.value;
    var chosen := ParseMethod(req.designMethod);
    if chosen.None? {
      return Err(UnsupportedMethod + req.designMethod), trace;
    }
    var tasks: Design;
    var score: real;
    match chosen.value {
      case RandomMethod =>
        var generated := GenerateRandomDesign(req.grid, req.optionsPerScreen, req.numScreens);
        tasks := generated.value;
        score := NaiveLevelBalanceScore(tasks);
      case BalancedOverlap =>
        var generated := GenerateBalancedOverlapDesign(req.grid, req.optionsPerScreen, req.numScreens);
        tasks := generated.value;
        BalancedDesignShape(attrs, req.optionsPerScreen, req.numScreens);
        score := NaiveLevelBalanceScore(tasks);
      case OrthogonalArray =>
        var generated := GenerateOrthogonalArrayDesign(req.grid, req.optionsPerScreen, req.numScreens);
        tasks := generated.value;
        if AllTwoLevel(attrs) {
          OrthogonalDesignShape(attrs, req.optionsPerScreen, req.numScreens);
        } else {
          BalancedDesignShape(attrs, req.optionsPerScreen, req.numScreens);
        }
        score := NaiveLevelBalanceScore(tasks);
      case DOptimalMethod =>
        var generated;
        generated, trace := GenerateDOptimalDesign(req.grid, req.numScreens, req.optionsPerScreen, DefaultMaxIterations,
                                                   DefaultConvergenceThreshold, DefaultInitialTemperature,
                                                   DefaultCoolingRate, num);
        if generated.Err? {
          return Err(generated.error), trace;
        }
        tasks := generated.value;
        MatrixRowsShape(attrs, tasks);
        var efficiency := CalculateDEfficiency(tasks, attrs, num);
        if efficiency.Err? {
          return Err(efficiency.error), trace;
        }
        score := efficiency.value;
    }
    return Ok(GenerateDesignResponse(tasks, Some(score), None, numRespondents, None)), trace;
  }
}
