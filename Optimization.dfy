/**
 * The parameter-optimisation handler: each of the respondent, screen and option counts is
 * either fixed by the request or found by its binary search (in that order, each search
 * seeing the values settled before it), then the power, the parameter count and the design
 * space size are reported with warnings.
 */
module Optimization {
  import opened Wrappers
  import opened Text
  import opened Designs
  import opened Stats

  datatype OptimizationRequest = OptimizationRequest(
    grid: DesignGrid,
    targetPower: real,
    effectSize: real,
    alpha: real,
    maxRespondents: int,
    maxScreens: int,
    maxOptions: int,
    fixedRespondents: Optional<int>,
    fixedScreens: Optional<int>,
    fixedOptions: Optional<int>)

  datatype OptimizationResponse = OptimizationResponse(
    numRespondents: int,
    numScreens: int,
    optionsPerScreen: int,
    expectedPower: real,
    parameterCount: int,
    designComplexity: int,
    notes: Optional<string>)

  /** The field bounds the request model enforces when it is built. */
  predicate RequestInBounds(req: OptimizationRequest) {
    && 0.1 <= req.targetPower <= 1.0
    && 0.1 <= req.effectSize <= 1.0
    && 0.01 <= req.alpha <= 0.1
    && 10 <= req.maxRespondents <= 10000
    && 1 <= req.maxScreens <= 50
    && 2 <= req.maxOptions <= 10
    && (req.fixedRespondents.Some? ==> 1 <= req.fixedRespondents.value <= 10000)
    && (req.fixedScreens.Some? ==> 1 <= req.fixedScreens.value <= 50)
    && (req.fixedOptions.Some? ==> 2 <= req.fixedOptions.value <= 10)
  }

  /** A request with every field at its declared default. */
  function DefaultRequest(grid: DesignGrid): (req: OptimizationRequest)
    ensures RequestInBounds(req)
    ensures req.fixedRespondents.None? && req.fixedScreens.None? && req.fixedOptions.None?
  {
    OptimizationRequest(grid, 0.8, 0.2, 0.05, 1000, 20, 5, None, None, None)
  }

  /** Python's `value or default` on an optional count: `None` and `0` both give the default. */
  function OrDefault(value: Optional<int>, default: int): (r: int)
    ensures value.Some? && value.value != 0 ==> r == value.value
    ensures value.None? || value.value == 0 ==> r == default
  {
    if value.Some? && value.value != 0 then value.value else default
  }

  /** The float renderings the warnings use: `{:.3f}` and the plain `{}` of a float. */
  datatype Formats = Formats(fixed3: real -> string, repr: real -> string)

  datatype Note = PowerBelowTarget(power: real, target: real) | InsufficientObservations

  function NoteText(note: Note, fmt: Formats): string {
    match note
    case PowerBelowTarget(power, target) =>
      "Warning: Expected power (" + fmt.fixed3(power) + ") below target (" + fmt.repr(target) + ")"
    case InsufficientObservations => "Warning: Insufficient observations for parameter estimation"
  }

  /** The warnings, in order: the power one when below target, then the observations one. */
  function Notes(power: real, target: real, parameterCount: int, observations: int): (notes: seq<Note>)
    ensures notes == [] <==> power >= target && parameterCount <= observations
    ensures PowerBelowTarget(power, target) in notes <==> power < target
    ensures InsufficientObservations in notes <==> parameterCount > observations
  {
    (if power < target then [PowerBelowTarget(power, target)] else [])
    + (if parameterCount > observations then [InsufficientObservations] else [])
  }

  /** `"; ".join(notes) if notes else None`. */
  function JoinNotes(notes: seq<Note>, fmt: Formats): (r: Optional<string>)
    ensures r.None? <==> notes == []
  {
    if notes == [] then None
    else Some(Join(seq(|notes|, i requires 0 <= i < |notes| => NoteText(notes[i], fmt)), "; "))
  }

  /** The three counts: fixed by the request, or searched for in the order respondents, screens, options. */
  method SettleCounts(req: OptimizationRequest, num: PowerNumerics)
    returns (numRespondents: int, numScreens: int, optionsPerScreen: int)
    ensures req.fixedRespondents.Some? && req.fixedRespondents.value != 0 ==> numRespondents == req.fixedRespondents.value
    ensures req.fixedScreens.Some? && req.fixedScreens.value != 0 ==> numScreens == req.fixedScreens.value
    ensures req.fixedOptions.Some? && req.fixedOptions.value != 0 ==> optionsPerScreen == req.fixedOptions.value
    ensures req.fixedRespondents.None? ==>
              LeastOrHi(RespondentTest(req.grid, OrDefault(req.fixedScreens, 10), OrDefault(req.fixedOptions, 3),
                                       req.targetPower, req.effectSize, req.alpha, num),
                        1, req.maxRespondents, numRespondents)
    ensures req.fixedScreens.None? ==>
              LeastOrHi(ScreenTest(req.grid, numRespondents, OrDefault(req.fixedOptions, 3),
                                   req.targetPower, req.effectSize, req.alpha, num),
                        1, req.maxScreens, numScreens)
    ensures req.fixedOptions.None? ==>
              LeastOrHi(OptionTest(req.grid, numRespondents, numScreens, req.targetPower, req.effectSize, req.alpha, num),
                        2, req.maxOptions, optionsPerScreen)
  {
    numRespondents := OrDefault(req.fixedRespondents, 100);
    numScreens := OrDefault(req.fixedScreens, 10);
    optionsPerScreen := OrDefault(req.fixedOptions, 3);
    if req.fixedRespondents.None? {
      numRespondents := OptimizeRespondentSize(req.grid, numScreens, optionsPerScreen, req.targetPower,
                                               req.effectSize, req.alpha, req.maxRespondents, num);
    }
    if req.fixedScreens.None? {
      numScreens := OptimizeScreenCount(req.grid, numRespondents, optionsPerScreen, req.targetPower,
                                        req.effectSize, req.alpha, req.maxScreens, num);
    }
    if req.fixedOptions.None? {
      optionsPerScreen := OptimizeOptionsPerScreen(req.grid, numRespondents, numScreens, req.targetPower,
                                                   req.effectSize, req.alpha, req.maxOptions, num);
    }
  }

  /** `handle_optimize_parameters`. */
  method HandleOptimizeParameters(req: OptimizationRequest, num: PowerNumerics, fmt: Formats)
    returns (r: OptimizationResponse)
    ensures req.fixedRespondents.Some? && req.fixedRespondents.value != 0 ==> r.numRespondents == req.fixedRespondents.value
    ensures req.fixedScreens.Some? && req.fixedScreens.value != 0 ==> r.numScreens == req.fixedScreens.value
    ensures req.fixedOptions.Some? && req.fixedOptions.value != 0 ==> r.optionsPerScreen == req.fixedOptions.value
    ensures req.fixedRespondents.None? ==>
              LeastOrHi(RespondentTest(req.grid, OrDefault(req.fixedScreens, 10), OrDefault(req.fixedOptions, 3),
                                       req.targetPower, req.effectSize, req.alpha, num),
                        1, req.maxRespondents, r.numRespondents)
    ensures req.fixedScreens.None? ==>
              LeastOrHi(ScreenTest(req.grid, r.numRespondents, OrDefault(req.fixedOptions, 3),
                                   req.targetPower, req.effectSize, req.alpha, num),
                        1, req.maxScreens, r.numScreens)
    ensures req.fixedOptions.None? ==>
              LeastOrHi(OptionTest(req.grid, r.numRespondents, r.numScreens, req.targetPower, req.effectSize, req.alpha, num),
                        2, req.maxOptions, r.optionsPerScreen)
    ensures r.parameterCount == TotalLevels(req.grid.attributes) - |req.grid.attributes|
    ensures r.designComplexity == LevelProduct(req.grid.attributes)
    ensures r.expectedPower == StatisticalPower(r.numRespondents, r.numScreens, r.optionsPerScreen, r.parameterCount,
                                                req.effectSize, req.alpha, num)
    ensures r.notes == JoinNotes(Notes(r.expectedPower, req.targetPower, r.parameterCount,
                                       r.numRespondents * r.numScreens * (r.optionsPerScreen - 1)), fmt)
    ensures r.notes.None? <==> r.expectedPower >= req.targetPower
                               && r.parameterCount <= r.numRespondents * r.numScreens * (r.optionsPerScreen - 1)
  {
    var parameterCount := EstimateParametersCount(req.grid);
    var numRespondents, numScreens, optionsPerScreen := SettleCounts(req, num);
    var expectedPower := StatisticalPower(numRespondents, numScreens, optionsPerScreen, parameterCount,
                                          req.effectSize, req.alpha, num);
    var designComplexity := CalculateDesignComplexity(req.grid);
    var notes := Notes(expectedPower, req.targetPower, parameterCount, numRespondents * numScreens * (optionsPerScreen - 1));
    r := OptimizationResponse(numRespondents, numScreens, optionsPerScreen, expectedPower, parameterCount,
                              designComplexity, JoinNotes(notes, fmt));
  }
}
