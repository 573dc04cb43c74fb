/**
 * The respondent-count heuristic: 7.5 observations per model parameter (the main effects
 * plus an intercept), rounded up and clamped into [minimum, 1000], where the minimum is 30,
 * or 20 for very small designs with at least ten observations per respondent. Also the
 * clamped expected-power estimate reported beside it.
 */
module RespondentOptimization {
  import opened Wrappers
  import opened Designs
  import opened Stats

  const ObservationsPerParameter: real := 7.5
  const MinRespondents := 30
  const SmallDesignMinRespondents := 20
  const MaxRespondents := 1000

  /** `math.ceil(num_parameters * 7.5)` in integer arithmetic. */
  function CeilObservations(numParameters: int): (s: int)
    ensures (s - 1) as real < numParameters as real * ObservationsPerParameter <= s as real
  {
    (15 * numParameters + 1) / 2
  }

  /** The clamp of the suggestion, given the parameter count and the observations per respondent. */
  function SuggestFor(numParameters: int, observationsPerRespondent: int): (r: int)
    ensures SmallDesignMinRespondents <= r <= MaxRespondents
    ensures !(numParameters <= 3 && observationsPerRespondent >= 10) ==> r >= MinRespondents
    ensures r == CeilObservations(numParameters) || r == MaxRespondents
            || r == MinRespondents || r == SmallDesignMinRespondents
    ensures MinRespondents < CeilObservations(numParameters) < MaxRespondents ==> r == CeilObservations(numParameters)
  {
    var suggested := CeilObservations(numParameters);
    var minimum := if numParameters <= 3 && observationsPerRespondent >= 10 then SmallDesignMinRespondents else MinRespondents;
    var capped := if suggested < MaxRespondents then suggested else MaxRespondents;
    if minimum > capped then minimum else capped
  }

  /**
   * `suggest_optimal_respondents`: the parameter count is total levels − attributes + 1;
   * the target power, effect size and significance level take no part.
   */
  function SuggestOptimalRespondents(grid: DesignGrid, numScreens: int, optionsPerScreen: int,
                                     targetPower: real, effectSize: real, alpha: real): (r: int)
    ensures SmallDesignMinRespondents <= r <= MaxRespondents
  {
    var numParameters := TotalLevels(grid.attributes) - |grid.attributes| + 1;
    SuggestFor(numParameters, numScreens * optionsPerScreen)
  }

  /** For a fixed number of observations per respondent, more parameters never suggest fewer respondents. */
  lemma {:induction false} SuggestMonotone(p1: int, p2: int, observationsPerRespondent: int)
    requires p1 <= p2
    ensures SuggestFor(p1, observationsPerRespondent) <= SuggestFor(p2, observationsPerRespondent)
  {
    CeilMonotone(p1, p2);
    if p1 <= 3 && p2 > 3 {
      assert CeilObservations(p1) <= CeilObservations(3) == 23;
    }
  }

  lemma {:induction false} CeilMonotone(p1: int, p2: int)
    requires p1 <= p2
    ensures CeilObservations(p1) <= CeilObservations(p2)
  {
    assert 15 * p1 + 1 <= 15 * p2 + 1;
  }

  const PowerFloor: real := 0.01
  const PowerCeiling: real := 0.99

  /** The argument n·e² of `math.sqrt` is negative exactly when n is negative and e is not zero. */
  lemma {:induction false} SqrtArgumentSign(n: int, e: real)
    ensures (n as real * (e * e) < 0.0) <==> (n < 0 && e != 0.0)
  {
    if e != 0.0 && n < 0 {
      assert e * e > 0.0;
    }
  }

  /** What `math.sqrt` raises for a negative argument. */
  const MathDomainError := "ValueError: math domain error"

  /**
   * `calculate_expected_power`: 0.5 + 0.5·tanh((√(observations·effect²) − 1.96)/2), clamped into
   * [0.01, 0.99]. The square root fails when observations·effect² is negative, which is when
   * the observation count is negative and the effect size is not zero (`SqrtArgumentSign`).
   * The parameter count it computes is never used, so the grid takes no part.
   */
  function CalculateExpectedPower(grid: DesignGrid, numRespondents: int, numScreens: int, optionsPerScreen: int,
                                  effectSize: real, alpha: real, num: PowerNumerics): (r: Result<real>)
    ensures r.Err? <==> (numRespondents * numScreens * optionsPerScreen < 0 && effectSize != 0.0)
    ensures r.Err? ==> r.error == MathDomainError
    ensures r.Ok? ==> PowerFloor <= r.value <= PowerCeiling
  {
    var totalObservations := numRespondents * numScreens * optionsPerScreen;
    var zAlpha := 1.96;
    if totalObservations < 0 && effectSize != 0.0 then Err(MathDomainError)
    else
      var powerTerm := num.sqrt(totalObservations as real * (effectSize * effectSize)) - zAlpha;
      var raw := 0.5 + 0.5 * num.tanh(powerTerm / 2.0);
      var floored := if raw > PowerFloor then raw else PowerFloor;
      Ok(if floored < PowerCeiling then floored else PowerCeiling)
  }
}
