/**
 * Design statistics and the three sample-size searches: the size of the design space,
 * the main-effects parameter count, an approximate statistical power, and binary searches
 * for the least respondent, screen or option count that reaches a target power.
 * The square root and the error function are supplied as parameters.
 */
module Stats {
  import opened Designs

  /** `math.sqrt`, `math.erf` and `math.tanh`, left uninterpreted. */
  datatype PowerNumerics = PowerNumerics(sqrt: real -> real, erf: real -> real, tanh: real -> real)

  /** `calculate_design_complexity`: the product of the level counts, by a running product. */
  method CalculateDesignComplexity(grid: DesignGrid) returns (total: int)
    ensures total == LevelProduct(grid.attributes)
  {
    var attrs := grid.attributes;
    total := 1;
    for i := 0 to |attrs|
      invariant total == LevelProduct(attrs[..i])
    {
      LevelProductPrefix(attrs, i);
      total := total * |attrs[i].levels|;
    }
    assert attrs[..|attrs|] == attrs;
  }

  /** The design space is empty iff some attribute has no levels. */
  lemma {:induction false} LevelProductZero(attrs: seq<Attribute>)
    ensures LevelProduct(attrs) >= 0
    ensures LevelProduct(attrs) == 0 <==> exists i | 0 <= i < |attrs| :: attrs[i].levels == []
  {
    if attrs != [] {
      var n := |attrs| - 1;
      LevelProductZero(attrs[..n]);
      if exists i | 0 <= i < n :: attrs[..n][i].levels == [] {
        var i :| 0 <= i < n && attrs[..n][i].levels == [];
        assert attrs[i] == attrs[..n][i];
      }
      if exists i | 0 <= i < |attrs| :: attrs[i].levels == [] {
        var i :| 0 <= i < |attrs| && attrs[i].levels == [];
        if i < n {
          assert attrs[..n][i] == attrs[i];
        }
      }
    }
  }

  /** Every attribute's level count divides into the design space: it is at least each count. */
  lemma {:induction false} LevelProductCovers(attrs: seq<Attribute>, i: nat)
    requires HasLevels(attrs) && i < |attrs|
    ensures LevelProduct(attrs) >= |attrs[i].levels| >= 1
  {
    var n := |attrs| - 1;
    assert attrs[i] in attrs && attrs[n] in attrs;
    assert forall a | a in attrs[..n] :: a in attrs;
    LevelProductPositive(attrs[..n]);
    ProductCovers(LevelProduct(attrs[..n]), |attrs[n].levels|);
    if i < n {
      assert attrs[..n][i] == attrs[i];
      LevelProductCovers(attrs[..n], i);
    }
  }

  /** A product of two positive integers is at least each of them. */
  lemma {:induction false} ProductCovers(p: int, l: int)
    requires p >= 1 && l >= 1
    ensures p * l >= p && p * l >= l
  {
    assert p * l == p + p * (l - 1) && p * (l - 1) >= 0;
    assert p * l == l + (p - 1) * l && (p - 1) * l >= 0;
  }

  lemma {:induction false} LevelProductPositive(attrs: seq<Attribute>)
    requires forall a | a in attrs :: a.levels != []
    ensures LevelProduct(attrs) >= 1
  {
    if attrs != [] {
      var n := |attrs| - 1;
      assert attrs[n] in attrs;
      assert forall a | a in attrs[..n] :: a in attrs;
      LevelProductPositive(attrs[..n]);
    }
  }

  /** `estimate_parameters_count`: main effects only, with no interaction terms. */
  function EstimateParametersCount(grid: DesignGrid): (p: int)
    ensures p == TotalLevels(grid.attributes) - |grid.attributes|
    ensures HasLevels(grid.attributes) ==> p >= 0
  {
    ParameterCountByTotal(grid.attributes);
    var interactionEffects := 0;
    ParameterCount(grid.attributes) + interactionEffects
  }

  /** One parameter per level, less one reference level per attribute. */
  lemma {:induction false} ParameterCountByTotal(attrs: seq<Attribute>)
    ensures ParameterCount(attrs) == TotalLevels(attrs) - |attrs|
    ensures HasLevels(attrs) ==> ParameterCount(attrs) >= 0
  {
    if HasLevels(attrs) {
      ParameterCountNonNegative(attrs);
    }
    if attrs != [] {
      ParameterCountByTotal(attrs[..|attrs| - 1]);
    }
  }

  /** `math.sqrt(2)` as the double it evaluates to. */
  const Sqrt2: real := 1.4142135623730951

  /** The critical value for the significance level. */
  function ZValue(alpha: real): (z: real)
    ensures z == 1.96 || z == 2.576 || z == 1.645
  {
    if alpha == 0.05 then 1.96 else if alpha == 0.01 then 2.576 else 1.645
  }

  /**
   * `calculate_statistical_power`: 0.0 when the observations, respondents × screens × (options − 1),
   * do not exceed the parameter count; otherwise the normal approximation, clamped into [0, 1].
   */
  function StatisticalPower(numRespondents: int, numScreens: int, optionsPerScreen: int, parameterCount: int,
                            effectSize: real, alpha: real, num: PowerNumerics): (power: real)
    ensures 0.0 <= power <= 1.0
    ensures numRespondents * numScreens * (optionsPerScreen - 1) <= parameterCount ==> power == 0.0
  {
    var observations := numRespondents * numScreens * (optionsPerScreen - 1);
    if observations - parameterCount <= 0 then 0.0
    else
      var ncp := effectSize * num.sqrt(observations as real);
      var zBeta := ncp - ZValue(alpha);
      var raw := 0.5 * (1.0 + num.erf(zBeta / Sqrt2));
      if raw > 1.0 then 1.0 else if raw < 0.0 then 0.0 else raw
  }

  /** `meets` never turns false again once it holds, on [lo, hi]. */
  ghost predicate Monotone(meets: int -> bool, lo: int, hi: int) {
    forall x, y | lo <= x <= y <= hi :: meets(x) ==> meets(y)
  }

  /**
   * What a search over [lo, hi] settles on: a value in the range when it is non-empty, `hi`
   * or a value meeting the target, and the least value meeting it when `meets` is monotone.
   */
  ghost predicate LeastOrHi(meets: int -> bool, lo: int, hi: int, best: int) {
    && (lo <= hi ==> lo <= best <= hi)
    && (best == hi || meets(best))
    && (Monotone(meets, lo, hi) ==> forall x | lo <= x < best :: !meets(x))
  }

  /**
   * The binary search the three optimisers share: starting from `best = hi`, record every
   * midpoint that meets the target and search below it, otherwise search above it.
   */
  method SearchLeast(lo: int, hi: int, meets: int -> bool) returns (best: int)
    ensures lo <= hi ==> lo <= best <= hi
    ensures lo > hi ==> best == hi
    ensures best == hi || meets(best)
    ensures Monotone(meets, lo, hi) ==> forall x | lo <= x < best :: !meets(x)
    ensures Monotone(meets, lo, hi) && (exists x | lo <= x <= hi :: meets(x)) ==> meets(best)
  {
    var low, high := lo, hi;
    best := hi;
    while low <= high
      invariant lo <= low && high <= hi
      invariant lo <= hi + 1 ==> low <= high + 1
      invariant lo > hi ==> best == hi
      invariant lo <= hi ==> lo <= best <= hi
      invariant best == hi || meets(best)
      invariant best == high + 1 || (best == hi && high == hi)
      invariant Monotone(meets, lo, hi) ==> forall x | lo <= x < low :: !meets(x)
      decreases high - low
    {
      var mid := (low + high) / 2;
      if meets(mid) {
        best := mid;
        high := mid - 1;
      } else {
        low := mid + 1;
      }
    }
  }

  /** The target test of the respondent search, for a candidate respondent count. */
  function RespondentTest(grid: DesignGrid, numScreens: int, optionsPerScreen: int, targetPower: real,
                          effectSize: real, alpha: real, num: PowerNumerics): int -> bool
  {
    n => StatisticalPower(n, numScreens, optionsPerScreen, EstimateParametersCount(grid), effectSize, alpha, num) >= targetPower
  }

  /** `optimize_respondent_size`: the least respondent count in [1, max] reaching the target power. */
  method OptimizeRespondentSize(grid: DesignGrid, numScreens: int, optionsPerScreen: int, targetPower: real,
                                effectSize: real, alpha: real, maxRespondents: int, num: PowerNumerics)
    returns (best: int)
    ensures 1 <= maxRespondents ==> 1 <= best <= maxRespondents
    ensures maxRespondents < 1 ==> best == maxRespondents
    ensures var meets := RespondentTest(grid, numScreens, optionsPerScreen, targetPower, effectSize, alpha, num);
            && (best == maxRespondents || meets(best))
            && (Monotone(meets, 1, maxRespondents) ==> forall x | 1 <= x < best :: !meets(x))
  {
    best := SearchLeast(1, maxRespondents, RespondentTest(grid, numScreens, optionsPerScreen, targetPower, effectSize, alpha, num));
  }

  /** The target test of the screen search, for a candidate screen count. */
  function ScreenTest(grid: DesignGrid, numRespondents: int, optionsPerScreen: int, targetPower: real,
                      effectSize: real, alpha: real, num: PowerNumerics): int -> bool
  {
    t => StatisticalPower(numRespondents, t, optionsPerScreen, EstimateParametersCount(grid), effectSize, alpha, num) >= targetPower
  }

  /** `optimize_screen_count`: the least screen count in [1, max] reaching the target power. */
  method OptimizeScreenCount(grid: DesignGrid, numRespondents: int, optionsPerScreen: int, targetPower: real,
                             effectSize: real, alpha: real, maxScreens: int, num: PowerNumerics)
    returns (best: int)
    ensures 1 <= maxScreens ==> 1 <= best <= maxScreens
    ensures maxScreens < 1 ==> best == maxScreens
    ensures var meets := ScreenTest(grid, numRespondents, optionsPerScreen, targetPower, effectSize, alpha, num);
            && (best == maxScreens || meets(best))
            && (Monotone(meets, 1, maxScreens) ==> forall x | 1 <= x < best :: !meets(x))
  {
    best := SearchLeast(1, maxScreens, ScreenTest(grid, numRespondents, optionsPerScreen, targetPower, effectSize, alpha, num));
  }

  /** The target test of the option search, for a candidate option count. */
  function OptionTest(grid: DesignGrid, numRespondents: int, numScreens: int, targetPower: real,
                      effectSize: real, alpha: real, num: PowerNumerics): int -> bool
  {
    o => StatisticalPower(numRespondents, numScreens, o, EstimateParametersCount(grid), effectSize, alpha, num) >= targetPower
  }

  /** `optimize_options_per_screen`: the least option count in [2, max] reaching the target power. */
  method OptimizeOptionsPerScreen(grid: DesignGrid, numRespondents: int, numScreens: int, targetPower: real,
                                  effectSize: real, alpha: real, maxOptions: int, num: PowerNumerics)
    returns (best: int)
    ensures 2 <= maxOptions ==> 2 <= best <= maxOptions
    ensures maxOptions < 2 ==> best == maxOptions
    ensures var meets := OptionTest(grid, numRespondents, numScreens, targetPower, effectSize, alpha, num);
            && (best == maxOptions || meets(best))
            && (Monotone(meets, 2, maxOptions) ==> forall x | 2 <= x < best :: !meets(x))
  {
    best := SearchLeast(2, maxOptions, OptionTest(grid, numRespondents, numScreens, targetPower, effectSize, alpha, num));
  }
}
