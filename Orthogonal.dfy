/**
 * The orthogonal-array generator: for grids whose attributes all have two levels it toggles
 * each attribute's level by the parity of screen + option + attribute position; any other
 * grid falls back to the balanced-overlap generator.
 */
module Orthogonal {
  import opened Wrappers
  import opened Seqs
  import opened Designs
  import Balanced

  /** `all(len(a.levels) == 2 for a in grid.attributes)`, true for an empty grid. */
  predicate AllTwoLevel(attrs: seq<Attribute>) {
    forall a | a in attrs :: |a.levels| == 2
  }

  /** The level index of the attribute at position `a` in option `k` of screen `t`. */
  function ToggleIndex(t: int, k: int, a: int): (i: int)
    ensures i == 0 || i == 1
  {
    (t + k + a) % 2
  }

  /** The option after the first `j` attributes have written their toggled level. */
  function ToggleOption(attrs: seq<Attribute>, j: nat, t: int, k: int): Option
    requires j <= |attrs| && AllTwoLevel(attrs)
  {
    if j == 0 then map[]
    else
      assert attrs[j - 1] in attrs;
      ToggleOption(attrs, j - 1, t, k)[attrs[j - 1].name := attrs[j - 1].levels[ToggleIndex(t, k, j - 1)].name]
  }

  /** Option `k` of screen `t` in the two-level branch. */
  function OrthogonalOption(attrs: seq<Attribute>, t: int, k: int): Option
    requires AllTwoLevel(attrs)
  {
    ToggleOption(attrs, |attrs|, t, k)
  }

  function OrthogonalOptions(attrs: seq<Attribute>, t: int, count: nat): seq<Option>
    requires AllTwoLevel(attrs)
  {
    seq(count, k requires 0 <= k < count => OrthogonalOption(attrs, t, k))
  }

  /** The two-level branch's design: `n` screens of `o` toggled options each. */
  function OrthogonalDesign(attrs: seq<Attribute>, o: int, n: int): Design
    requires AllTwoLevel(attrs)
  {
    seq(Count(n), t requires 0 <= t < Count(n) => ChoiceTask(t + 1, OrthogonalOptions(attrs, t, Count(o))))
  }

  lemma {:induction false} OrthogonalOptionsSnoc(attrs: seq<Attribute>, t: int, count: nat)
    requires AllTwoLevel(attrs)
    ensures OrthogonalOptions(attrs, t, count + 1) == OrthogonalOptions(attrs, t, count) + [OrthogonalOption(attrs, t, count)]
  {
  }

  lemma {:induction false} OrthogonalDesignSnoc(attrs: seq<Attribute>, o: int, n: nat)
    requires AllTwoLevel(attrs)
    ensures OrthogonalDesign(attrs, o, n + 1)
            == OrthogonalDesign(attrs, o, n) + [ChoiceTask(n + 1, OrthogonalOptions(attrs, n, Count(o)))]
  {
  }

  /**
   * `generate_orthogonal_array_design`: the toggle design when every attribute has two
   * levels, and otherwise exactly what the balanced-overlap generator returns.
   */
  method GenerateOrthogonalArrayDesign(grid: DesignGrid, optionsPerScreen: int, numScreens: int)
    returns (r: Result<Design>)
    ensures AllTwoLevel(grid.attributes) ==> r == Ok(OrthogonalDesign(grid.attributes, optionsPerScreen, numScreens))
    ensures !AllTwoLevel(grid.attributes) ==>
              && (r.Err? <==> Count(numScreens) > 0 && !Balanced.NamedLevelsNonEmpty(grid.attributes))
              && (r.Err? ==> r.error == Balanced.ModuloByZero)
              && (r.Ok? ==> r.value == Balanced.BalancedDesign(grid.attributes, optionsPerScreen, numScreens))
  {
    var attrs := grid.attributes;
    var twoLevel := forall a | a in attrs :: |a.levels| == 2;
    if !twoLevel {
      r := Balanced.GenerateBalancedOverlapDesign(grid, optionsPerScreen, numScreens);
      return;
    }
    var tasks: Design := [];
    var taskIdx := 0;
    while taskIdx < numScreens
      invariant 0 <= taskIdx <= Count(numScreens)
      invariant tasks == OrthogonalDesign(attrs, optionsPerScreen, taskIdx)
    {
      var options := BuildToggleOptions(attrs, taskIdx, optionsPerScreen);
      OrthogonalDesignSnoc(attrs, optionsPerScreen, taskIdx);
      tasks := tasks + [ChoiceTask(taskIdx + 1, options)];
      taskIdx := taskIdx + 1;
    }
    return Ok(tasks);
  }

  /** The options of screen `taskIdx` in the two-level branch. */
  method BuildToggleOptions(attrs: seq<Attribute>, taskIdx: int, optionsPerScreen: int) returns (options: seq<Option>)
    requires AllTwoLevel(attrs)
    ensures options == OrthogonalOptions(attrs, taskIdx, Count(optionsPerScreen))
  {
    options := [];
    var optIdx := 0;
    while optIdx < optionsPerScreen
      invariant 0 <= optIdx <= Count(optionsPerScreen)
      invariant options == OrthogonalOptions(attrs, taskIdx, optIdx)
    {
      var option := BuildToggleOption(attrs, taskIdx, optIdx);
      OrthogonalOptionsSnoc(attrs, taskIdx, optIdx);
      options := options + [option];
      optIdx := optIdx + 1;
    }
  }

  /** One option of the two-level branch: every attribute writes its toggled level. */
  method BuildToggleOption(attrs: seq<Attribute>, taskIdx: int, optIdx: int) returns (option: Option)
    requires AllTwoLevel(attrs)
    ensures option == OrthogonalOption(attrs, taskIdx, optIdx)
  {
    option := map[];
    for aIdx := 0 to |attrs|
      invariant option == ToggleOption(attrs, aIdx, taskIdx, optIdx)
    {
      var attr := attrs[aIdx];
      assert attr in attrs;
      var levelIdx := (taskIdx + optIdx + aIdx) % 2;
      option := option[attr.name := attr.levels[levelIdx].name];
    }
  }

  /**
   * The value a name holds after `j` attributes: the toggled level of the last attribute
   * among them that carries the name.
   */
  lemma {:induction false} ToggleOptionAt(attrs: seq<Attribute>, j: nat, t: int, k: int, n: string)
    requires j <= |attrs| && AllTwoLevel(attrs) && n in AttributeNames(attrs[..j])
    ensures var p := LastPosition(attrs[..j], n);
      && n in ToggleOption(attrs, j, t, k)
      && |attrs[p].levels| == 2
      && ToggleOption(attrs, j, t, k)[n] == attrs[p].levels[ToggleIndex(t, k, p)].name
  {
    var p := LastPosition(attrs[..j], n);
    assert attrs[..j][p] == attrs[p];
    assert attrs[p] in attrs;
    if attrs[j - 1].name != n {
      assert attrs[..j][..j - 1] == attrs[..j - 1];
      AttributeNamesPrefix(attrs, j - 1);
      ToggleOptionAt(attrs, j - 1, t, k, n);
    }
  }

  lemma {:induction false} ToggleOptionKeys(attrs: seq<Attribute>, j: nat, t: int, k: int)
    requires j <= |attrs| && AllTwoLevel(attrs)
    ensures ToggleOption(attrs, j, t, k).Keys == AttributeNames(attrs[..j])
  {
    if j > 0 {
      ToggleOptionKeys(attrs, j - 1, t, k);
      AttributeNamesPrefix(attrs, j - 1);
    }
  }

  /** Every toggled option names each attribute once, with a level of the last attribute of that name. */
  lemma {:induction false} OrthogonalOptionKept(attrs: seq<Attribute>, t: int, k: int)
    requires AllTwoLevel(attrs)
    ensures KeptLevels(attrs, OrthogonalOption(attrs, t, k))
  {
    var option := OrthogonalOption(attrs, t, k);
    assert attrs[..|attrs|] == attrs;
    ToggleOptionKeys(attrs, |attrs|, t, k);
    forall n | n in option
      ensures option[n] in LevelsByName(attrs)[n]
    {
      ToggleOptionAt(attrs, |attrs|, t, k, n);
      LevelsByNameAt(attrs, n);
      var p := LastPosition(attrs, n);
      assert option[n] == LevelNames(attrs[p])[ToggleIndex(t, k, p)];
    }
  }

  /** The two-level design has the requested shape and only declared levels. */
  lemma {:induction false} OrthogonalDesignShape(attrs: seq<Attribute>, o: int, n: int)
    requires AllTwoLevel(attrs)
    ensures WellFormed(attrs, OrthogonalDesign(attrs, o, n), Count(o), Count(n))
    ensures AllKept(attrs, OrthogonalDesign(attrs, o, n))
  {
    var d := OrthogonalDesign(attrs, o, n);
    forall t, option | 0 <= t < |d| && option in d[t].options
      ensures KeptLevels(attrs, option) && OptionOk(attrs, option)
    {
      var k :| 0 <= k < |d[t].options| && d[t].options[k] == option;
      OrthogonalOptionKept(attrs, t, k);
      KeptLevelsOk(attrs, option);
    }
  }

  /** With distinct names, attribute `a` of option `k` on screen `t` takes level (t + k + a) mod 2. */
  lemma {:induction false} OrthogonalOptionDistinct(attrs: seq<Attribute>, t: int, k: int, a: nat)
    requires AllTwoLevel(attrs) && DistinctNames(attrs) && a < |attrs|
    ensures |attrs[a].levels| == 2 && attrs[a].name in OrthogonalOption(attrs, t, k)
    ensures OrthogonalOption(attrs, t, k)[attrs[a].name] == attrs[a].levels[(t + k + a) % 2].name
  {
    assert attrs[..|attrs|] == attrs;
    NameIn(attrs, a);
    LastPositionDistinct(attrs, a);
    ToggleOptionAt(attrs, |attrs|, t, k, attrs[a].name);
  }

  /** Moving one option on equals moving one screen on. */
  lemma {:induction false} ToggleShift(attrs: seq<Attribute>, j: nat, t: int, k: int)
    requires j <= |attrs| && AllTwoLevel(attrs)
    ensures ToggleOption(attrs, j, t + 1, k) == ToggleOption(attrs, j, t, k + 1)
  {
    if j > 0 {
      ToggleShift(attrs, j - 1, t, k);
      assert ToggleIndex(t + 1, k, j - 1) == ToggleIndex(t, k + 1, j - 1);
    }
  }

  /** Option k of screen t + 1 equals option k + 1 of screen t. */
  lemma {:induction false} OrthogonalShift(attrs: seq<Attribute>, t: int, k: int)
    requires AllTwoLevel(attrs)
    ensures OrthogonalOption(attrs, t + 1, k) == OrthogonalOption(attrs, t, k + 1)
  {
    ToggleShift(attrs, |attrs|, t, k);
  }

  /**
   * Adjacent options of a screen differ in every attribute whose (kept) two level names
   * differ, which validation guarantees.
   */
  lemma {:induction false} OrthogonalAdjacentDiffer(attrs: seq<Attribute>, t: int, k: int, n: string)
    requires AllTwoLevel(attrs) && n in AttributeNames(attrs)
    requires Distinct(LevelsByName(attrs)[n])
    ensures n in OrthogonalOption(attrs, t, k) && n in OrthogonalOption(attrs, t, k + 1)
    ensures OrthogonalOption(attrs, t, k)[n] != OrthogonalOption(attrs, t, k + 1)[n]
  {
    assert attrs[..|attrs|] == attrs;
    ToggleOptionAt(attrs, |attrs|, t, k, n);
    ToggleOptionAt(attrs, |attrs|, t, k + 1, n);
    LevelsByNameAt(attrs, n);
    var p := LastPosition(attrs, n);
    ToggleAdjacent(t, k, p);
    DistinctAt(LevelNames(attrs[p]), ToggleIndex(t, k, p), ToggleIndex(t, k + 1, p));
  }

  lemma {:induction false} ToggleAdjacent(t: int, k: int, p: int)
    ensures ToggleIndex(t, k, p) != ToggleIndex(t, k + 1, p)
  {
  }

  /** An empty grid takes the two-level branch and every option is the empty map. */
  lemma {:induction false} EmptyGridOptions(t: int, k: int)
    ensures AllTwoLevel([])
    ensures OrthogonalOption([], t, k) == map[]
  {
  }
}
