/** The naive random generator: every level drawn independently and uniformly. */
module RandomDesign {
  import opened Wrappers
  import opened Designs

  /** One `{"attribute": ..., "level": ...}` entry of the level space. */
  datatype LevelChoice = LevelChoice(attribute: string, level: string)

  /** The message `random.choice` raises on an empty list. */
  const EmptyChoice := "IndexError: Cannot choose from an empty sequence"

  /** The choices of one attribute, one per declared level, in order. */
  function Choices(a: Attribute): (cs: seq<LevelChoice>)
    ensures |cs| == |a.levels|
    ensures forall l | 0 <= l < |cs| :: cs[l].attribute == a.name && cs[l].level == a.levels[l].name
  {
    seq(|a.levels|, l requires 0 <= l < |a.levels| => LevelChoice(a.name, a.levels[l].name))
  }

  /** `_enumerate_attribute_levels`: the level space, one list of choices per attribute. */
  method EnumerateAttributeLevels(attrs: seq<Attribute>) returns (space: seq<seq<LevelChoice>>)
    ensures |space| == |attrs|
    ensures forall j | 0 <= j < |attrs| :: space[j] == Choices(attrs[j])
  {
    space := [];
    for j := 0 to |attrs|
      invariant |space| == j
      invariant forall i | 0 <= i < j :: space[i] == Choices(attrs[i])
    {
      space := space + [Choices(attrs[j])];
    }
  }

  /** One option: a level drawn for each attribute in turn, later attributes overwriting earlier ones of the same name. */
  method DrawOption(attrs: seq<Attribute>, levelSpace: seq<seq<LevelChoice>>) returns (r: Result<Option>)
    requires |levelSpace| == |attrs| && forall j | 0 <= j < |attrs| :: levelSpace[j] == Choices(attrs[j])
    ensures r.Err? <==> !HasLevels(attrs)
    ensures r.Err? ==> r.error == EmptyChoice
    ensures r.Ok? ==> KeptLevels(attrs, r.value)
  {
    var option: Option := map[];
    var j := 0;
    while j < |levelSpace|
      invariant 0 <= j <= |attrs|
      invariant KeptLevels(attrs[..j], option)
      invariant HasLevels(attrs[..j])
    {
      var perAttributeLevels := levelSpace[j];
      if |perAttributeLevels| == 0 {
        assert attrs[j] in attrs;
        return Err(EmptyChoice);
      }
      var c :| 0 <= c < |perAttributeLevels|;
      var chosen := perAttributeLevels[c];
      assert chosen.attribute == attrs[j].name && chosen.level == LevelNames(attrs[j])[c];
      KeptLevelsStep(attrs, j, option, chosen.level);
      HasLevelsStep(attrs, j);
      option := option[chosen.attribute := chosen.level];
      j := j + 1;
    }
    assert attrs[..j] == attrs;
    return Ok(option);
  }


  /**
   * `generate_random_design`. Each draw is an arbitrary index below the list's length.
   * The generator fails exactly when a draw is made from an attribute without levels.
   */
  method GenerateRandomDesign(grid: DesignGrid, optionsPerScreen: int, numScreens: int)
    returns (r: Result<Design>)
    ensures r.Err? <==> Count(numScreens) > 0 && Count(optionsPerScreen) > 0 && !HasLevels(grid.attributes)
    ensures r.Err? ==> r.error == EmptyChoice
    ensures r.Ok? ==> && WellFormed(grid.attributes, r.value, Count(optionsPerScreen), Count(numScreens))
                      && AllKept(grid.attributes, r.value)
  {
    var attrs := grid.attributes;
    var levelSpace := EnumerateAttributeLevels(attrs);
    var tasks: Design := [];
    var taskIdx := 0;
    while taskIdx < numScreens
      invariant 0 <= taskIdx <= Count(numScreens)
      invariant WellFormed(attrs, tasks, Count(optionsPerScreen), taskIdx) && AllKept(attrs, tasks)
      invariant taskIdx > 0 && Count(optionsPerScreen) > 0 ==> HasLevels(attrs)
    {
      var options: seq<Option> := [];
      var k := 0;
      while k < optionsPerScreen
        invariant 0 <= k <= Count(optionsPerScreen) && |options| == k
        invariant forall option | option in options :: KeptLevels(attrs, option) && OptionOk(attrs, option)
        invariant k > 0 ==> HasLevels(attrs)
      {
        var option :- DrawOption(attrs, levelSpace);
        KeptLevelsOk(attrs, option);
        options := options + [option];
        k := k + 1;
      }
      tasks := tasks + [ChoiceTask(taskIdx + 1, options)];
      taskIdx := taskIdx + 1;
    }
    return Ok(tasks);
  }
}
