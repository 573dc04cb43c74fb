/** The minimal grid validation every design request passes before generation. */
module Validation {
  import opened Wrappers
  import opened Seqs
  import opened Designs

  /** An attribute passes: it has a level and no two of its levels share a name. */
  predicate AttributeOk(a: Attribute) {
    |a.levels| > 0 && Distinct(LevelNames(a))
  }

  /** The failure message for an attribute, as the checks are made in order. */
  function AttributeError(a: Attribute): string {
    if |a.levels| == 0 then "Attribute '" + a.name + "' must include at least one level"
    else "Duplicate level names in attribute '" + a.name + "'"
  }

  /** A grid the validator accepts. */
  predicate ValidGrid(g: DesignGrid) {
    |g.attributes| > 0 && forall a | a in g.attributes :: AttributeOk(a)
  }

  /** Checks the attributes in order and reports the first one that fails. */
  function ValidateAttributes(attrs: seq<Attribute>): (r: Result<()>)
    ensures r.Ok? <==> forall a | a in attrs :: AttributeOk(a)
    ensures r.Err? ==> exists j | 0 <= j < |attrs| ::
      && !AttributeOk(attrs[j])
      && (forall i | 0 <= i < j :: AttributeOk(attrs[i]))
      && r.error == AttributeError(attrs[j])
  {
    if attrs == [] then Ok(())
    else
      var a := attrs[0];
      var names := LevelNames(a);
      DistinctIffSetSize(names);
      assert a in attrs;
      if |a.levels| == 0 then
        Err("Attribute '" + a.name + "' must include at least one level")
      else if |ToSet(names)| != |names| then
        Err("Duplicate level names in attribute '" + a.name + "'")
      else
        var rest := ValidateAttributes(attrs[1..]);
        assert forall b | b in attrs :: b == a || b in attrs[1..];
        if rest.Err? then
          var j :| 0 <= j < |attrs[1..]| && !AttributeOk(attrs[1..][j])
                   && (forall i | 0 <= i < j :: AttributeOk(attrs[1..][i]))
                   && rest.error == AttributeError(attrs[1..][j]);
          assert attrs[j + 1] == attrs[1..][j];
          rest
        else rest
  }

  /** `validate_grid`: Ok exactly on a valid grid, otherwise the first failure's message. */
  function ValidateGrid(g: DesignGrid): (r: Result<()>)
    ensures r.Ok? <==> ValidGrid(g)
    ensures |g.attributes| == 0 ==> r == Err("Design grid must include at least one attribute")
    ensures |g.attributes| > 0 && r.Err? ==> exists j | 0 <= j < |g.attributes| ::
      && !AttributeOk(g.attributes[j])
      && (forall i | 0 <= i < j :: AttributeOk(g.attributes[i]))
      && r.error == AttributeError(g.attributes[j])
  {
    if |g.attributes| == 0 then Err("Design grid must include at least one attribute")
    else ValidateAttributes(g.attributes)
  }

  /** A valid grid gives every attribute a level, which the generators rely on. */
  lemma {:induction false} ValidGridHasLevels(g: DesignGrid)
    requires ValidGrid(g)
    ensures HasLevels(g.attributes)
  {
  }

  /**
   * Only level names are checked: two attributes sharing a name are accepted, and so are
   * repeated level codes.
   */
  lemma {:induction false} DuplicateAttributeNamesAccepted()
    ensures var a := Attribute("Brand", [AttributeLevel("A", None)]);
            ValidateGrid(DesignGrid([a, a], [])).Ok?
  {
    var a := Attribute("Brand", [AttributeLevel("A", None)]);
    assert LevelNames(a) == ["A"];
  }

  /** A repeated level name is rejected with the attribute named in the message. */
  lemma {:induction false} DuplicateLevelRejected()
    ensures var a := Attribute("Price", [AttributeLevel("$1", None), AttributeLevel("$1", None)]);
            ValidateGrid(DesignGrid([a], [])) == Err("Duplicate level names in attribute 'Price'")
  {
    var a := Attribute("Price", [AttributeLevel("$1", None), AttributeLevel("$1", None)]);
    assert LevelNames(a) == ["$1", "$1"];
    assert LevelNames(a)[0] == LevelNames(a)[1];
    assert !Distinct(LevelNames(a));
    assert !AttributeOk(a);
  }
}
