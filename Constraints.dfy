/**
 * The constraint manager: prohibited and required attribute/level combinations, checked
 * against single options, whole designs and candidate lists. A combination is stored as
 * its sorted tuple of (attribute, level) pairs; since the attributes of a combination are
 * distinct, that tuple carries exactly the information of the map itself, so the sets
 * here are sets of `Option` maps and two combinations match iff the maps are equal.
 */
module Constraints {
  import opened Wrappers
  import opened Designs

  datatype Combination = Combination(attributes: Option, reason: Optional<string>)

  datatype LevelBalanceConstraint = LevelBalanceConstraint(
    attributeName: string, minFrequency: Optional<nat>, maxFrequency: Optional<nat>, tolerance: real)

  datatype CustomRule = CustomRule(name: string, condition: string, action: string, description: Optional<string>)

  datatype ConstraintSpec = ConstraintSpec(
    prohibited: seq<Combination>,
    required: seq<Combination>,
    levelBalance: seq<LevelBalanceConstraint>,
    customRules: seq<CustomRule>,
    maxComplexity: Optional<int>)

  /** Why `is_combination_valid` refused an option; the message text is not modelled. */
  datatype Reason = NoReason | ProhibitedCombination(combination: Option)

  /** One entry of the violation list of `validate_design`. */
  datatype Violation =
    | ProhibitedInTask(taskIndex: int, combination: Option)
    | MissingRequired(combination: Option)

  /** The lookup set built from a list of combinations: every listed pair set, duplicates collapsed. */
  ghost function CombinationSet(combos: seq<Combination>): set<Option> {
    set i | 0 <= i < |combos| :: combos[i].attributes
  }

  /** The constructor's set-building loop (`_build_prohibited_set` and `_build_required_set`). */
  method BuildCombinationSet(combos: seq<Combination>) returns (s: set<Option>)
    ensures s == CombinationSet(combos)
    ensures forall o :: o in s <==> exists i | 0 <= i < |combos| :: combos[i].attributes == o
  {
    s := {};
    for i := 0 to |combos|
      invariant s == CombinationSet(combos[..i])
    {
      assert combos[..i + 1] == combos[..i] + [combos[i]];
      CombinationSetSnoc(combos[..i], combos[i]);
      s := s + {combos[i].attributes};
    }
    assert combos[..|combos|] == combos;
  }

  lemma {:induction false} CombinationSetSnoc(combos: seq<Combination>, c: Combination)
    ensures CombinationSet(combos + [c]) == CombinationSet(combos) + {c.attributes}
  {
    var a := CombinationSet(combos + [c]);
    var b := CombinationSet(combos) + {c.attributes};
    forall o | o in a ensures o in b {
      var i :| 0 <= i < |combos| + 1 && (combos + [c])[i].attributes == o;
      if i < |combos| {
        assert combos[i].attributes == o;
      }
    }
    forall o | o in b ensures o in a {
      if o == c.attributes {
        assert (combos + [c])[|combos|].attributes == o;
      } else {
        var i :| 0 <= i < |combos| && combos[i].attributes == o;
        assert (combos + [c])[i].attributes == o;
      }
    }
  }

  /** The set collapses duplicates, so it never has more entries than the list. */
  lemma {:induction false} CombinationSetSize(combos: seq<Combination>)
    ensures |CombinationSet(combos)| <= |combos|
  {
    if combos != [] {
      var n := |combos| - 1;
      assert combos == combos[..n] + [combos[n]];
      CombinationSetSnoc(combos[..n], combos[n]);
      CombinationSetSize(combos[..n]);
    }
  }

  /** The options of a list that `is_combination_valid` accepts, in their original order. */
  function FilterValid(prohibited: set<Option>, options: seq<Option>): (r: seq<Option>)
    ensures |r| <= |options|
    ensures forall o | o in r :: o in options && o !in prohibited
  {
    if options == [] then []
    else
      var rest := FilterValid(prohibited, options[..|options| - 1]);
      var last := options[|options| - 1];
      if last in prohibited then rest else rest + [last]
  }

  /** Filtering distributes over concatenation: the filter keeps the relative order of the list. */
  lemma {:induction false} FilterValidAppend(prohibited: set<Option>, a: seq<Option>, b: seq<Option>)
    ensures FilterValid(prohibited, a + b) == FilterValid(prohibited, a) + FilterValid(prohibited, b)
    decreases |b|
  {
    if b != [] {
      var n := |b| - 1;
      assert (a + b)[..|a + b| - 1] == a + b[..n];
      assert (a + b)[|a + b| - 1] == b[n];
      FilterValidAppend(prohibited, a, b[..n]);
    } else {
      assert a + b == a;
    }
  }

  /** An option survives the filter iff it is listed and not prohibited. */
  lemma {:induction false} FilterValidMembers(prohibited: set<Option>, options: seq<Option>, o: Option)
    ensures o in FilterValid(prohibited, options) <==> o in options && o !in prohibited
  {
    if options != [] {
      var n := |options| - 1;
      assert options == options[..n] + [options[n]];
      FilterValidMembers(prohibited, options[..n], o);
    }
  }

  /** With nothing prohibited the filter returns the list unchanged. */
  lemma {:induction false} FilterValidNothingProhibited(options: seq<Option>)
    ensures FilterValid({}, options) == options
  {
    if options != [] {
      FilterValidNothingProhibited(options[..|options| - 1]);
      assert options == options[..|options| - 1] + [options[|options| - 1]];
    }
  }

  /** The violations of the options of one task, one per prohibited option, in option order. */
  function TaskViolations(prohibited: set<Option>, task: ChoiceTask): (r: seq<Violation>)
    ensures |r| <= |task.options|
    ensures forall v | v in r :: v.ProhibitedInTask? && v.taskIndex == task.taskIndex
                                 && v.combination in prohibited && v.combination in task.options
  {
    Tagged(task.taskIndex, Prohibited(prohibited, task.options))
  }

  /** One violation of screen `t` per option of `kept`, in order. */
  function Tagged(t: int, kept: seq<Option>): seq<Violation> {
    seq(|kept|, k requires 0 <= k < |kept| => ProhibitedInTask(t, kept[k]))
  }

  lemma {:induction false} TaggedSnoc(t: int, kept: seq<Option>, o: Option)
    ensures Tagged(t, kept + [o]) == Tagged(t, kept) + [ProhibitedInTask(t, o)]
  {
  }

  lemma {:induction false} ProhibitedStep(prohibited: set<Option>, options: seq<Option>, k: nat)
    requires k < |options|
    ensures Prohibited(prohibited, options[..k + 1])
            == Prohibited(prohibited, options[..k]) + (if options[k] in prohibited then [options[k]] else [])
  {
    assert options[..k + 1][..k] == options[..k];
  }

  /** The options of a list that are prohibited, in order. */
  function Prohibited(prohibited: set<Option>, options: seq<Option>): (r: seq<Option>)
    ensures |r| <= |options|
    ensures forall o | o in r :: o in options && o in prohibited
  {
    if options == [] then []
    else
      var rest := Prohibited(prohibited, options[..|options| - 1]);
      var last := options[|options| - 1];
      if last in prohibited then rest + [last] else rest
  }

  lemma {:induction false} ProhibitedMembers(prohibited: set<Option>, options: seq<Option>, o: Option)
    ensures o in Prohibited(prohibited, options) <==> o in options && o in prohibited
  {
    if options != [] {
      var n := |options| - 1;
      assert options == options[..n] + [options[n]];
      ProhibitedMembers(prohibited, options[..n], o);
    }
  }

  /** A list is split between its prohibited options and the ones the filter keeps. */
  lemma {:induction false} ProhibitedSplit(prohibited: set<Option>, options: seq<Option>)
    ensures |Prohibited(prohibited, options)| + |FilterValid(prohibited, options)| == |options|
  {
    if options != [] {
      ProhibitedSplit(prohibited, options[..|options| - 1]);
    }
  }

  /** The first half of `validate_design`'s violation list: prohibited options task by task. */
  function DesignViolations(prohibited: set<Option>, design: Design): seq<Violation> {
    if design == [] then []
    else DesignViolations(prohibited, design[..|design| - 1]) + TaskViolations(prohibited, design[|design| - 1])
  }

  /** `v` reports a prohibited option of `task`. */
  ghost predicate ViolatedBy(prohibited: set<Option>, task: ChoiceTask, v: Violation) {
    v.ProhibitedInTask? && v.taskIndex == task.taskIndex && v.combination in prohibited && v.combination in task.options
  }

  lemma {:induction false} TaskViolationsMembers(prohibited: set<Option>, task: ChoiceTask, v: Violation)
    ensures v in TaskViolations(prohibited, task) <==> ViolatedBy(prohibited, task, v)
  {
    if ViolatedBy(prohibited, task, v) {
      ProhibitedMembers(prohibited, task.options, v.combination);
      var kept := Prohibited(prohibited, task.options);
      var k :| 0 <= k < |kept| && kept[k] == v.combination;
      assert TaskViolations(prohibited, task)[k] == v;
    }
  }

  /** A violation is reported iff some task holds a prohibited option, labelled with that task's index. */
  lemma {:induction false} DesignViolationsMembers(prohibited: set<Option>, design: Design, v: Violation)
    ensures v in DesignViolations(prohibited, design)
            <==> exists t | 0 <= t < |design| :: ViolatedBy(prohibited, design[t], v)
  {
    if design != [] {
      var n := |design| - 1;
      DesignViolationsMembers(prohibited, design[..n], v);
      TaskViolationsMembers(prohibited, design[n], v);
      var before := DesignViolations(prohibited, design[..n]);
      assert DesignViolations(prohibited, design) == before + TaskViolations(prohibited, design[n]);
      if v in before {
        var t :| 0 <= t < n && ViolatedBy(prohibited, design[..n][t], v);
        assert design[..n][t] == design[t];
      }
      if exists t | 0 <= t < |design| :: ViolatedBy(prohibited, design[t], v) {
        var t :| 0 <= t < |design| && ViolatedBy(prohibited, design[t], v);
        if t < n {
          assert design[..n][t] == design[t];
        }
      }
    }
  }

  /** No prohibited-option violation iff no option of the design is prohibited. */
  lemma {:induction false} DesignViolationsEmpty(prohibited: set<Option>, design: Design)
    ensures DesignViolations(prohibited, design) == [] <==> forall o | o in Flatten(design) :: o !in prohibited
  {
    if design != [] {
      var n := |design| - 1;
      DesignViolationsEmpty(prohibited, design[..n]);
      ProhibitedSplit(prohibited, design[n].options);
      if Prohibited(prohibited, design[n].options) != [] {
        var o := Prohibited(prohibited, design[n].options)[0];
        ProhibitedMembers(prohibited, design[n].options, o);
      }
      forall o | o in design[n].options && o in prohibited
        ensures Prohibited(prohibited, design[n].options) != []
      {
        ProhibitedMembers(prohibited, design[n].options, o);
      }
    }
  }

  /** Every option that occurs anywhere in the design. */
  ghost function DesignCombinations(design: Design): set<Option> {
    set o | o in Flatten(design)
  }

  /** The required combinations no option of the design equals. */
  ghost function MissingCombinations(required: set<Option>, design: Design): set<Option> {
    required - DesignCombinations(design)
  }

  /** The collection loop of `_check_required_combinations`. */
  method CollectCombinations(design: Design) returns (s: set<Option>)
    ensures s == DesignCombinations(design)
  {
    s := {};
    for t := 0 to |design|
      invariant s == DesignCombinations(design[..t])
    {
      var options := design[t].options;
      for k := 0 to |options|
        invariant s == DesignCombinations(design[..t]) + set o | o in options[..k]
      {
        assert options[..k + 1] == options[..k] + [options[k]];
        s := s + {options[k]};
      }
      assert options[..|options|] == options;
      FlattenSnoc(design, t);
    }
    assert design[..|design|] == design;
  }

  /** `violations` reports each combination of `missing` exactly once, and nothing else. */
  ghost predicate ListsMissing(violations: seq<Violation>, missing: set<Option>) {
    && |violations| == |missing|
    && (forall i | 0 <= i < |violations| :: violations[i].MissingRequired? && violations[i].combination in missing)
    && (forall c | c in missing :: MissingRequired(c) in violations)
    && (forall i, j | 0 <= i < j < |violations| :: violations[i] != violations[j])
  }

  lemma {:induction false} ListsMissingSnoc(violations: seq<Violation>, missing: set<Option>, c: Option)
    requires ListsMissing(violations, missing) && c !in missing
    ensures ListsMissing(violations + [MissingRequired(c)], missing + {c})
  {
    var vs := violations + [MissingRequired(c)];
    forall i, j | 0 <= i < j < |vs| ensures vs[i] != vs[j] {
      if j == |violations| {
        assert vs[i].combination in missing;
      } else {
        assert vs[i] == violations[i] && vs[j] == violations[j];
      }
    }
  }

  /** The reporting loop of `_check_required_combinations`: each required combination not present, once. */
  method ReportMissing(required: set<Option>, present: set<Option>) returns (violations: seq<Violation>)
    ensures ListsMissing(violations, required - present)
  {
    violations := [];
    var rest := required;
    ghost var reported: set<Option> := {};
    while rest != {}
      invariant rest <= required
      invariant reported == (required - rest) - present
      invariant ListsMissing(violations, reported)
      decreases rest
    {
      var c :| c in rest;
      ghost var reported' := reported + (if c in present then {} else {c});
      var violations' := violations;
      if c !in present {
        violations' := violations + [MissingRequired(c)];
      }
      MissingStep(required, rest, present, c, violations, reported);
      violations, reported, rest := violations', reported', rest - {c};
    }
    assert required - rest == required;
  }

  /** One turn of the reporting loop keeps the report exact. */
  lemma {:induction false} MissingStep(required: set<Option>, rest: set<Option>, present: set<Option>, c: Option,
                    violations: seq<Violation>, reported: set<Option>)
    requires c in rest && rest <= required
    requires reported == (required - rest) - present && ListsMissing(violations, reported)
    ensures var reported' := reported + (if c in present then {} else {c});
            && reported' == (required - (rest - {c})) - present
            && ListsMissing(if c in present then violations else violations + [MissingRequired(c)], reported')
  {
    if c !in present {
      ListsMissingSnoc(violations, reported, c);
    }
  }

  /**
   * A stored constraint specification with its two lookup sets. The source builds the sets
   * once in its constructor and never assigns them again, so here they are immutable fields.
   */
  class ConstraintManager {
    const spec: ConstraintSpec
    const prohibitedSet: set<Option>
    const requiredSet: set<Option>

    /** The lookup sets are the pair sets of the specification's lists. */
    ghost predicate Valid() {
      prohibitedSet == CombinationSet(spec.prohibited) && requiredSet == CombinationSet(spec.required)
    }

    constructor (constraintSpec: ConstraintSpec)
      ensures spec == constraintSpec
      ensures Valid()
    {
      var prohibited := BuildCombinationSet(constraintSpec.prohibited);
      var required := BuildCombinationSet(constraintSpec.required);
      spec := constraintSpec;
      prohibitedSet := prohibited;
      requiredSet := required;
    }

    /**
     * `is_combination_valid`: an option is refused iff its whole pair set equals a prohibited
     * combination; the reason then names that combination, and is empty otherwise.
     */
    function IsCombinationValid(option: Option): (r: (bool, Reason))
      requires Valid()
      ensures r.0 <==> forall i | 0 <= i < |spec.prohibited| :: spec.prohibited[i].attributes != option
      ensures r.0 <==> r.1 == NoReason
      ensures !r.0 ==> r.1 == ProhibitedCombination(option)
    {
      if option in prohibitedSet then (false, ProhibitedCombination(option)) else (true, NoReason)
    }

    /** The second half of `validate_design`, `_check_required_combinations`. */
    method CheckRequiredCombinations(design: Design) returns (violations: seq<Violation>)
      requires Valid()
      ensures ListsMissing(violations, MissingCombinations(requiredSet, design))
    {
      var present := CollectCombinations(design);
      violations := ReportMissing(requiredSet, present);
    }

    /** The inner loop of `validate_design` over one task's options. */
    method CheckTask(task: ChoiceTask) returns (violations: seq<Violation>)
      requires Valid()
      ensures violations == TaskViolations(prohibitedSet, task)
    {
      violations := [];
      ghost var kept: seq<Option> := [];
      for k := 0 to |task.options|
        invariant kept == Prohibited(prohibitedSet, task.options[..k])
        invariant violations == Tagged(task.taskIndex, kept)
      {
        var option := task.options[k];
        var (valid, _) := IsCombinationValid(option);
        ProhibitedStep(prohibitedSet, task.options, k);
        if !valid {
          TaggedSnoc(task.taskIndex, kept, option);
          violations := violations + [ProhibitedInTask(task.taskIndex, option)];
          kept := kept + [option];
        }
      }
      assert task.options[..|task.options|] == task.options;
    }

    /**
     * `validate_design`: the prohibited-option violations in design order, then (only when the
     * required set is non-empty) one violation per missing required combination, in some order;
     * the design is valid iff the list is empty.
     */
    method ValidateDesign(design: Design) returns (ok: bool, violations: seq<Violation>)
      requires Valid()
      ensures ok <==> violations == []
      ensures |DesignViolations(prohibitedSet, design)| <= |violations|
      ensures violations[..|DesignViolations(prohibitedSet, design)|] == DesignViolations(prohibitedSet, design)
      ensures ListsMissing(violations[|DesignViolations(prohibitedSet, design)|..], MissingCombinations(requiredSet, design))
    {
      violations := [];
      for t := 0 to |design|
        invariant violations == DesignViolations(prohibitedSet, design[..t])
      {
        var found := CheckTask(design[t]);
        violations := violations + found;
        assert design[..t + 1][..t] == design[..t];
      }
      assert design[..|design|] == design;
      ghost var prefix := violations;
      if requiredSet != {} {
        var missing := CheckRequiredCombinations(design);
        violations := violations + missing;
        assert violations[|prefix|..] == missing;
      } else {
        assert violations[|prefix|..] == [];
      }
      ok := |violations| == 0;
    }

    /** `filter_valid_options`: the options `is_combination_valid` accepts, in order; the grid is not consulted. */
    method FilterValidOptions(grid: DesignGrid, options: seq<Option>) returns (valid: seq<Option>)
      requires Valid()
      ensures valid == FilterValid(prohibitedSet, options)
    {
      valid := [];
      for k := 0 to |options|
        invariant valid == FilterValid(prohibitedSet, options[..k])
      {
        var (ok, _) := IsCombinationValid(options[k]);
        assert options[..k + 1][..k] == options[..k];
        if ok {
          valid := valid + [options[k]];
        }
      }
      assert options[..|options|] == options;
    }

    /** `get_constraint_summary`: the lengths of the specification's four lists, duplicates included. */
    function ConstraintSummary(): (r: map<string, int>)
      ensures r.Keys == {"prohibited_combinations", "required_combinations", "level_balance_constraints", "custom_rules"}
      ensures r["prohibited_combinations"] == |spec.prohibited| && r["required_combinations"] == |spec.required|
      ensures r["level_balance_constraints"] == |spec.levelBalance| && r["custom_rules"] == |spec.customRules|
      ensures Valid() ==> |prohibitedSet| <= r["prohibited_combinations"] && |requiredSet| <= r["required_combinations"]
    {
      CombinationSetSize(spec.prohibited);
      CombinationSetSize(spec.required);
      map["prohibited_combinations" := |spec.prohibited|,
          "required_combinations" := |spec.required|,
          "level_balance_constraints" := |spec.levelBalance|,
          "custom_rules" := |spec.customRules|]
    }
  }
}
