/**
 * The balanced-overlap generator: each attribute's levels are rotated across options and
 * screens by a per-name cursor that advances by the option count after every screen.
 */
module Balanced {
  import opened Wrappers
  import opened Seqs
  import opened Designs
  import opened Arith

  /** The message Python raises for `x % 0`. */
  const ModuloByZero := "ZeroDivisionError: integer modulo by zero"

  /** Every name's level list (the last attribute of that name wins) is non-empty. */
  predicate NamedLevelsNonEmpty(attrs: seq<Attribute>) {
    forall n | n in LevelsByName(attrs) :: |LevelsByName(attrs)[n]| > 0
  }

  /** The first `j` attributes were looked up and found a non-empty level list. */
  predicate CheckedUpTo(attrs: seq<Attribute>, j: int) {
    forall i | 0 <= i < j && i < |attrs| ::
      attrs[i].name in LevelsByName(attrs) && |LevelsByName(attrs)[attrs[i].name]| > 0
  }

  /** Every attribute of a grid with levels contributes a non-empty list under its name. */
  lemma {:induction false} HasLevelsNamedNonEmpty(attrs: seq<Attribute>)
    requires HasLevels(attrs)
    ensures NamedLevelsNonEmpty(attrs)
  {
    forall n | n in LevelsByName(attrs)
      ensures |LevelsByName(attrs)[n]| > 0
    {
      LevelsByNameAt(attrs, n);
      assert attrs[LastPosition(attrs, n)] in attrs;
    }
  }

  /** Looking every attribute up without failure means no name's list is empty, and back. */
  lemma {:induction false} EmptyNamedLevels(attrs: seq<Attribute>, j: nat)
    requires j < |attrs| && attrs[j].name in LevelsByName(attrs) && |LevelsByName(attrs)[attrs[j].name]| == 0
    ensures !NamedLevelsNonEmpty(attrs)
  {
  }

  lemma {:induction false} CheckedStep(attrs: seq<Attribute>, j: nat)
    requires j < |attrs| && CheckedUpTo(attrs, j)
    requires attrs[j].name in LevelsByName(attrs) && |LevelsByName(attrs)[attrs[j].name]| > 0
    ensures CheckedUpTo(attrs, j + 1)
  {
  }

  lemma {:induction false} CheckedAll(attrs: seq<Attribute>)
    ensures CheckedUpTo(attrs, |attrs|) <==> NamedLevelsNonEmpty(attrs)
  {
    if CheckedUpTo(attrs, |attrs|) {
      forall n | n in LevelsByName(attrs)
        ensures |LevelsByName(attrs)[n]| > 0
      {
        LevelsByNameAt(attrs, n);
      }
    }
    if NamedLevelsNonEmpty(attrs) {
      forall i | 0 <= i < |attrs|
        ensures attrs[i].name in LevelsByName(attrs)
      {
        NameIn(attrs, i);
      }
    }
  }

  /** The level index of option `k` on screen `t` for a cursor in a cycle of length `m`. */
  function RotIndex(cursor: int, k: int, t: int, m: int): (i: int)
    requires m > 0
    ensures 0 <= i < m
  {
    (cursor + k + t) % m
  }

  /**
   * The end-of-screen loop over the first `j` attributes: each one advances the cursor of
   * its name by `o`, modulo that name's level count.
   */
  function AdvancePrefix(attrs: seq<Attribute>, cursor: map<string, int>, o: int, j: nat): (next: map<string, int>)
    requires j <= |attrs| && AttributeNames(attrs) <= cursor.Keys && CheckedUpTo(attrs, j)
    ensures next.Keys == cursor.Keys
  {
    if j == 0 then cursor
    else
      var c := AdvancePrefix(attrs, cursor, o, j - 1);
      var name := attrs[j - 1].name;
      c[name := (c[name] + o) % |LevelsByName(attrs)[name]|]
  }

  /** `{attr.name: 0 for attr in attributes}` */
  function InitialCursor(attrs: seq<Attribute>): (cursor: map<string, int>)
    ensures cursor.Keys == AttributeNames(attrs)
  {
    map n | n in AttributeNames(attrs) :: 0
  }

  /** The cursors at the start of screen `t`: all zero, then one end-of-screen loop per screen. */
  function CursorAt(attrs: seq<Attribute>, t: nat, o: int): (cursor: map<string, int>)
    requires NamedLevelsNonEmpty(attrs)
    ensures cursor.Keys == AttributeNames(attrs)
  {
    if t == 0 then InitialCursor(attrs)
    else
      CheckedAll(attrs);
      AdvancePrefix(attrs, CursorAt(attrs, t - 1, o), o, |attrs|)
  }

  /** Option `k` of screen `t` read through the given cursors: every name takes its rotated level. */
  function RotatedOption(attrs: seq<Attribute>, cursor: map<string, int>, k: int, t: int): (option: Option)
    requires NamedLevelsNonEmpty(attrs) && AttributeNames(attrs) <= cursor.Keys
    ensures KeptLevels(attrs, option)
  {
    var lbn := LevelsByName(attrs);
    map n | n in AttributeNames(attrs) :: lbn[n][RotIndex(cursor[n], k, t, |lbn[n]|)]
  }

  /** Option `k` of screen `t`: level index (cursor + k + t) mod L for every attribute. */
  function BalancedOption(attrs: seq<Attribute>, t: nat, k: int, o: int): Option
    requires NamedLevelsNonEmpty(attrs)
  {
    RotatedOption(attrs, CursorAt(attrs, t, o), k, t)
  }

  /** The first `count` options of screen `t`. */
  function TaskOptions(attrs: seq<Attribute>, t: nat, o: int, count: nat): seq<Option>
    requires NamedLevelsNonEmpty(attrs)
  {
    seq(count, k requires 0 <= k < count => BalancedOption(attrs, t, k, o))
  }

  lemma {:induction false} TaskOptionsSnoc(attrs: seq<Attribute>, t: nat, o: int, count: nat)
    requires NamedLevelsNonEmpty(attrs)
    ensures TaskOptions(attrs, t, o, count + 1) == TaskOptions(attrs, t, o, count) + [BalancedOption(attrs, t, count, o)]
  {
  }

  function BalancedTask(attrs: seq<Attribute>, t: nat, o: int): ChoiceTask
    requires NamedLevelsNonEmpty(attrs)
  {
    ChoiceTask(t + 1, TaskOptions(attrs, t, o, Count(o)))
  }

  /** The design the generator returns when it does not fail: its first `n` screens. */
  function BalancedDesign(attrs: seq<Attribute>, o: int, n: int): Design
    requires Count(n) > 0 ==> NamedLevelsNonEmpty(attrs)
  {
    seq(Count(n), t requires 0 <= t < Count(n) => BalancedTask(attrs, t, o))
  }

  lemma {:induction false} BalancedDesignSnoc(attrs: seq<Attribute>, o: int, n: nat)
    requires NamedLevelsNonEmpty(attrs)
    ensures BalancedDesign(attrs, o, n + 1) == BalancedDesign(attrs, o, n) + [BalancedTask(attrs, n, o)]
  {
  }

  /** One option of a screen: every attribute in turn reads its rotated level. */
  method BuildOption(attrs: seq<Attribute>, cyclesIndex: map<string, int>, k: int, taskIdx: int)
    returns (r: Result<Option>)
    requires cyclesIndex.Keys == AttributeNames(attrs)
    ensures r.Err? <==> !NamedLevelsNonEmpty(attrs)
    ensures r.Err? ==> r.error == ModuloByZero
    ensures r.Ok? ==> NamedLevelsNonEmpty(attrs) && r.value == RotatedOption(attrs, cyclesIndex, k, taskIdx)
  {
    var levelCycles := LevelsByName(attrs);
    var option: Option := map[];
    for j := 0 to |attrs|
      invariant RotatedUpTo(attrs, cyclesIndex, k, taskIdx, j, option)
    {
      NameIn(attrs, j);
      var name := attrs[j].name;
      var levels := levelCycles[name];
      if |levels| == 0 {
        EmptyNamedLevels(attrs, j);
        return Err(ModuloByZero);
      }
      var idx := (cyclesIndex[name] + k + taskIdx) % |levels|;
      RotatedStep(attrs, cyclesIndex, k, taskIdx, j, option);
      option := option[name := levels[idx]];
    }
    RotatedComplete(attrs, cyclesIndex, k, taskIdx, option);
    return Ok(option);
  }

  lemma {:induction false} RotatedComplete(attrs: seq<Attribute>, cursor: map<string, int>, k: int, t: int, option: Option)
    requires cursor.Keys == AttributeNames(attrs) && RotatedUpTo(attrs, cursor, k, t, |attrs|, option)
    ensures NamedLevelsNonEmpty(attrs)
    ensures option == RotatedOption(attrs, cursor, k, t)
  {
    assert attrs[..|attrs|] == attrs;
  }

  /** The option built from the first `j` attributes: each name read at its rotated index. */
  ghost predicate RotatedUpTo(attrs: seq<Attribute>, cursor: map<string, int>, k: int, t: int, j: nat, option: Option)
    requires j <= |attrs|
  {
    var lbn := LevelsByName(attrs);
    && option.Keys == AttributeNames(attrs[..j]) && option.Keys <= lbn.Keys && option.Keys <= cursor.Keys
    && forall n | n in option :: |lbn[n]| > 0 && option[n] == lbn[n][RotIndex(cursor[n], k, t, |lbn[n]|)]
  }

  lemma {:induction false} RotatedStep(attrs: seq<Attribute>, cursor: map<string, int>, k: int, t: int, j: nat, option: Option)
    requires j < |attrs| && cursor.Keys == AttributeNames(attrs) && RotatedUpTo(attrs, cursor, k, t, j, option)
    requires attrs[j].name in LevelsByName(attrs) && |LevelsByName(attrs)[attrs[j].name]| > 0
    ensures var lbn := LevelsByName(attrs);
            var name := attrs[j].name;
            RotatedUpTo(attrs, cursor, k, t, j + 1,
                        option[name := lbn[name][(cursor[name] + k + t) % |lbn[name]|]])
  {
    AttributeNamesPrefix(attrs, j);
    NameIn(attrs, j);
  }

  /** The end-of-screen loop: each attribute advances its name's cursor by `o`, modulo L. */
  method AdvanceCycles(attrs: seq<Attribute>, cyclesIndex: map<string, int>, o: int)
    returns (r: Result<map<string, int>>)
    requires cyclesIndex.Keys == AttributeNames(attrs)
    ensures r.Err? <==> !NamedLevelsNonEmpty(attrs)
    ensures r.Err? ==> r.error == ModuloByZero
    ensures r.Ok? ==> NamedLevelsNonEmpty(attrs) && CheckedUpTo(attrs, |attrs|)
                      && r.value == AdvancePrefix(attrs, cyclesIndex, o, |attrs|)
  {
    var levelCycles := LevelsByName(attrs);
    var cycles := cyclesIndex;
    for j := 0 to |attrs|
      invariant CheckedUpTo(attrs, j)
      invariant cycles == AdvancePrefix(attrs, cyclesIndex, o, j)
    {
      NameIn(attrs, j);
      var name := attrs[j].name;
      var levels := levelCycles[name];
      if |levels| == 0 {
        EmptyNamedLevels(attrs, j);
        return Err(ModuloByZero);
      }
      CheckedStep(attrs, j);
      cycles := cycles[name := (cycles[name] + o) % |levels|];
    }
    CheckedAll(attrs);
    return Ok(cycles);
  }

  /** The options of screen `taskIdx`, read through the cursors at its start. */
  method BuildTask(attrs: seq<Attribute>, cyclesIndex: map<string, int>, taskIdx: nat, optionsPerScreen: int)
    returns (r: Result<ChoiceTask>)
    requires cyclesIndex.Keys == AttributeNames(attrs)
    requires NamedLevelsNonEmpty(attrs) ==> cyclesIndex == CursorAt(attrs, taskIdx, optionsPerScreen)
    ensures r.Err? <==> Count(optionsPerScreen) > 0 && !NamedLevelsNonEmpty(attrs)
    ensures r.Err? ==> r.error == ModuloByZero
    ensures r.Ok? && Count(optionsPerScreen) > 0 ==> NamedLevelsNonEmpty(attrs)
    ensures r.Ok? && NamedLevelsNonEmpty(attrs) ==> r.value == BalancedTask(attrs, taskIdx, optionsPerScreen)
    ensures r.Ok? ==> r.value.taskIndex == taskIdx + 1 && |r.value.options| == Count(optionsPerScreen)
  {
    var options: seq<Option> := [];
    var k := 0;
    while k < optionsPerScreen
      invariant 0 <= k <= Count(optionsPerScreen) && |options| == k
      invariant k > 0 ==> NamedLevelsNonEmpty(attrs)
      invariant k > 0 ==> options == TaskOptions(attrs, taskIdx, optionsPerScreen, k)
    {
      var option :- BuildOption(attrs, cyclesIndex, k, taskIdx);
      TaskOptionsSnoc(attrs, taskIdx, optionsPerScreen, k);
      options := options + [option];
      k := k + 1;
    }
    if k == 0 && NamedLevelsNonEmpty(attrs) {
      assert options == TaskOptions(attrs, taskIdx, optionsPerScreen, 0);
    }
    return Ok(ChoiceTask(taskIdx + 1, options));
  }

  /**
   * `generate_balanced_overlap_design`. It fails (modulo by zero) exactly when at least one
   * screen is requested and some name's level list is empty; otherwise it returns the
   * rotation design.
   */
  method GenerateBalancedOverlapDesign(grid: DesignGrid, optionsPerScreen: int, numScreens: int)
    returns (r: Result<Design>)
    ensures r.Err? <==> Count(numScreens) > 0 && !NamedLevelsNonEmpty(grid.attributes)
    ensures r.Err? ==> r.error == ModuloByZero
    ensures r.Ok? ==> r.value == BalancedDesign(grid.attributes, optionsPerScreen, numScreens)
  {
    var attrs := grid.attributes;
    var cyclesIndex := InitialCursor(attrs);
    var tasks: Design := [];
    var taskIdx := 0;
    while taskIdx < numScreens
      invariant 0 <= taskIdx <= Count(numScreens) && |tasks| == taskIdx
      invariant cyclesIndex.Keys == AttributeNames(attrs)
      invariant taskIdx > 0 ==> NamedLevelsNonEmpty(attrs)
      invariant NamedLevelsNonEmpty(attrs) ==> cyclesIndex == CursorAt(attrs, taskIdx, optionsPerScreen)
      invariant tasks == BalancedDesign(attrs, optionsPerScreen, taskIdx)
    {
      var task :- BuildTask(attrs, cyclesIndex, taskIdx, optionsPerScreen);
      cyclesIndex :- AdvanceCycles(attrs, cyclesIndex, optionsPerScreen);
      BalancedDesignSnoc(attrs, optionsPerScreen, taskIdx);
      tasks := tasks + [task];
      taskIdx := taskIdx + 1;
    }
    return Ok(tasks);
  }

  /** A cursor at `cursor` after `steps` advances by `o`. */
  function Advanced(cursor: int, steps: int, o: int, m: int): (c: int)
    requires m > 0
    ensures 0 <= c < m
  {
    (cursor + steps * o) % m
  }

  /** The closed form of a cursor after `t` screens that each advance it by `step`. */
  function Cursor(t: int, step: int, m: int): (c: int)
    requires m > 0
    ensures 0 <= c < m
  {
    (t * step) % m
  }

  lemma {:induction false} AdvancedZero(cursor: int, o: int, m: int)
    requires m > 0 && 0 <= cursor < m
    ensures Advanced(cursor, 0, o, m) == cursor
  {
    DivModUnique(cursor, m, 0, cursor);
  }

  lemma {:induction false} AdvancedStep(cursor: int, steps: int, o: int, m: int)
    requires m > 0
    ensures (Advanced(cursor, steps, o, m) + o) % m == Advanced(cursor, steps + 1, o, m)
  {
    ModAdd(cursor + steps * o, o, m);
    assert cursor + steps * o + o == cursor + (steps + 1) * o;
  }

  lemma {:induction false} CursorStep(t: int, count: int, o: int, m: int)
    requires m > 0
    ensures Advanced(Cursor(t, count * o, m), count, o, m) == Cursor(t + 1, count * o, m)
  {
    ModStep(t, count * o, m);
  }

  /** After the first `j` attributes, a name's cursor has advanced once per attribute carrying it. */
  lemma {:induction false} AdvancePrefixClosed(attrs: seq<Attribute>, cursor: map<string, int>, o: int, j: nat, n: string)
    requires j <= |attrs| && AttributeNames(attrs) <= cursor.Keys && CheckedUpTo(attrs, j)
    requires n in AttributeNames(attrs) && |LevelsByName(attrs)[n]| > 0
    requires 0 <= cursor[n] < |LevelsByName(attrs)[n]|
    ensures AdvancePrefix(attrs, cursor, o, j)[n] == Advanced(cursor[n], NameCount(attrs[..j], n), o, |LevelsByName(attrs)[n]|)
  {
    var m := |LevelsByName(attrs)[n]|;
    if j == 0 {
      AdvancedZero(cursor[n], o, m);
    } else {
      AdvancePrefixClosed(attrs, cursor, o, j - 1, n);
      NameCountPrefix(attrs, j - 1, n);
      if attrs[j - 1].name == n {
        AdvancedStep(cursor[n], NameCount(attrs[..j - 1], n), o, m);
      }
    }
  }

  /**
   * The cursor of a name at the start of screen `t` is (t * c * o) mod L, where c is the
   * number of attributes carrying the name; it always lies in [0, L).
   */
  lemma {:induction false} CursorAtClosed(attrs: seq<Attribute>, t: nat, o: int, n: string)
    requires NamedLevelsNonEmpty(attrs) && n in AttributeNames(attrs)
    ensures CursorAt(attrs, t, o)[n] == Cursor(t, NameCount(attrs, n) * o, |LevelsByName(attrs)[n]|)
    ensures 0 <= CursorAt(attrs, t, o)[n] < |LevelsByName(attrs)[n]|
  {
    var m := |LevelsByName(attrs)[n]|;
    var step := NameCount(attrs, n) * o;
    if t == 0 {
      DivModUnique(0, m, 0, 0);
      assert 0 * step == 0;
    } else {
      CursorAtClosed(attrs, t - 1, o, n);
      CursorAtStep(attrs, t, o, n);
    }
  }

  /** One screen further: the closed form for t - 1 gives the one for t. */
  lemma {:induction false} CursorAtStep(attrs: seq<Attribute>, t: nat, o: int, n: string)
    requires NamedLevelsNonEmpty(attrs) && n in AttributeNames(attrs) && t > 0
    requires CursorAt(attrs, t - 1, o)[n] == Cursor(t - 1, NameCount(attrs, n) * o, |LevelsByName(attrs)[n]|)
    ensures CursorAt(attrs, t, o)[n] == Cursor(t, NameCount(attrs, n) * o, |LevelsByName(attrs)[n]|)
  {
    var m := |LevelsByName(attrs)[n]|;
    CheckedAll(attrs);
    AdvancePrefixClosed(attrs, CursorAt(attrs, t - 1, o), o, |attrs|, n);
    assert attrs[..|attrs|] == attrs;
    CursorStep(t - 1, NameCount(attrs, n), o, m);
  }

  /** With distinct attribute names every attribute's cursor starts screen t at (t * o) mod L. */
  lemma {:induction false} CursorAtDistinct(attrs: seq<Attribute>, t: nat, o: int, j: nat)
    requires DistinctNames(attrs) && HasLevels(attrs) && j < |attrs|
    ensures NamedLevelsNonEmpty(attrs) && attrs[j].name in AttributeNames(attrs) && |attrs[j].levels| > 0
    ensures CursorAt(attrs, t, o)[attrs[j].name] == Cursor(t, o, |attrs[j].levels|)
  {
    HasLevelsNamedNonEmpty(attrs);
    assert attrs[j] in attrs;
    var n := attrs[j].name;
    NameIn(attrs, j);
    LastPositionDistinct(attrs, j);
    LevelsByNameAt(attrs, n);
    NameCountDistinct(attrs, j);
    CursorAtClosed(attrs, t, o, n);
    assert 1 * o == o;
  }

  lemma {:induction false} RotIndexDistinct(cursor: int, k1: int, k2: int, t: int, m: int)
    requires m > 0 && 0 <= k1 < k2 && k2 - k1 < m
    ensures RotIndex(cursor, k1, t, m) != RotIndex(cursor, k2, t, m)
  {
    ModDistinctShift(cursor + t, k1, k2, m);
    assert cursor + t + k1 == cursor + k1 + t && cursor + t + k2 == cursor + k2 + t;
  }

  lemma {:induction false} RotatedOptionAt(attrs: seq<Attribute>, cursor: map<string, int>, k: int, t: int, n: string)
    requires NamedLevelsNonEmpty(attrs) && AttributeNames(attrs) <= cursor.Keys && n in AttributeNames(attrs)
    ensures var lbn := LevelsByName(attrs);
      RotatedOption(attrs, cursor, k, t)[n] == lbn[n][RotIndex(cursor[n], k, t, |lbn[n]|)]
  {
  }

  /**
   * The closed form with distinct attribute names: option k of screen t gives attribute j
   * the level at index (cursor + k + t) mod L of its own level list, with cursor = (t * o) mod L.
   */
  lemma {:induction false} BalancedOptionDistinct(attrs: seq<Attribute>, t: nat, k: int, o: int, j: nat)
    requires DistinctNames(attrs) && HasLevels(attrs) && j < |attrs|
    ensures NamedLevelsNonEmpty(attrs) && attrs[j].name in AttributeNames(attrs) && |attrs[j].levels| > 0
    ensures var m := |attrs[j].levels|;
      BalancedOption(attrs, t, k, o)[attrs[j].name] == attrs[j].levels[RotIndex(Cursor(t, o, m), k, t, m)].name
  {
    CursorAtDistinct(attrs, t, o, j);
    LastPositionDistinct(attrs, j);
    LevelsByNameAt(attrs, attrs[j].name);
    RotatedOptionAt(attrs, CursorAt(attrs, t, o), k, t, attrs[j].name);
  }

  /** Every screen of the balanced design is numbered and sized as requested, from declared levels. */
  lemma {:induction false} BalancedDesignShape(attrs: seq<Attribute>, o: int, n: int)
    requires Count(n) > 0 ==> NamedLevelsNonEmpty(attrs)
    ensures WellFormed(attrs, BalancedDesign(attrs, o, n), Count(o), Count(n))
    ensures AllKept(attrs, BalancedDesign(attrs, o, n))
  {
    var d := BalancedDesign(attrs, o, n);
    forall t, option | 0 <= t < |d| && option in d[t].options
      ensures KeptLevels(attrs, option) && OptionOk(attrs, option)
    {
      var k :| 0 <= k < |d[t].options| && d[t].options[k] == option;
      KeptLevelsOk(attrs, option);
    }
  }

  /**
   * Minimal overlap: when the level names of an attribute are distinct, two options of one
   * screen that are fewer than L apart never repeat that attribute's level.
   */
  lemma {:induction false} BalancedNoRepeatWithinScreen(attrs: seq<Attribute>, t: nat, o: int, k1: int, k2: int, n: string)
    requires NamedLevelsNonEmpty(attrs) && n in AttributeNames(attrs)
    requires Distinct(LevelsByName(attrs)[n])
    requires 0 <= k1 < k2 && k2 - k1 < |LevelsByName(attrs)[n]|
    ensures BalancedOption(attrs, t, k1, o)[n] != BalancedOption(attrs, t, k2, o)[n]
  {
    RotatedNoRepeat(attrs, CursorAt(attrs, t, o), k1, k2, t, n);
  }

  /** Distinct levels read at two shifts less than a full cycle apart are different. */
  lemma {:induction false} RotatedNoRepeat(attrs: seq<Attribute>, cursor: map<string, int>, k1: int, k2: int, t: int, n: string)
    requires NamedLevelsNonEmpty(attrs) && n in AttributeNames(attrs) && AttributeNames(attrs) <= cursor.Keys
    requires Distinct(LevelsByName(attrs)[n])
    requires 0 <= k1 < k2 && k2 - k1 < |LevelsByName(attrs)[n]|
    ensures RotatedOption(attrs, cursor, k1, t)[n] != RotatedOption(attrs, cursor, k2, t)[n]
  {
    var levels := LevelsByName(attrs)[n];
    RotIndexDistinct(cursor[n], k1, k2, t, |levels|);
    DistinctAt(levels, RotIndex(cursor[n], k1, t, |levels|), RotIndex(cursor[n], k2, t, |levels|));
  }
}
