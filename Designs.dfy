/**
 * The grid a caller describes (attributes and their levels) and the design the
 * generators produce from it: ordered choice tasks whose options map each
 * attribute name to one level name.
 */
module Designs {
  import opened Wrappers

  datatype AttributeLevel = AttributeLevel(name: string, code: Optional<string>)

  datatype Attribute = Attribute(name: string, levels: seq<AttributeLevel>)

  /** `interactions` is informational: no parameter is ever counted for it. */
  datatype DesignGrid = DesignGrid(attributes: seq<Attribute>, interactions: seq<string>)

  /** One option (alternative) of a choice task: attribute name -> level name. */
  type Option = map<string, string>

  /** A choice task with its 1-based index as the generators number it. */
  datatype ChoiceTask = ChoiceTask(taskIndex: int, options: seq<Option>)

  type Design = seq<ChoiceTask>

  /** `len(range(n))`: a negative count yields no iterations. */
  function Count(n: int): nat {
    if n < 0 then 0 else n
  }

  /** The level names of an attribute, in declared order. */
  function LevelNames(a: Attribute): (names: seq<string>)
    ensures |names| == |a.levels|
    ensures forall i | 0 <= i < |a.levels| :: names[i] == a.levels[i].name
  {
    seq(|a.levels|, i requires 0 <= i < |a.levels| => a.levels[i].name)
  }

  /** Every attribute declares at least one level. */
  predicate HasLevels(attrs: seq<Attribute>) {
    forall a | a in attrs :: |a.levels| > 0
  }

  /** The keys every generated option carries: the set of attribute names. */
  function AttributeNames(attrs: seq<Attribute>): set<string> {
    if attrs == [] then {} else AttributeNames(attrs[..|attrs| - 1]) + {attrs[|attrs| - 1].name}
  }

  predicate DistinctNames(attrs: seq<Attribute>) {
    forall i, j | 0 <= i < j < |attrs| :: attrs[i].name != attrs[j].name
  }

  lemma {:induction false} AttributeNamesSnoc(attrs: seq<Attribute>, a: Attribute)
    ensures AttributeNames(attrs + [a]) == AttributeNames(attrs) + {a.name}
  {
    assert (attrs + [a])[..|attrs|] == attrs;
  }

  lemma {:induction false} AttributeNamesPrefix(attrs: seq<Attribute>, j: nat)
    requires j < |attrs|
    ensures AttributeNames(attrs[..j + 1]) == AttributeNames(attrs[..j]) + {attrs[j].name}
  {
    assert attrs[..j + 1][..j] == attrs[..j];
  }

  /** A name is in the set exactly when some attribute carries it. */
  lemma {:induction false} AttributeNamesMember(attrs: seq<Attribute>, n: string)
    ensures n in AttributeNames(attrs) <==> exists i | 0 <= i < |attrs| :: attrs[i].name == n
  {
    if attrs != [] {
      var last := |attrs| - 1;
      AttributeNamesMember(attrs[..last], n);
      if exists i | 0 <= i < |attrs| :: attrs[i].name == n {
        var i :| 0 <= i < |attrs| && attrs[i].name == n;
        if i < last {
          assert attrs[..last][i].name == n;
        }
      }
    }
  }

  /** How many attributes carry the name `n`. */
  function NameCount(attrs: seq<Attribute>, n: string): nat {
    if attrs == [] then 0
    else NameCount(attrs[..|attrs| - 1], n) + (if attrs[|attrs| - 1].name == n then 1 else 0)
  }

  /** The position of the LAST attribute named `n`: the one a name-keyed dict keeps. */
  function LastPosition(attrs: seq<Attribute>, n: string): (p: nat)
    requires n in AttributeNames(attrs)
    ensures p < |attrs| && attrs[p].name == n
    ensures forall q | p < q < |attrs| :: attrs[q].name != n
  {
    var last := |attrs| - 1;
    if attrs[last].name == n then last
    else
      assert attrs == attrs[..last] + [attrs[last]];
      AttributeNamesSnoc(attrs[..last], attrs[last]);
      LastPosition(attrs[..last], n)
  }

  /** `{attr.name: [level names] for attr in attributes}`: a later attribute of the same name wins. */
  function LevelsByName(attrs: seq<Attribute>): (m: map<string, seq<string>>)
    ensures m.Keys == AttributeNames(attrs)
  {
    if attrs == [] then map[]
    else
      var last := |attrs| - 1;
      assert attrs == attrs[..last] + [attrs[last]];
      AttributeNamesSnoc(attrs[..last], attrs[last]);
      LevelsByName(attrs[..last])[attrs[last].name := LevelNames(attrs[last])]
  }

  /** The entry of a name is the level list of the last attribute carrying it. */
  lemma {:induction false} LevelsByNameAt(attrs: seq<Attribute>, n: string)
    requires n in AttributeNames(attrs)
    ensures LevelsByName(attrs)[n] == LevelNames(attrs[LastPosition(attrs, n)])
  {
    var last := |attrs| - 1;
    if attrs[last].name != n {
      assert attrs == attrs[..last] + [attrs[last]];
      AttributeNamesSnoc(attrs[..last], attrs[last]);
      LevelsByNameAt(attrs[..last], n);
    }
  }

  lemma {:induction false} NameIn(attrs: seq<Attribute>, i: nat)
    requires i < |attrs|
    ensures attrs[i].name in AttributeNames(attrs)
  {
    AttributeNamesMember(attrs, attrs[i].name);
  }

  /** With distinct names the dict entry of an attribute is that attribute's own levels. */
  lemma {:induction false} LastPositionDistinct(attrs: seq<Attribute>, j: nat)
    requires DistinctNames(attrs) && j < |attrs|
    ensures attrs[j].name in AttributeNames(attrs)
    ensures LastPosition(attrs, attrs[j].name) == j
  {
    NameIn(attrs, j);
    var p := LastPosition(attrs, attrs[j].name);
    assert attrs[p].name == attrs[j].name;
  }

  /** Each name occurs once when the names are distinct. */
  lemma {:induction false} NameCountDistinct(attrs: seq<Attribute>, j: nat)
    requires DistinctNames(attrs) && j < |attrs|
    ensures NameCount(attrs, attrs[j].name) == 1
  {
    var last := |attrs| - 1;
    if j < last {
      NameCountDistinct(attrs[..last], j);
    } else {
      NameCountAbsent(attrs[..last], attrs[j].name);
    }
  }

  lemma {:induction false} NameCountAbsent(attrs: seq<Attribute>, n: string)
    requires forall a | a in attrs :: a.name != n
    ensures NameCount(attrs, n) == 0
  {
    if attrs != [] {
      assert attrs[|attrs| - 1] in attrs;
      NameCountAbsent(attrs[..|attrs| - 1], n);
    }
  }

  lemma {:induction false} NameCountPrefix(attrs: seq<Attribute>, j: nat, n: string)
    requires j < |attrs|
    ensures NameCount(attrs[..j + 1], n) == NameCount(attrs[..j], n) + (if attrs[j].name == n then 1 else 0)
  {
    assert attrs[..j + 1][..j] == attrs[..j];
  }

  lemma {:induction false} LevelsByNamePrefix(attrs: seq<Attribute>, j: nat)
    requires j < |attrs|
    ensures LevelsByName(attrs[..j + 1]) == LevelsByName(attrs[..j])[attrs[j].name := LevelNames(attrs[j])]
  {
    assert attrs[..j + 1][..j] == attrs[..j];
  }

  /** Some attribute named `name` declares the level `level`. */
  predicate DeclaredLevel(attrs: seq<Attribute>, name: string, level: string) {
    exists a | a in attrs :: a.name == name && level in LevelNames(a)
  }

  /** An option names every attribute once, each with one of its declared levels. */
  predicate OptionOk(attrs: seq<Attribute>, option: Option) {
    && option.Keys == AttributeNames(attrs)
    && forall n | n in option :: DeclaredLevel(attrs, n, option[n])
  }

  /**
   * The stronger shape of the generators that read levels through a name-keyed dict or
   * write the attributes in order: each value is a level of the LAST attribute of that name.
   */
  predicate KeptLevels(attrs: seq<Attribute>, option: Option) {
    && option.Keys == AttributeNames(attrs)
    && forall n | n in option :: option[n] in LevelsByName(attrs)[n]
  }

  /** Writing a declared level of attribute `j` extends an option kept for the first `j` attributes. */
  lemma {:induction false} KeptLevelsStep(attrs: seq<Attribute>, j: nat, option: Option, level: string)
    requires j < |attrs| && KeptLevels(attrs[..j], option) && level in LevelNames(attrs[j])
    ensures KeptLevels(attrs[..j + 1], option[attrs[j].name := level])
  {
    AttributeNamesPrefix(attrs, j);
    LevelsByNamePrefix(attrs, j);
  }

  lemma {:induction false} HasLevelsStep(attrs: seq<Attribute>, j: nat)
    requires j < |attrs| && HasLevels(attrs[..j]) && |attrs[j].levels| > 0
    ensures HasLevels(attrs[..j + 1])
  {
    assert attrs[..j + 1] == attrs[..j] + [attrs[j]];
  }

  lemma {:induction false} KeptLevelsOk(attrs: seq<Attribute>, option: Option)
    requires KeptLevels(attrs, option)
    ensures OptionOk(attrs, option)
  {
    forall n | n in option
      ensures DeclaredLevel(attrs, n, option[n])
    {
      var p := LastPosition(attrs, n);
      LevelsByNameAt(attrs, n);
      assert attrs[p] in attrs;
    }
  }

  predicate AllKept(attrs: seq<Attribute>, d: Design) {
    forall t, option | 0 <= t < |d| && option in d[t].options :: KeptLevels(attrs, option)
  }

  /**
   * The shape every generator promises: `numScreens` tasks indexed 1..numScreens, each
   * with `optionsPerScreen` well-formed options.
   */
  predicate WellFormed(attrs: seq<Attribute>, d: Design, optionsPerScreen: nat, numScreens: nat) {
    && |d| == numScreens
    && forall i | 0 <= i < |d| ::
         && d[i].taskIndex == i + 1
         && |d[i].options| == optionsPerScreen
         && forall option | option in d[i].options :: OptionOk(attrs, option)
  }

  /** All options of a design, task after task: the rows of its design matrix. */
  function Flatten(d: Design): seq<Option> {
    if d == [] then [] else Flatten(d[..|d| - 1]) + d[|d| - 1].options
  }

  lemma {:induction false} FlattenAppend(a: Design, b: Design)
    ensures Flatten(a + b) == Flatten(a) + Flatten(b)
    decreases |b|
  {
    if b == [] {
      assert a + b == a;
    } else {
      var b' := b[..|b| - 1];
      assert a + b == (a + b') + [b[|b| - 1]];
      assert (a + b)[..|a + b| - 1] == a + b';
      FlattenAppend(a, b');
    }
  }

  lemma {:induction false} FlattenSnoc(d: Design, t: nat)
    requires t < |d|
    ensures Flatten(d[..t + 1]) == Flatten(d[..t]) + d[t].options
  {
    assert d[..t + 1][..t] == d[..t];
  }

  /** Option `k` of task `t` is row |Flatten(d[..t])| + k of the flattened design. */
  lemma {:induction false} FlattenAt(d: Design, t: nat, k: nat)
    requires t < |d| && k < |d[t].options|
    ensures Flatten(d[..t + 1]) == Flatten(d[..t]) + d[t].options
    ensures |Flatten(d[..t])| + k < |Flatten(d)|
    ensures Flatten(d)[|Flatten(d[..t])| + k] == d[t].options[k]
  {
    assert d[..t + 1][..t] == d[..t];
    assert d == d[..t + 1] + d[t + 1..];
    FlattenAppend(d[..t + 1], d[t + 1..]);
  }

  /** Sum over attributes of (level count - 1): the main-effect parameter count. */
  function ParameterCount(attrs: seq<Attribute>): int {
    if attrs == [] then 0
    else ParameterCount(attrs[..|attrs| - 1]) + (|attrs[|attrs| - 1].levels| - 1)
  }

  /** Sum over attributes of the level count. */
  function TotalLevels(attrs: seq<Attribute>): int {
    if attrs == [] then 0
    else TotalLevels(attrs[..|attrs| - 1]) + |attrs[|attrs| - 1].levels|
  }

  lemma {:induction false} ParameterCountNonNegative(attrs: seq<Attribute>)
    requires HasLevels(attrs)
    ensures ParameterCount(attrs) >= 0
  {
    if attrs != [] {
      assert attrs[|attrs| - 1] in attrs;
      ParameterCountNonNegative(attrs[..|attrs| - 1]);
    }
  }

  lemma {:induction false} ParameterCountPrefix(attrs: seq<Attribute>, j: nat)
    requires j < |attrs|
    ensures ParameterCount(attrs[..j + 1]) == ParameterCount(attrs[..j]) + |attrs[j].levels| - 1
  {
    assert attrs[..j + 1][..j] == attrs[..j];
  }

  /** Product of the level counts: the number of distinct full profiles. */
  function LevelProduct(attrs: seq<Attribute>): int {
    if attrs == [] then 1
    else LevelProduct(attrs[..|attrs| - 1]) * |attrs[|attrs| - 1].levels|
  }

  lemma {:induction false} LevelProductPrefix(attrs: seq<Attribute>, j: nat)
    requires j < |attrs|
    ensures LevelProduct(attrs[..j + 1]) == LevelProduct(attrs[..j]) * |attrs[j].levels|
  {
    assert attrs[..j + 1][..j] == attrs[..j];
  }
}
