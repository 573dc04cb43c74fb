/**
 * The dummy-coded design matrix of a design and the two scores computed from its information
 * matrix X'X: the D-optimality criterion (log determinant) and the D-efficiency in [0, 1].
 * Determinant, logarithm, exponential and power are floating-point numerics and enter as
 * parameters (`Numerics`); only the guards and clamps around them are modelled.
 */
module DesignMatrix {
  import opened Wrappers
  import opened Designs

  const NegativeDimensions := "ValueError: negative dimensions are not allowed"
  const ColumnOutOfBounds := "IndexError: index is out of bounds for axis 1"
  const ZeroParameters := "ZeroDivisionError: division by zero"

  /** A determinant at or below this threshold counts as singular. */
  const SingularThreshold: real := 0.0000000001

  /** `attr.levels[1:]`: the non-reference levels, each of which owns one column. */
  function Tail(levels: seq<AttributeLevel>): (t: seq<AttributeLevel>)
    ensures |t| == if |levels| == 0 then 0 else |levels| - 1
    ensures forall i | 0 <= i < |t| :: t[i] == levels[i + 1]
  {
    if |levels| == 0 then [] else levels[1..]
  }

  /** Columns handed out to the first attributes: one per non-reference level. */
  function UsedColumns(attrs: seq<Attribute>): nat {
    if attrs == [] then 0
    else UsedColumns(attrs[..|attrs| - 1]) + |Tail(attrs[|attrs| - 1].levels)|
  }

  lemma {:induction false} UsedColumnsPrefix(attrs: seq<Attribute>, j: nat)
    requires j < |attrs|
    ensures UsedColumns(attrs[..j + 1]) == UsedColumns(attrs[..j]) + |Tail(attrs[j].levels)|
  {
    assert attrs[..j + 1][..j] == attrs[..j];
  }

  /** Once every attribute has a level, the columns handed out are exactly the parameter count. */
  lemma {:induction false} UsedColumnsIsParameterCount(attrs: seq<Attribute>)
    requires HasLevels(attrs)
    ensures UsedColumns(attrs) == ParameterCount(attrs)
  {
    if attrs != [] {
      assert attrs[|attrs| - 1] in attrs;
      UsedColumnsIsParameterCount(attrs[..|attrs| - 1]);
    }
  }

  /** Level name -> column for a run of non-reference levels starting at column `start`. */
  function TailColumns(ls: seq<AttributeLevel>, start: int): (m: map<string, int>)
    ensures forall l | l in m :: start <= m[l] < start + |ls|
    ensures forall i | 0 <= i < |ls| :: ls[i].name in m
  {
    if ls == [] then map[]
    else TailColumns(ls[..|ls| - 1], start)[ls[|ls| - 1].name := start + |ls| - 1]
  }

  lemma {:induction false} TailColumnsSnoc(ls: seq<AttributeLevel>, i: nat, start: int)
    requires i < |ls|
    ensures TailColumns(ls[..i + 1], start) == TailColumns(ls[..i], start)[ls[i].name := start + i]
  {
    assert ls[..i + 1][..i] == ls[..i];
  }

  /** With distinct level names, the i-th non-reference level owns column start + i. */
  lemma {:induction false} TailColumnsAt(ls: seq<AttributeLevel>, start: int, i: nat)
    requires forall a, b | 0 <= a < b < |ls| :: ls[a].name != ls[b].name
    requires i < |ls|
    ensures TailColumns(ls, start)[ls[i].name] == start + i
  {
    if i < |ls| - 1 {
      var prefix := ls[..|ls| - 1];
      assert prefix[i] == ls[i];
      TailColumnsAt(prefix, start, i);
    }
  }

  /** A level name occurs among the non-reference levels iff it has a column. */
  lemma {:induction false} TailColumnsKeys(ls: seq<AttributeLevel>, start: int, l: string)
    ensures l in TailColumns(ls, start) <==> exists i | 0 <= i < |ls| :: ls[i].name == l
  {
    if ls != [] {
      var prefix := ls[..|ls| - 1];
      TailColumnsKeys(prefix, start, l);
      if l in TailColumns(prefix, start) {
        var i :| 0 <= i < |prefix| && prefix[i].name == l;
        assert ls[i].name == l;
      }
      if exists i | 0 <= i < |ls| :: ls[i].name == l {
        var i :| 0 <= i < |ls| && ls[i].name == l;
        if i < |ls| - 1 {
          assert prefix[i].name == l;
        }
      }
    }
  }

  /**
   * `attr_mappings`: attribute name -> (non-reference level name -> column). An attribute
   * that repeats an earlier name replaces that name's mapping, while columns keep counting.
   */
  function ColumnMap(attrs: seq<Attribute>): (m: map<string, map<string, int>>)
    ensures m.Keys == AttributeNames(attrs)
    ensures forall n, l | n in m && l in m[n] :: 0 <= m[n][l] < UsedColumns(attrs)
  {
    if attrs == [] then map[]
    else
      var prefix := attrs[..|attrs| - 1];
      var last := attrs[|attrs| - 1];
      ColumnMap(prefix)[last.name := TailColumns(Tail(last.levels), UsedColumns(prefix))]
  }

  lemma {:induction false} ColumnMapPrefix(attrs: seq<Attribute>, j: nat)
    requires j < |attrs|
    ensures ColumnMap(attrs[..j + 1])
            == ColumnMap(attrs[..j])[attrs[j].name := TailColumns(Tail(attrs[j].levels), UsedColumns(attrs[..j]))]
  {
    assert attrs[..j + 1][..j] == attrs[..j];
  }

  /** A name's mapping is the one built for the last attribute carrying that name. */
  lemma {:induction false} ColumnMapLast(attrs: seq<Attribute>, n: string)
    requires n in AttributeNames(attrs)
    ensures var p := LastPosition(attrs, n);
      ColumnMap(attrs)[n] == TailColumns(Tail(attrs[p].levels), UsedColumns(attrs[..p]))
  {
    var last := |attrs| - 1;
    if attrs[last].name != n {
      var prefix := attrs[..last];
      assert attrs == prefix + [attrs[last]];
      AttributeNamesSnoc(prefix, attrs[last]);
      ColumnMapLast(prefix, n);
      var p := LastPosition(prefix, n);
      assert prefix[..p] == attrs[..p];
    }
  }

  /** No two levels of the attribute share a name (what validation checks). */
  predicate DistinctLevels(a: Attribute) {
    forall i, j | 0 <= i < j < |a.levels| :: a.levels[i].name != a.levels[j].name
  }

  /**
   * With distinct attribute names and distinct level names, level i >= 1 of attribute a owns
   * column UsedColumns(attrs[..a]) + i - 1 and the reference level owns none: the columns run
   * consecutively in grid order.
   */
  lemma {:induction false} ColumnMapAt(attrs: seq<Attribute>, a: nat, i: nat)
    requires DistinctNames(attrs) && a < |attrs| && DistinctLevels(attrs[a])
    requires i < |attrs[a].levels|
    ensures attrs[a].name in ColumnMap(attrs)
    ensures i == 0 ==> attrs[a].levels[0].name !in ColumnMap(attrs)[attrs[a].name]
    ensures i > 0 ==>
      && attrs[a].levels[i].name in ColumnMap(attrs)[attrs[a].name]
      && ColumnMap(attrs)[attrs[a].name][attrs[a].levels[i].name] == UsedColumns(attrs[..a]) + i - 1
  {
    NameIn(attrs, a);
    LastPositionDistinct(attrs, a);
    ColumnMapLast(attrs, attrs[a].name);
    var levels := attrs[a].levels;
    var ls := Tail(levels);
    if i == 0 {
      TailColumnsKeys(ls, UsedColumns(attrs[..a]), levels[0].name);
    } else {
      TailColumnsAt(ls, UsedColumns(attrs[..a]), i - 1);
    }
  }

  /** Attributes before position a use columns below those of attribute a. */
  lemma {:induction false} UsedColumnsMonotone(attrs: seq<Attribute>, a: nat, b: nat)
    requires a < b <= |attrs|
    ensures UsedColumns(attrs[..a]) + |Tail(attrs[a].levels)| <= UsedColumns(attrs[..b])
  {
    var k := b - 1;
    UsedColumnsPrefix(attrs, k);
    var before := UsedColumns(attrs[..k]);
    assert UsedColumns(attrs[..b]) == before + |Tail(attrs[k].levels)|;
    if a == k {
      assert UsedColumns(attrs[..a]) + |Tail(attrs[a].levels)| == UsedColumns(attrs[..b]);
    } else {
      UsedColumnsMonotone(attrs, a, k);
      assert UsedColumns(attrs[..a]) + |Tail(attrs[a].levels)| <= before;
    }
  }

  /** The columns of the options' attribute/level pairs that the map knows; others are ignored. */
  function ColumnsIn(cm: map<string, map<string, int>>, option: Option, ks: set<string>): set<int> {
    set n | n in ks && n in option && n in cm && option[n] in cm[n] :: cm[n][option[n]]
  }

  function RowColumns(cm: map<string, map<string, int>>, option: Option): set<int> {
    ColumnsIn(cm, option, option.Keys)
  }

  /** Some known pair of the option has a column beyond the matrix width `p`. */
  predicate OutOfRange(cm: map<string, map<string, int>>, p: int, option: Option) {
    exists n | n in option && n in cm && option[n] in cm[n] :: cm[n][option[n]] >= p
  }

  /** Entry `c` of an option's row. */
  function Cell(cm: map<string, map<string, int>>, option: Option, c: int): int {
    if c in RowColumns(cm, option) then 1 else 0
  }

  function Row(cm: map<string, map<string, int>>, p: nat, option: Option): seq<int> {
    seq(p, c requires 0 <= c < p => Cell(cm, option, c))
  }

  function Matrix(cm: map<string, map<string, int>>, p: nat, rows: seq<Option>): seq<seq<int>> {
    seq(|rows|, r requires 0 <= r < |rows| => Row(cm, p, rows[r]))
  }

  /**
   * `_create_design_matrix` as a value: a zero matrix with one row per option and
   * sum(levels - 1) columns, with a 1 at the column of each known attribute/level pair.
   */
  function MatrixRows(attrs: seq<Attribute>, design: Design): (r: Result<seq<seq<int>>>)
    ensures r.Ok? ==> |r.value| == |Flatten(design)| && forall i | 0 <= i < |r.value| :: |r.value[i]| == ParameterCount(attrs)
  {
    var p := ParameterCount(attrs);
    var rows := Flatten(design);
    var cm := ColumnMap(attrs);
    if p < 0 then Err(NegativeDimensions)
    else if exists r | 0 <= r < |rows| :: OutOfRange(cm, p, rows[r]) then Err(ColumnOutOfBounds)
    else Ok(Matrix(cm, p, rows))
  }

  /** For a grid whose attributes all have levels the matrix always exists, with the promised shape. */
  lemma {:induction false} MatrixRowsShape(attrs: seq<Attribute>, design: Design)
    requires HasLevels(attrs)
    ensures MatrixRows(attrs, design).Ok?
    ensures |MatrixRows(attrs, design).value| == |Flatten(design)|
    ensures forall row | row in MatrixRows(attrs, design).value :: |row| == ParameterCount(attrs)
  {
    ParameterCountNonNegative(attrs);
    UsedColumnsIsParameterCount(attrs);
  }

  /** Every entry is 0 or 1, and row r has a 1 exactly at the columns of option r's known pairs. */
  lemma {:induction false} MatrixRowsAt(attrs: seq<Attribute>, design: Design, r: nat, c: nat)
    requires MatrixRows(attrs, design).Ok?
    requires r < |Flatten(design)| && c < ParameterCount(attrs)
    ensures var x := MatrixRows(attrs, design).value[r][c];
      && (x == 0 || x == 1)
      && (x == 1 <==> c in RowColumns(ColumnMap(attrs), Flatten(design)[r]))
  {
    var rows := Flatten(design);
    var cm := ColumnMap(attrs);
    var p := ParameterCount(attrs);
    var m := Matrix(cm, p, rows);
    assert MatrixRows(attrs, design).value == m;
    assert m[r] == Row(cm, p, rows[r]);
    assert m[r][c] == Cell(cm, rows[r], c);
  }

  /**
   * With distinct names and levels, a well-formed option's row has a 1 in column
   * UsedColumns(attrs[..a]) + i - 1 iff the option picks non-reference level i of attribute a.
   */
  lemma {:induction false} RowAtLevel(attrs: seq<Attribute>, option: Option, a: nat, i: nat)
    requires DistinctNames(attrs) && a < |attrs|
    requires 1 <= i < |attrs[a].levels|
    requires forall b | 0 <= b < |attrs| :: DistinctLevels(attrs[b])
    requires attrs[a].name in option
    ensures UsedColumns(attrs[..a]) + i - 1 in RowColumns(ColumnMap(attrs), option)
            <==> option[attrs[a].name] == attrs[a].levels[i].name
  {
    var cm := ColumnMap(attrs);
    var c := UsedColumns(attrs[..a]) + i - 1;
    if c in RowColumns(cm, option) {
      RowColumnOwner(attrs, option, c, a, i);
    }
    if option[attrs[a].name] == attrs[a].levels[i].name {
      RowColumnOfLevel(attrs, option, a, i);
    }
  }

  lemma {:induction false} RowColumnOfLevel(attrs: seq<Attribute>, option: Option, a: nat, i: nat)
    requires DistinctNames(attrs) && a < |attrs| && DistinctLevels(attrs[a])
    requires 1 <= i < |attrs[a].levels|
    requires attrs[a].name in option && option[attrs[a].name] == attrs[a].levels[i].name
    ensures UsedColumns(attrs[..a]) + i - 1 in RowColumns(ColumnMap(attrs), option)
  {
    var cm := ColumnMap(attrs);
    ColumnMapAt(attrs, a, i);
    var n := attrs[a].name;
    RowColumnsHas(cm, option, n, UsedColumns(attrs[..a]) + i - 1);
  }

  lemma {:induction false} RowColumnsHas(cm: map<string, map<string, int>>, option: Option, n: string, c: int)
    requires n in option && n in cm && option[n] in cm[n] && cm[n][option[n]] == c
    ensures c in RowColumns(cm, option)
  {
  }

  lemma {:induction false} RowColumnOwner(attrs: seq<Attribute>, option: Option, c: int, a: nat, i: nat)
    requires DistinctNames(attrs) && a < |attrs|
    requires 1 <= i < |attrs[a].levels|
    requires forall b | 0 <= b < |attrs| :: DistinctLevels(attrs[b])
    requires c == UsedColumns(attrs[..a]) + i - 1
    requires c in RowColumns(ColumnMap(attrs), option)
    ensures attrs[a].name in option && option[attrs[a].name] == attrs[a].levels[i].name
  {
    var cm := ColumnMap(attrs);
    var n :| n in option && n in cm && option[n] in cm[n] && cm[n][option[n]] == c;
    AttributeNamesMember(attrs, n);
    var b :| 0 <= b < |attrs| && attrs[b].name == n;
    ColumnOwner(attrs, b, option[n]);
    var j :| 1 <= j < |attrs[b].levels| && attrs[b].levels[j].name == option[n];
    ColumnMapAt(attrs, b, j);
    ColumnsSeparate(attrs, a, i, b, j);
  }

  /** A name's known level is one of that attribute's non-reference levels. */
  lemma {:induction false} ColumnOwner(attrs: seq<Attribute>, b: nat, l: string)
    requires DistinctNames(attrs) && b < |attrs|
    requires attrs[b].name in ColumnMap(attrs) && l in ColumnMap(attrs)[attrs[b].name]
    ensures exists j | 1 <= j < |attrs[b].levels| :: attrs[b].levels[j].name == l
  {
    LastPositionDistinct(attrs, b);
    ColumnMapLast(attrs, attrs[b].name);
    var ls := Tail(attrs[b].levels);
    TailColumnsKeys(ls, UsedColumns(attrs[..b]), l);
    var k :| 0 <= k < |ls| && ls[k].name == l;
    assert attrs[b].levels[k + 1].name == l;
  }

  /** Different (attribute, non-reference level) pairs own different columns. */
  lemma {:induction false} ColumnsSeparate(attrs: seq<Attribute>, a: nat, i: nat, b: nat, j: nat)
    requires a < |attrs| && b < |attrs|
    requires 1 <= i < |attrs[a].levels| && 1 <= j < |attrs[b].levels|
    requires UsedColumns(attrs[..a]) + i - 1 == UsedColumns(attrs[..b]) + j - 1
    ensures a == b && i == j
  {
    if a < b {
      UsedColumnsMonotone(attrs, a, b);
    } else if b < a {
      UsedColumnsMonotone(attrs, b, a);
    }
  }

  /** The contents of a two-dimensional array, row by row. */
  function Rows(x: array2<int>): (rows: seq<seq<int>>)
    reads x
    ensures |rows| == x.Length0
    ensures forall r | 0 <= r < x.Length0 :: |rows[r]| == x.Length1
    ensures forall r, c | 0 <= r < x.Length0 && 0 <= c < x.Length1 :: rows[r][c] == x[r, c]
  {
    seq(x.Length0, r requires 0 <= r < x.Length0 reads x =>
      seq(x.Length1, c requires 0 <= c < x.Length1 reads x => x[r, c]))
  }

  /** Numbers the non-reference levels of one attribute from column `start` on. */
  method BuildLevelColumns(ls: seq<AttributeLevel>, start: int) returns (m: map<string, int>, next: int)
    ensures m == TailColumns(ls, start)
    ensures next == start + |ls|
  {
    m := map[];
    next := start;
    for i := 0 to |ls|
      invariant m == TailColumns(ls[..i], start)
      invariant next == start + i
    {
      TailColumnsSnoc(ls, i, start);
      m := m[ls[i].name := next];
      next := next + 1;
    }
    assert ls[..|ls|] == ls;
  }

  /** Builds `attr_mappings` attribute by attribute, counting columns in grid order. */
  method BuildColumnMap(attrs: seq<Attribute>) returns (cm: map<string, map<string, int>>)
    ensures cm == ColumnMap(attrs)
  {
    cm := map[];
    var col := 0;
    for j := 0 to |attrs|
      invariant cm == ColumnMap(attrs[..j])
      invariant col == UsedColumns(attrs[..j])
    {
      var attr := attrs[j];
      var start := col;
      var ls := Tail(attr.levels);
      var levelColumns;
      levelColumns, col := BuildLevelColumns(ls, start);
      cm := cm[attr.name := levelColumns];
      ColumnMapPrefix(attrs, j);
      UsedColumnsPrefix(attrs, j);
    }
    assert attrs[..|attrs|] == attrs;
  }

  lemma {:induction false} ColumnsInAdd(cm: map<string, map<string, int>>, option: Option, ks: set<string>, n: string)
    requires n in option
    ensures ColumnsIn(cm, option, ks + {n})
            == if n in cm && option[n] in cm[n] then ColumnsIn(cm, option, ks) + {cm[n][option[n]]}
               else ColumnsIn(cm, option, ks)
  {
  }

  /** Moving one key from the keys still to visit to the visited ones keeps the split exact. */
  lemma {:induction false} MoveKey(todo: set<string>, done: set<string>, keys: set<string>, n: string)
    requires n in todo && todo !! done && todo + done == keys
    ensures (todo - {n}) !! (done + {n}) && (todo - {n}) + (done + {n}) == keys
  {
  }

  /** Sets a 1 at the column of each known pair of the option; fails on a column beyond the width. */
  method FillRow(x: array2<int>, row: nat, cm: map<string, map<string, int>>, option: Option) returns (ok: bool)
    requires row < x.Length0
    requires forall n, l | n in cm && l in cm[n] :: cm[n][l] >= 0
    modifies x
    ensures ok <==> !OutOfRange(cm, x.Length1, option)
    ensures ok ==> forall c | 0 <= c < x.Length1 ::
                     x[row, c] == if c in RowColumns(cm, option) then 1 else old(x[row, c])
    ensures forall r, c | 0 <= r < x.Length0 && r != row && 0 <= c < x.Length1 :: x[r, c] == old(x[r, c])
  {
    ghost var start := Rows(x);
    var todo := option.Keys;
    ghost var done: set<string> := {};
    while todo != {}
      invariant todo !! done && todo + done == option.Keys
      invariant forall n | n in done && n in cm && option[n] in cm[n] :: cm[n][option[n]] < x.Length1
      invariant Marked(x, row, ColumnsIn(cm, option, done), start)
      decreases |todo|
    {
      var n :| n in todo;
      ColumnsInAdd(cm, option, done, n);
      MoveKey(todo, done, option.Keys, n);
      if n in cm && option[n] in cm[n] {
        var col := cm[n][option[n]];
        if col >= x.Length1 {
          return false;
        }
        Mark(x, row, col, ColumnsIn(cm, option, done), start);
      }
      todo := todo - {n};
      done := done + {n};
    }
    return true;
  }

  /**
   * Row `row` of `x` holds 1 at the columns `cols` and otherwise what `start` holds; every
   * other row is as in `start`.
   */
  ghost predicate Marked(x: array2<int>, row: nat, cols: set<int>, start: seq<seq<int>>)
    reads x
  {
    && |start| == x.Length0
    && (forall r | 0 <= r < |start| :: |start[r]| == x.Length1)
    && forall r, c | 0 <= r < x.Length0 && 0 <= c < x.Length1 ::
         x[r, c] == if r == row && c in cols then 1 else start[r][c]
  }

  /** `x[row, col] = 1`. */
  method Mark(x: array2<int>, row: nat, col: int, ghost cols: set<int>, ghost start: seq<seq<int>>)
    requires row < x.Length0 && 0 <= col < x.Length1 && Marked(x, row, cols, start)
    modifies x
    ensures Marked(x, row, cols + {col}, start)
  {
    x[row, col] := 1;
  }

  /**
   * Fills the rows `first`.. of one task's options; fails on a column beyond the width.
   * `rows` is the whole flattened design, of which `options` is the slice starting at `first`.
   */
  method FillTask(x: array2<int>, first: nat, cm: map<string, map<string, int>>, options: seq<Option>,
                  ghost rows: seq<Option>)
    returns (ok: bool)
    requires first + |options| <= x.Length0 == |rows|
    requires forall k | 0 <= k < |options| :: rows[first + k] == options[k]
    requires forall n, l | n in cm && l in cm[n] :: cm[n][l] >= 0
    requires forall i, c | first <= i < x.Length0 && 0 <= c < x.Length1 :: x[i, c] == 0
    modifies x
    ensures ok <==> forall i | first <= i < first + |options| :: !OutOfRange(cm, x.Length1, rows[i])
    ensures ok ==> forall i, c | first <= i < first + |options| && 0 <= c < x.Length1 :: x[i, c] == Cell(cm, rows[i], c)
    ensures ok ==> forall i, c | first + |options| <= i < x.Length0 && 0 <= c < x.Length1 :: x[i, c] == 0
    ensures forall i, c | 0 <= i < first && 0 <= c < x.Length1 :: x[i, c] == old(x[i, c])
  {
    for k := 0 to |options|
      invariant forall i | first <= i < first + k :: !OutOfRange(cm, x.Length1, rows[i])
      invariant forall i, c | first <= i < first + k && 0 <= c < x.Length1 :: x[i, c] == Cell(cm, rows[i], c)
      invariant forall i, c | first + k <= i < x.Length0 && 0 <= c < x.Length1 :: x[i, c] == 0
      invariant forall i, c | 0 <= i < first && 0 <= c < x.Length1 :: x[i, c] == old(x[i, c])
    {
      assert rows[first + k] == options[k];
      ok := FillRow(x, first + k, cm, options[k]);
      if !ok {
        return false;
      }
    }
    return true;
  }

  /** The fill loop of `_create_design_matrix`: row after row, task by task. */
  method FillDesign(x: array2<int>, cm: map<string, map<string, int>>, design: Design) returns (ok: bool)
    requires x.Length0 == |Flatten(design)|
    requires forall n, l | n in cm && l in cm[n] :: cm[n][l] >= 0
    requires forall i, c | 0 <= i < x.Length0 && 0 <= c < x.Length1 :: x[i, c] == 0
    modifies x
    ensures ok <==> forall i | 0 <= i < x.Length0 :: !OutOfRange(cm, x.Length1, Flatten(design)[i])
    ensures ok ==> forall i, c | 0 <= i < x.Length0 && 0 <= c < x.Length1 :: x[i, c] == Cell(cm, Flatten(design)[i], c)
  {
    ghost var rows := Flatten(design);
    var p := x.Length1;
    var rowIdx := 0;
    for t := 0 to |design|
      invariant rowIdx == |Flatten(design[..t])| <= |rows|
      invariant forall i, c | 0 <= i < rowIdx && 0 <= c < p :: x[i, c] == Cell(cm, rows[i], c)
      invariant forall i, c | rowIdx <= i < |rows| && 0 <= c < p :: x[i, c] == 0
      invariant forall i | 0 <= i < rowIdx :: !OutOfRange(cm, p, rows[i])
    {
      var options := design[t].options;
      FlattenSnoc(design, t);
      FlattenRows(design, t);
      ok := FillTask(x, rowIdx, cm, options, rows);
      if !ok {
        return false;
      }
      rowIdx := rowIdx + |options|;
    }
    assert design[..|design|] == design;
    return true;
  }

  lemma {:induction false} RowsMatrix(x: array2<int>, cm: map<string, map<string, int>>, rows: seq<Option>)
    requires x.Length0 == |rows|
    requires forall i, c | 0 <= i < x.Length0 && 0 <= c < x.Length1 :: x[i, c] == Cell(cm, rows[i], c)
    ensures Rows(x) == Matrix(cm, x.Length1, rows)
  {
    forall i | 0 <= i < |rows|
      ensures Rows(x)[i] == Matrix(cm, x.Length1, rows)[i]
    {
      assert forall c | 0 <= c < x.Length1 :: Rows(x)[i][c] == Row(cm, x.Length1, rows[i])[c];
    }
  }

  /** `_create_design_matrix`: allocates the zero matrix, numbers the columns and fills it. */
  method CreateDesignMatrix(design: Design, attrs: seq<Attribute>) returns (r: Result<array2<int>>)
    ensures r.Err? <==> MatrixRows(attrs, design).Err?
    ensures r.Err? ==> r.error == MatrixRows(attrs, design).error
    ensures r.Ok? ==> && fresh(r.value)
                      && r.value.Length0 == |Flatten(design)|
                      && r.value.Length1 == ParameterCount(attrs)
                      && Rows(r.value) == MatrixRows(attrs, design).value
  {
    var p := ParameterCount(attrs);
    if p < 0 {
      return Err(NegativeDimensions);
    }
    var x := new int[|Flatten(design)|, p]((i, j) => 0);
    var cm := BuildColumnMap(attrs);
    var ok := FillDesign(x, cm, design);
    if !ok {
      return Err(ColumnOutOfBounds);
    }
    RowsMatrix(x, cm, Flatten(design));
    return Ok(x);
  }

  /** The options of task t are the rows right after those of the tasks before it. */
  lemma {:induction false} FlattenRows(d: Design, t: nat)
    requires t < |d|
    ensures |Flatten(d[..t])| + |d[t].options| <= |Flatten(d)|
    ensures forall i | |Flatten(d[..t])| <= i < |Flatten(d[..t])| + |d[t].options| ::
              Flatten(d)[i] == d[t].options[i - |Flatten(d[..t])|]
  {
    FlattenSnoc(d, t);
    FlattenPrefixLength(d, t + 1);
    forall i | |Flatten(d[..t])| <= i < |Flatten(d[..t])| + |d[t].options|
      ensures Flatten(d)[i] == d[t].options[i - |Flatten(d[..t])|]
    {
      FlattenAt(d, t, i - |Flatten(d[..t])|);
    }
  }

  lemma {:induction false} FlattenPrefixLength(d: Design, t: nat)
    requires t <= |d|
    ensures |Flatten(d[..t])| <= |Flatten(d)|
  {
    assert d == d[..t] + d[t..];
    FlattenAppend(d[..t], d[t..]);
  }

  /** Entry (i, j) of X'X: the dot product of columns i and j. */
  function ColumnDot(rows: seq<seq<int>>, i: nat, j: nat): int
    requires forall row | row in rows :: i < |row| && j < |row|
  {
    if rows == [] then 0
    else ColumnDot(rows[..|rows| - 1], i, j) + rows[|rows| - 1][i] * rows[|rows| - 1][j]
  }

  /** `_calculate_information_matrix`: X'X for a matrix of width p. */
  function Information(rows: seq<seq<int>>, p: nat): (info: seq<seq<int>>)
    requires forall row | row in rows :: |row| == p
    ensures |info| == p && forall i | 0 <= i < p :: |info[i]| == p
  {
    seq(p, i requires 0 <= i < p => seq(p, j requires 0 <= j < p => ColumnDot(rows, i, j)))
  }

  /** Rows of the matrix that carry a 1 in column i. */
  function ColumnCount(rows: seq<seq<int>>, i: nat): nat
    requires forall row | row in rows :: i < |row|
  {
    if rows == [] then 0
    else ColumnCount(rows[..|rows| - 1], i) + (if rows[|rows| - 1][i] == 1 then 1 else 0)
  }

  lemma {:induction false} ColumnDotSymmetric(rows: seq<seq<int>>, i: nat, j: nat)
    requires forall row | row in rows :: i < |row| && j < |row|
    ensures ColumnDot(rows, i, j) == ColumnDot(rows, j, i)
  {
    if rows != [] {
      ColumnDotSymmetric(rows[..|rows| - 1], i, j);
    }
  }

  /** For a 0/1 matrix the diagonal of X'X counts the rows with a 1 in that column. */
  lemma {:induction false} ColumnDotDiagonal(rows: seq<seq<int>>, i: nat)
    requires forall row | row in rows :: i < |row| && (row[i] == 0 || row[i] == 1)
    ensures ColumnDot(rows, i, i) == ColumnCount(rows, i)
  {
    if rows != [] {
      ColumnDotDiagonal(rows[..|rows| - 1], i);
    }
  }

  /** For a 0/1 matrix X'X is symmetric and its diagonal counts the rows with a 1 in each column. */
  lemma {:induction false} BinaryInformation(rows: seq<seq<int>>, p: nat)
    requires forall row | row in rows :: |row| == p
    requires forall row, c | row in rows && 0 <= c < |row| :: row[c] == 0 || row[c] == 1
    ensures var info := Information(rows, p);
      && (forall i, j | 0 <= i < p && 0 <= j < p :: info[i][j] == info[j][i])
      && (forall i | 0 <= i < p :: info[i][i] == ColumnCount(rows, i))
  {
    forall i, j | 0 <= i < p && 0 <= j < p
      ensures ColumnDot(rows, i, j) == ColumnDot(rows, j, i)
    {
      ColumnDotSymmetric(rows, i, j);
    }
    forall i | 0 <= i < p
      ensures ColumnDot(rows, i, i) == ColumnCount(rows, i)
    {
      ColumnDotDiagonal(rows, i);
    }
  }

  /** X'X is symmetric, and its diagonal counts the options that use each column. */
  lemma {:induction false} InformationShape(attrs: seq<Attribute>, design: Design)
    requires MatrixRows(attrs, design).Ok?
    ensures var rows := MatrixRows(attrs, design).value;
      var p := ParameterCount(attrs);
      var info := Information(rows, p);
      && (forall i, j | 0 <= i < p && 0 <= j < p :: info[i][j] == info[j][i])
      && (forall i | 0 <= i < p :: info[i][i] == ColumnCount(rows, i))
  {
    var rows := MatrixRows(attrs, design).value;
    var p := ParameterCount(attrs);
    forall row, c | row in rows && 0 <= c < |row|
      ensures row[c] == 0 || row[c] == 1
    {
      var r :| 0 <= r < |rows| && rows[r] == row;
      MatrixRowsAt(attrs, design, r, c);
    }
    BinaryInformation(rows, p);
  }

  /** The floating-point operations the scores use, as parameters. */
  datatype Numerics = Numerics(
    det: seq<seq<int>> -> real,
    log: real -> real,
    exp: real -> real,
    pow: (real, real) -> real)

  /** A D-optimality score: a log determinant, or minus infinity for a singular matrix. */
  datatype Score = NegInf | Finite(value: real)

  /** Python's `>` on floats where -inf is below every finite value and not above itself. */
  predicate Better(a: Score, b: Score) {
    a.Finite? && (b.NegInf? || a.value > b.value)
  }

  lemma {:induction false} BetterOrder(a: Score, b: Score, c: Score)
    ensures !Better(a, a)
    ensures Better(a, b) ==> !Better(b, a)
    ensures Better(a, b) && Better(b, c) ==> Better(a, c)
    ensures !Better(a, b) && !Better(b, c) ==> !Better(a, c)
  {
  }

  /** `_calculate_d_optimality` given X'X: minus infinity iff the determinant is at most 1e-10. */
  function DOptimality(info: seq<seq<int>>, num: Numerics): (s: Score)
    ensures s.NegInf? <==> num.det(info) <= SingularThreshold
    ensures s.Finite? ==> s.value == num.log(num.det(info))
  {
    var d := num.det(info);
    if d <= SingularThreshold then NegInf else Finite(num.log(d))
  }

  function Clamp01(x: real): (y: real)
    ensures 0.0 <= y <= 1.0
    ensures 0.0 <= x <= 1.0 ==> y == x
  {
    if x > 1.0 then 1.0 else if x < 0.0 then 0.0 else x
  }

  /**
   * `calculate_d_efficiency` as a value: 0.0 for a singular X'X, otherwise det^(1/p) / n
   * clamped into [0, 1]. `1/p` is a Python division that fails for p = 0; the division by n
   * is on a numpy float, so n = 0 gives infinity, which the clamp turns into 1.0.
   */
  function DEfficiency(attrs: seq<Attribute>, design: Design, num: Numerics): (r: Result<real>)
    ensures r.Ok? ==> 0.0 <= r.value <= 1.0
    ensures MatrixRows(attrs, design).Ok? && num.det(Information(MatrixRows(attrs, design).value, ParameterCount(attrs))) <= SingularThreshold
            ==> r == Ok(0.0)
    ensures MatrixRows(attrs, design).Ok? ==>
              (r.Err? <==> ParameterCount(attrs) == 0 && num.det([]) > SingularThreshold)
    ensures r.Err? && MatrixRows(attrs, design).Ok? ==> r.error == ZeroParameters
  {
    var rows :- MatrixRows(attrs, design);
    var p := ParameterCount(attrs);
    var d := num.det(Information(rows, p));
    if d <= SingularThreshold then Ok(0.0)
    else if p == 0 then Err(ZeroParameters)
    else if |rows| == 0 then Ok(1.0)
    else Ok(Clamp01(num.pow(d, 1.0 / p as real) / |rows| as real))
  }

  /** The p-by-p matrix of zeros. */
  function Zeros(p: nat): seq<seq<int>> {
    seq(p, i => seq(p, j => 0))
  }

  /** With no rows, X'X is the matrix of zeros. */
  lemma {:induction false} InformationOfNoRows(p: nat)
    ensures Information([], p) == Zeros(p)
  {
    var info := Information([], p);
    forall i | 0 <= i < p
      ensures info[i] == Zeros(p)[i]
    {
      forall j | 0 <= j < p
        ensures info[i][j] == Zeros(p)[i][j]
      {
        assert info[i][j] == ColumnDot([], i, j);
      }
    }
  }

  /**
   * With numpy's determinants (1.0 for the empty matrix, 0.0 for a matrix of zeros) a grid with
   * no parameters always fails at `1/p`, and a design with no options scores 0.0.
   */
  lemma {:induction false} DEfficiencyEdges(attrs: seq<Attribute>, design: Design, num: Numerics)
    requires MatrixRows(attrs, design).Ok?
    requires num.det([]) == 1.0
    requires forall p: nat | p > 0 :: num.det(Zeros(p)) == 0.0
    ensures ParameterCount(attrs) == 0 ==> DEfficiency(attrs, design, num) == Err(ZeroParameters)
    ensures ParameterCount(attrs) > 0 && |Flatten(design)| == 0 ==> DEfficiency(attrs, design, num) == Ok(0.0)
  {
    var rows := MatrixRows(attrs, design).value;
    var p := ParameterCount(attrs);
    if p == 0 {
      assert Information(rows, p) == [];
    } else if |Flatten(design)| == 0 {
      assert rows == [];
      InformationOfNoRows(p);
    }
  }

  /** `calculate_d_efficiency`: builds the matrix and scores it. */
  method CalculateDEfficiency(design: Design, attrs: seq<Attribute>, num: Numerics) returns (r: Result<real>)
    ensures r == DEfficiency(attrs, design, num)
  {
    var x :- CreateDesignMatrix(design, attrs);
    var rows := Rows(x);
    var p := x.Length1;
    var d := num.det(Information(rows, p));
    if d <= SingularThreshold {
      return Ok(0.0);
    }
    if p == 0 {
      return Err(ZeroParameters);
    }
    var n := x.Length0;
    if n == 0 {
      return Ok(1.0);
    }
    return Ok(Clamp01(num.pow(d, 1.0 / p as real) / n as real));
  }
}
