/**
 * The level-balance score of a design: how evenly the "attribute::level" keys occur across
 * all options, as 1 - (sum of |count - mean|) / total, floored at 0. The final rounding to
 * four decimals is not modelled; the score here is the exact real before rounding.
 */
module Metrics {
  import opened Designs

  /** The counting key of an attribute/level pair. */
  function KeyOf(attribute: string, level: string): string {
    attribute + "::" + level
  }

  /** The keys contributed by the attributes `ks` of an option, one per attribute. */
  ghost function OptionBagOn(option: Option, ks: set<string>): multiset<string>
    requires ks <= option.Keys
    decreases ks
  {
    if ks == {} then multiset{}
    else
      var a :| a in ks;
      OptionBagOn(option, ks - {a}) + multiset{KeyOf(a, option[a])}
  }

  /** The bag does not depend on which attribute is taken first. */
  lemma {:induction false} OptionBagRemove(option: Option, ks: set<string>, a: string)
    requires ks <= option.Keys && a in ks
    ensures OptionBagOn(option, ks) == OptionBagOn(option, ks - {a}) + multiset{KeyOf(a, option[a])}
    decreases ks
  {
    var b :| b in ks && OptionBagOn(option, ks) == OptionBagOn(option, ks - {b}) + multiset{KeyOf(b, option[b])};
    if b != a {
      OptionBagRemove(option, ks - {b}, a);
      OptionBagRemove(option, ks - {a}, b);
      assert ks - {b} - {a} == ks - {a} - {b};
    }
  }

  /** The keys an option contributes, one per attribute (two attributes may share a key). */
  ghost function OptionBag(option: Option): multiset<string> {
    OptionBagOn(option, option.Keys)
  }

  lemma {:induction false} OptionBagOnSize(option: Option, ks: set<string>)
    requires ks <= option.Keys
    ensures |OptionBagOn(option, ks)| == |ks|
    decreases ks
  {
    if ks != {} {
      var a :| a in ks;
      OptionBagRemove(option, ks, a);
      OptionBagOnSize(option, ks - {a});
    }
  }

  /** A key occurs in the bag iff some attribute of `ks` produces it. */
  lemma {:induction false} OptionBagOnHas(option: Option, ks: set<string>, k: string)
    requires ks <= option.Keys
    ensures k in OptionBagOn(option, ks) <==> exists a | a in ks :: KeyOf(a, option[a]) == k
    decreases ks
  {
    if ks != {} {
      var a :| a in ks;
      OptionBagRemove(option, ks, a);
      OptionBagOnHas(option, ks - {a}, k);
      if exists b | b in ks - {a} :: KeyOf(b, option[b]) == k {
        var b :| b in ks - {a} && KeyOf(b, option[b]) == k;
        assert b in ks;
      }
    }
  }

  /** All keys of all options, with multiplicity. */
  ghost function DesignBag(rows: seq<Option>): multiset<string> {
    if rows == [] then multiset{} else DesignBag(rows[..|rows| - 1]) + OptionBag(rows[|rows| - 1])
  }

  lemma {:induction false} DesignBagSnoc(rows: seq<Option>, option: Option)
    ensures DesignBag(rows + [option]) == DesignBag(rows) + OptionBag(option)
  {
    assert (rows + [option])[..|rows|] == rows;
  }

  lemma {:induction false} DesignBagStep(done: seq<Option>, options: seq<Option>, k: nat)
    requires k < |options|
    ensures DesignBag(done + options[..k + 1]) == DesignBag(done + options[..k]) + OptionBag(options[k])
  {
    assert done + options[..k + 1] == (done + options[..k]) + [options[k]];
    DesignBagSnoc(done + options[..k], options[k]);
  }

  /** The number of attribute entries over all options: the `total` of the counting loop. */
  function EntryCount(rows: seq<Option>): nat {
    if rows == [] then 0 else EntryCount(rows[..|rows| - 1]) + |rows[|rows| - 1]|
  }

  lemma {:induction false} DesignBagSize(rows: seq<Option>)
    ensures |DesignBag(rows)| == EntryCount(rows)
  {
    if rows != [] {
      DesignBagSize(rows[..|rows| - 1]);
      OptionBagOnSize(rows[|rows| - 1], rows[|rows| - 1].Keys);
    }
  }

  /** Some attribute of `option` with its level makes the key `k`. */
  ghost predicate HasKey(option: Option, k: string) {
    exists a | a in option :: KeyOf(a, option[a]) == k
  }

  /** Some option among `rows` contributes `k`. */
  ghost predicate InSomeRow(rows: seq<Option>, k: string) {
    exists i | 0 <= i < |rows| :: HasKey(rows[i], k)
  }

  lemma {:induction false} InSomeRowSplit(rows: seq<Option>, k: string)
    requires rows != []
    ensures InSomeRow(rows, k) <==> InSomeRow(rows[..|rows| - 1], k) || HasKey(rows[|rows| - 1], k)
  {
    var n := |rows| - 1;
    var prefix := rows[..n];
    if InSomeRow(prefix, k) {
      var i :| 0 <= i < n && HasKey(prefix[i], k);
      assert prefix[i] == rows[i];
    }
    if InSomeRow(rows, k) {
      var i :| 0 <= i < |rows| && HasKey(rows[i], k);
      if i < n {
        assert prefix[i] == rows[i];
      }
    }
  }

  lemma {:induction false} DesignBagHas(rows: seq<Option>, k: string)
    ensures k in DesignBag(rows) <==> InSomeRow(rows, k)
  {
    if rows != [] {
      var last := rows[|rows| - 1];
      DesignBagHas(rows[..|rows| - 1], k);
      OptionBagOnHas(last, last.Keys, k);
      InSomeRowSplit(rows, k);
    }
  }

  /** `counts` has the key "attribute::level" iff some option assigns that level to that attribute. */
  lemma {:induction false} CountedKeys(rows: seq<Option>, k: string)
    ensures k in CountsOf(DesignBag(rows))
            <==> exists i, a | 0 <= i < |rows| && a in rows[i] :: KeyOf(a, rows[i][a]) == k
  {
    DesignBagHas(rows, k);
  }

  /** The `counts` dict of a bag of keys: each key that occurs, with its multiplicity. */
  function CountsOf(bag: multiset<string>): (counts: map<string, nat>)
    ensures counts.Keys == set k | k in bag
    ensures forall k | k in counts :: counts[k] == bag[k] > 0
  {
    map k | k in bag :: bag[k]
  }

  lemma {:induction false} CountsOfAdd(bag: multiset<string>, k: string)
    ensures CountsOf(bag + multiset{k})
            == CountsOf(bag)[k := (if k in CountsOf(bag) then CountsOf(bag)[k] else 0) + 1]
  {
  }

  /** `counts` holds exactly the multiplicities of `bag`. */
  ghost predicate Tally(counts: map<string, nat>, bag: multiset<string>) {
    forall k :: (k in counts <==> k in bag) && (k in counts ==> counts[k] == bag[k])
  }

  lemma {:induction false} TallyAdd(counts: map<string, nat>, bag: multiset<string>, k: string)
    requires Tally(counts, bag)
    ensures Tally(counts[k := (if k in counts then counts[k] else 0) + 1], bag + multiset{k})
  {
  }

  lemma {:induction false} TallyIsCountsOf(counts: map<string, nat>, bag: multiset<string>)
    requires Tally(counts, bag)
    ensures counts == CountsOf(bag)
  {
  }

  /** The sum of `counts` over the keys `ks`. */
  ghost function SumCountsOn(counts: map<string, nat>, ks: set<string>): nat
    requires ks <= counts.Keys
    decreases ks
  {
    if ks == {} then 0
    else
      var k :| k in ks;
      counts[k] + SumCountsOn(counts, ks - {k})
  }

  /** `sum(counts.values())`. */
  ghost function SumCounts(counts: map<string, nat>): nat {
    SumCountsOn(counts, counts.Keys)
  }

  lemma {:induction false} SumCountsRemove(counts: map<string, nat>, ks: set<string>, k: string)
    requires ks <= counts.Keys && k in ks
    ensures SumCountsOn(counts, ks) == counts[k] + SumCountsOn(counts, ks - {k})
    decreases ks
  {
    var j :| j in ks && SumCountsOn(counts, ks) == counts[j] + SumCountsOn(counts, ks - {j});
    if j != k {
      SumCountsRemove(counts, ks - {j}, k);
      SumCountsRemove(counts, ks - {k}, j);
      assert ks - {j} - {k} == ks - {k} - {j};
    }
  }

  /** The sum over `ks` only reads the counts of `ks`. */
  lemma {:induction false} SumCountsFrame(c1: map<string, nat>, c2: map<string, nat>, ks: set<string>)
    requires ks <= c1.Keys && ks <= c2.Keys
    requires forall k | k in ks :: c1[k] == c2[k]
    ensures SumCountsOn(c1, ks) == SumCountsOn(c2, ks)
    decreases ks
  {
    if ks != {} {
      var k :| k in ks;
      SumCountsRemove(c1, ks, k);
      SumCountsRemove(c2, ks, k);
      SumCountsFrame(c1, c2, ks - {k});
    }
  }

  /** One increment of `counts[key]` adds one to the sum of the counts. */
  lemma {:induction false} SumCountsIncrement(counts: map<string, nat>, x: string)
    ensures SumCounts(counts[x := (if x in counts then counts[x] else 0) + 1]) == SumCounts(counts) + 1
  {
    var c' := counts[x := (if x in counts then counts[x] else 0) + 1];
    var ks := counts.Keys - {x};
    assert c'.Keys - {x} == ks;
    SumCountsRemove(c', c'.Keys, x);
    SumCountsFrame(c', counts, ks);
    if x in counts {
      SumCountsRemove(counts, counts.Keys, x);
    } else {
      assert counts.Keys == ks;
    }
  }

  /** `total` equals the sum of the counts: each key occurrence is counted once. */
  lemma {:induction false} SumCountsOfBag(bag: multiset<string>)
    ensures SumCounts(CountsOf(bag)) == |bag|
    decreases |bag|
  {
    if |bag| > 0 {
      var x :| x in bag;
      var rest := bag - multiset{x};
      assert bag == rest + multiset{x};
      SumCountsOfBag(rest);
      CountsOfAdd(rest, x);
      SumCountsIncrement(CountsOf(rest), x);
    }
  }

  function Abs(x: real): real {
    if x < 0.0 then -x else x
  }

  /** The sum of `abs(c - avg)` over the counts of the keys `ks`. */
  ghost function SumDeviationOn(counts: map<string, nat>, ks: set<string>, avg: real): (s: real)
    requires ks <= counts.Keys
    ensures s >= 0.0
    decreases ks
  {
    if ks == {} then 0.0
    else
      var k :| k in ks;
      Abs(counts[k] as real - avg) + SumDeviationOn(counts, ks - {k}, avg)
  }

  /** `sum(abs(c - avg) for c in counts.values())`. */
  ghost function SumDeviation(counts: map<string, nat>, avg: real): real {
    SumDeviationOn(counts, counts.Keys, avg)
  }

  lemma {:induction false} SumDeviationRemove(counts: map<string, nat>, ks: set<string>, avg: real, k: string)
    requires ks <= counts.Keys && k in ks
    ensures SumDeviationOn(counts, ks, avg) == Abs(counts[k] as real - avg) + SumDeviationOn(counts, ks - {k}, avg)
    decreases ks
  {
    var j :| j in ks && SumDeviationOn(counts, ks, avg) == Abs(counts[j] as real - avg) + SumDeviationOn(counts, ks - {j}, avg);
    if j != k {
      SumDeviationRemove(counts, ks - {j}, avg, k);
      SumDeviationRemove(counts, ks - {k}, avg, j);
      assert ks - {j} - {k} == ks - {k} - {j};
    }
  }

  /** The generator `sum(abs(c - avg) for c in counts.values())`, one key at a time. */
  method SumAbsDeviation(counts: map<string, nat>, avg: real) returns (s: real)
    ensures s == SumDeviation(counts, avg)
  {
    s := 0.0;
    var rest := counts.Keys;
    while rest != {}
      invariant rest <= counts.Keys
      invariant s + SumDeviationOn(counts, rest, avg) == SumDeviation(counts, avg)
      decreases rest
    {
      var k :| k in rest;
      SumDeviationRemove(counts, rest, avg, k);
      s := s + Abs(counts[k] as real - avg);
      rest := rest - {k};
    }
  }

  /** The straight-line part: mean, deviation and the floored score; 0.0 when nothing was counted. */
  ghost function ScoreOfCounts(counts: map<string, nat>, total: nat): (s: real)
    ensures 0.0 <= s <= 1.0
  {
    if total == 0 then 0.0
    else
      var avg := total as real / (if |counts| > 1 then |counts| else 1) as real;
      var deviation := SumDeviation(counts, avg) / total as real;
      if 1.0 - deviation > 0.0 then 1.0 - deviation else 0.0
  }

  /** `naive_level_balance_score` before rounding: 0.0 for no tasks, else the score of the counts. */
  ghost function BalanceScore(tasks: Design): real {
    if tasks == [] then 0.0
    else
      var bag := DesignBag(Flatten(tasks));
      ScoreOfCounts(CountsOf(bag), |bag|)
  }

  /** The innermost loop: count every attribute entry of one option. */
  method CountOption(counts0: map<string, nat>, total0: nat, ghost bag0: multiset<string>, option: Option)
    returns (counts: map<string, nat>, total: nat)
    requires Tally(counts0, bag0) && total0 == |bag0|
    ensures Tally(counts, bag0 + OptionBag(option))
    ensures total == |bag0 + OptionBag(option)|
  {
    counts, total := counts0, total0;
    ghost var bag := bag0;
    var items := option.Keys;
    while items != {}
      invariant items <= option.Keys
      invariant bag + OptionBagOn(option, items) == bag0 + OptionBag(option)
      invariant Tally(counts, bag) && total == |bag|
      decreases items
    {
      var a :| a in items;
      var key := KeyOf(a, option[a]);
      OptionBagRemove(option, items, a);
      TallyAdd(counts, bag, key);
      counts := counts[key := (if key in counts then counts[key] else 0) + 1];
      total := total + 1;
      bag := bag + multiset{key};
      items := items - {a};
    }
  }

  /** The loop over one task's options, continuing the counts of the options `done` before it. */
  method CountTask(counts0: map<string, nat>, total0: nat, ghost done: seq<Option>, options: seq<Option>)
    returns (counts: map<string, nat>, total: nat)
    requires Tally(counts0, DesignBag(done)) && total0 == |DesignBag(done)|
    ensures Tally(counts, DesignBag(done + options)) && total == |DesignBag(done + options)|
  {
    counts, total := counts0, total0;
    assert done + options[..0] == done;
    for k := 0 to |options|
      invariant Tally(counts, DesignBag(done + options[..k]))
      invariant total == |DesignBag(done + options[..k])|
    {
      counts, total := CountOption(counts, total, DesignBag(done + options[..k]), options[k]);
      DesignBagStep(done, options, k);
    }
    assert options[..|options|] == options;
  }

  /** The counting loops: one increment of `counts[key]` and of `total` per attribute entry. */
  method CountLevels(tasks: Design) returns (counts: map<string, nat>, total: nat)
    ensures counts == CountsOf(DesignBag(Flatten(tasks)))
    ensures total == |DesignBag(Flatten(tasks))| == EntryCount(Flatten(tasks))
  {
    counts := map[];
    total := 0;
    for t := 0 to |tasks|
      invariant Tally(counts, DesignBag(Flatten(tasks[..t])))
      invariant total == |DesignBag(Flatten(tasks[..t]))|
    {
      counts, total := CountTask(counts, total, Flatten(tasks[..t]), tasks[t].options);
      FlattenSnoc(tasks, t);
    }
    assert tasks[..|tasks|] == tasks;
    TallyIsCountsOf(counts, DesignBag(Flatten(tasks)));
    DesignBagSize(Flatten(tasks));
  }

  /**
   * `naive_level_balance_score`, before rounding: 0.0 for no tasks or no entries, otherwise
   * one minus the mean absolute deviation of the key counts relative to the total, floored at 0.
   */
  method NaiveLevelBalanceScore(tasks: Design) returns (score: real)
    ensures score == BalanceScore(tasks)
    ensures 0.0 <= score <= 1.0
  {
    if tasks == [] {
      return 0.0;
    }
    var counts, total := CountLevels(tasks);
    if total == 0 {
      return 0.0;
    }
    var avg := total as real / (if |counts| > 1 then |counts| else 1) as real;
    var spread := SumAbsDeviation(counts, avg);
    var deviation := spread / total as real;
    score := if 1.0 - deviation > 0.0 then 1.0 - deviation else 0.0;
  }

  /** The counts of a bag add up to its size: `total` is the sum of `counts`. */
  lemma {:induction false} CountsAddUpToTotal(tasks: Design)
    ensures SumCounts(CountsOf(DesignBag(Flatten(tasks)))) == EntryCount(Flatten(tasks))
  {
    SumCountsOfBag(DesignBag(Flatten(tasks)));
    DesignBagSize(Flatten(tasks));
  }

  /** When every counted key occurs equally often the deviation is zero and the score is 1.0. */
  lemma {:induction false} EqualCountsScoreOne(counts: map<string, nat>, total: nat, c: nat)
    requires total > 0 && SumCounts(counts) == total
    requires forall k | k in counts :: counts[k] == c
    ensures ScoreOfCounts(counts, total) == 1.0
  {
    SumCountsConst(counts, counts.Keys, c);
    var n := |counts|;
    assert n > 0;
    assert total as real == (c * n) as real == c as real * n as real;
    var avg := total as real / (if n > 1 then n else 1) as real;
    assert avg == c as real;
    SumDeviationZero(counts, counts.Keys, c);
  }

  lemma {:induction false} SumCountsConst(counts: map<string, nat>, ks: set<string>, c: nat)
    requires ks <= counts.Keys
    requires forall k | k in ks :: counts[k] == c
    ensures SumCountsOn(counts, ks) == c * |ks|
    decreases ks
  {
    if ks != {} {
      var k :| k in ks;
      SumCountsRemove(counts, ks, k);
      SumCountsConst(counts, ks - {k}, c);
    }
  }

  lemma {:induction false} SumDeviationZero(counts: map<string, nat>, ks: set<string>, c: nat)
    requires ks <= counts.Keys
    requires forall k | k in ks :: counts[k] == c
    ensures SumDeviationOn(counts, ks, c as real) == 0.0
    decreases ks
  {
    if ks != {} {
      var k :| k in ks;
      SumDeviationRemove(counts, ks, c as real, k);
      SumDeviationZero(counts, ks - {k}, c);
    }
  }

  /** A design with no attribute entries at all (no options, or only empty ones) scores 0.0. */
  lemma {:induction false} NoEntriesScoreZero(tasks: Design)
    requires EntryCount(Flatten(tasks)) == 0
    ensures BalanceScore(tasks) == 0.0
  {
    DesignBagSize(Flatten(tasks));
  }
}
