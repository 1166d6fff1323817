/**
 * df.groupby(key)[value].sum() over two parallel columns: rows with a missing key belong to
 * no group, and each group sums its present values.
 */
module GroupBy {
  import opened Options
  import opened Sequences
  import opened Aggregates

  /** Sum of the present values on the rows whose key equals key; for key None, the rows groupby drops. */
  function KeyTotal<K(==)>(keys: seq<Option<K>>, values: seq<Option<real>>, key: Option<K>): real
    requires |keys| == |values|
    decreases |keys|
  {
    if keys == [] then 0.0
    else (if keys[0] == key then Contribution(values[0]) else 0.0) + KeyTotal(keys[1..], values[1..], key)
  }

  /** One (key, group sum) pair per key of ks, in the order of ks. */
  function Groups<K(==)>(keys: seq<Option<K>>, values: seq<Option<real>>, ks: seq<K>): (g: seq<(K, real)>)
    requires |keys| == |values|
    ensures |g| == |ks|
    ensures forall i :: 0 <= i < |ks| ==> g[i].0 == ks[i] && g[i].1 == KeyTotal(keys, values, Some(ks[i]))
    decreases |ks|
  {
    if ks == [] then [] else [(ks[0], KeyTotal(keys, values, Some(ks[0])))] + Groups(keys, values, ks[1..])
  }

  function SumOfValues<K>(g: seq<(K, real)>): real
    decreases |g|
  {
    if g == [] then 0.0 else g[0].1 + SumOfValues(g[1..])
  }

  /** Taking away the first row takes its value out of the one group, if any, whose key it has. */
  lemma {:induction false} GroupsWithoutFirstRow<K>(keys: seq<Option<K>>, values: seq<Option<real>>, ks: seq<K>)
    requires |keys| == |values| > 0 && NoDuplicates(ks)
    ensures SumOfValues(Groups(keys, values, ks))
         == (if keys[0].Some? && keys[0].value in ks then Contribution(values[0]) else 0.0)
            + SumOfValues(Groups(keys[1..], values[1..], ks))
    decreases |ks|
  {
    if ks != [] {
      GroupsWithoutFirstRow(keys, values, ks[1..]);
      if keys[0] == Some(ks[0]) {
        assert ks[0] !in ks[1..];
      }
    }
  }

  lemma {:induction false} GroupsOfNoRows<K>(ks: seq<K>)
    ensures SumOfValues(Groups([], [], ks)) == 0.0
    decreases |ks|
  {
    if ks != [] {
      GroupsOfNoRows(ks[1..]);
    }
  }

  /**
   * Summing the groups of all present keys gives the column total less what the rows with a
   * missing key hold.
   */
  lemma {:induction false} GroupsAddUp<K>(keys: seq<Option<K>>, values: seq<Option<real>>, ks: seq<K>)
    requires |keys| == |values| && NoDuplicates(ks)
    requires forall i :: 0 <= i < |keys| && keys[i].Some? ==> keys[i].value in ks
    ensures SumOfValues(Groups(keys, values, ks)) + KeyTotal(keys, values, None) == SumPresent(values)
    decreases |keys|
  {
    if keys == [] {
      GroupsOfNoRows(ks);
    } else {
      assert forall i :: 1 <= i < |keys| ==> keys[i] == keys[1..][i - 1];
      GroupsWithoutFirstRow(keys, values, ks);
      GroupsAddUp(keys[1..], values[1..], ks);
    }
  }

  /** Without missing keys, no row is left out of the groups. */
  lemma {:induction false} NothingUngrouped<K>(keys: seq<Option<K>>, values: seq<Option<real>>)
    requires |keys| == |values|
    requires forall i :: 0 <= i < |keys| ==> keys[i].Some?
    ensures KeyTotal(keys, values, None) == 0.0
    decreases |keys|
  {
    if keys != [] {
      assert forall i :: 1 <= i < |keys| ==> keys[i] == keys[1..][i - 1];
      NothingUngrouped(keys[1..], values[1..]);
    }
  }

  predicate ValuesDescending<K>(g: seq<(K, real)>)
  {
    forall i, j :: 0 <= i < j < |g| ==> g[i].1 >= g[j].1
  }

  function InsertByValue<K(==)>(p: (K, real), g: seq<(K, real)>): (r: seq<(K, real)>)
    requires ValuesDescending(g)
    ensures ValuesDescending(r)
    ensures multiset(r) == multiset(g) + multiset{p}
    decreases |g|
  {
    if g == [] || g[0].1 <= p.1 then
      ConsDescending(p, g);
      [p] + g
    else
      var rest := InsertByValue(p, g[1..]);
      assert g == [g[0]] + g[1..];
      BelowFirst(p, g, rest);
      ConsDescending(g[0], rest);
      [g[0]] + rest
  }

  lemma ConsDescending<K>(x: (K, real), g: seq<(K, real)>)
    requires ValuesDescending(g) && forall j :: 0 <= j < |g| ==> g[j].1 <= x.1
    ensures ValuesDescending([x] + g)
  {
    var r := [x] + g;
    forall i, j | 0 <= i < j < |r| ensures r[i].1 >= r[j].1 {
      assert r[j] == g[j - 1];
      if i > 0 {
        assert r[i] == g[i - 1];
      }
    }
  }

  /** Whatever InsertByValue places after the head of g stays at or below the head's value. */
  lemma BelowFirst<K>(p: (K, real), g: seq<(K, real)>, rest: seq<(K, real)>)
    requires ValuesDescending(g) && g != [] && p.1 < g[0].1
    requires multiset(rest) == multiset(g[1..]) + multiset{p}
    ensures forall j :: 0 <= j < |rest| ==> rest[j].1 <= g[0].1
  {
    forall j | 0 <= j < |rest| ensures rest[j].1 <= g[0].1 {
      assert rest[j] in multiset(rest);
      if rest[j] != p {
        assert rest[j] in multiset(g[1..]);
        var k :| 0 <= k < |g[1..]| && g[1..][k] == rest[j];
        assert g[k + 1] == rest[j];
      }
    }
  }

  /** Series.sort_values(ascending=False): highest value first; nothing is said about ties. */
  function SortByValueDescending<K(==)>(g: seq<(K, real)>): (r: seq<(K, real)>)
    ensures ValuesDescending(r)
    ensures multiset(r) == multiset(g)
    decreases |g|
  {
    if g == [] then []
    else
      assert g == [g[0]] + g[1..];
      InsertByValue(g[0], SortByValueDescending(g[1..]))
  }

  lemma {:induction false} InsertAddsValue<K>(p: (K, real), g: seq<(K, real)>)
    requires ValuesDescending(g)
    ensures SumOfValues(InsertByValue(p, g)) == p.1 + SumOfValues(g)
    decreases |g|
  {
    if g == [] || g[0].1 <= p.1 {
      assert ([p] + g)[1..] == g;
    } else {
      InsertAddsValue(p, g[1..]);
      var rest := InsertByValue(p, g[1..]);
      assert ([g[0]] + rest)[1..] == rest;
    }
  }

  /** Reordering the groups leaves their sum unchanged. */
  lemma {:induction false} SortKeepsSum<K>(g: seq<(K, real)>)
    ensures SumOfValues(SortByValueDescending(g)) == SumOfValues(g)
    decreases |g|
  {
    if g != [] {
      SortKeepsSum(g[1..]);
      InsertAddsValue(g[0], SortByValueDescending(g[1..]));
    }
  }

  /** The groups of the keys ks, ordered by their sums, highest first (groupby(...).sum().sort_values(ascending=False)). */
  function RankedGroups<K(==)>(keys: seq<Option<K>>, values: seq<Option<real>>, ks: seq<K>): (r: seq<(K, real)>)
    requires |keys| == |values| && NoDuplicates(ks)
    ensures ValuesDescending(r)
    ensures forall i :: 0 <= i < |r| ==> r[i].0 in ks && r[i].1 == KeyTotal(keys, values, Some(r[i].0))
    ensures forall k :: k in ks ==> exists i :: 0 <= i < |r| && r[i].0 == k
    ensures forall i, j :: 0 <= i < j < |r| ==> r[i].0 != r[j].0
    ensures SumOfValues(r) == SumOfValues(Groups(keys, values, ks))
  {
    var groups := Groups(keys, values, ks);
    var r := SortByValueDescending(groups);
    RankedAreGroups(keys, values, ks, r);
    RankedCoverKeys(keys, values, ks, r);
    RankedKeysDistinct(keys, values, ks, r);
    SortKeepsSum(groups);
    r
  }

  lemma RankedAreGroups<K>(keys: seq<Option<K>>, values: seq<Option<real>>, ks: seq<K>, r: seq<(K, real)>)
    requires |keys| == |values|
    requires r == SortByValueDescending(Groups(keys, values, ks))
    ensures forall i :: 0 <= i < |r| ==> r[i].0 in ks && r[i].1 == KeyTotal(keys, values, Some(r[i].0))
  {
    var groups := Groups(keys, values, ks);
    forall i | 0 <= i < |r| ensures r[i].0 in ks && r[i].1 == KeyTotal(keys, values, Some(r[i].0)) {
      assert r[i] in multiset(groups);
      var g :| 0 <= g < |groups| && groups[g] == r[i];
    }
  }

  lemma RankedCoverKeys<K>(keys: seq<Option<K>>, values: seq<Option<real>>, ks: seq<K>, r: seq<(K, real)>)
    requires |keys| == |values|
    requires r == SortByValueDescending(Groups(keys, values, ks))
    ensures forall k :: k in ks ==> exists i :: 0 <= i < |r| && r[i].0 == k
  {
    var groups := Groups(keys, values, ks);
    forall k | k in ks ensures exists i :: 0 <= i < |r| && r[i].0 == k {
      var g :| 0 <= g < |ks| && ks[g] == k;
      assert groups[g] in multiset(r);
      var i :| 0 <= i < |r| && r[i] == groups[g];
    }
  }

  lemma RankedKeysDistinct<K>(keys: seq<Option<K>>, values: seq<Option<real>>, ks: seq<K>, r: seq<(K, real)>)
    requires |keys| == |values| && NoDuplicates(ks)
    requires r == SortByValueDescending(Groups(keys, values, ks))
    ensures forall i, j :: 0 <= i < j < |r| ==> r[i].0 != r[j].0
  {
    var groups := Groups(keys, values, ks);
    GroupsDistinct(keys, values, ks);
    PermutationKeepsDistinct(groups, r);
    RankedAreGroups(keys, values, ks, r);
    forall i, j | 0 <= i < j < |r| ensures r[i].0 != r[j].0 {
      assert r[i] != r[j];
    }
  }

  lemma GroupsDistinct<K>(keys: seq<Option<K>>, values: seq<Option<real>>, ks: seq<K>)
    requires |keys| == |values| && NoDuplicates(ks)
    ensures NoDuplicates(Groups(keys, values, ks))
  {
    var groups := Groups(keys, values, ks);
    forall i, j | 0 <= i < j < |groups| ensures groups[i] != groups[j] {
      assert groups[i].0 == ks[i] && groups[j].0 == ks[j];
    }
  }

  predicate StrictlyIncreasing(ds: seq<int>)
  {
    forall i, j :: 0 <= i < j < |ds| ==> ds[i] < ds[j]
  }

  function InsertKey(d: int, ds: seq<int>): (r: seq<int>)
    requires StrictlyIncreasing(ds)
    ensures StrictlyIncreasing(r)
    ensures forall x :: x in r <==> x == d || x in ds
    decreases |ds|
  {
    if ds == [] || d < ds[0] then [d] + ds
    else if d == ds[0] then ds
    else
      var rest := InsertKey(d, ds[1..]);
      assert forall j :: 0 <= j < |rest| ==> ds[0] < rest[j] by {
        forall j | 0 <= j < |rest| ensures ds[0] < rest[j] {
          assert rest[j] in rest;
        }
      }
      [ds[0]] + rest
  }

  /** The group keys of groupby(sort=True) on an integer column: each present key once, ascending. */
  function SortedKeys(keys: seq<Option<int>>): (ds: seq<int>)
    ensures StrictlyIncreasing(ds)
    ensures forall d :: d in ds <==> Some(d) in keys
    decreases |keys|
  {
    if keys == [] then []
    else
      assert keys == [keys[0]] + keys[1..];
      var rest := SortedKeys(keys[1..]);
      if keys[0].Some? then InsertKey(keys[0].value, rest) else rest
  }
}
