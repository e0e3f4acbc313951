/** Sums over the entries of a map, with a weight for each entry. */
module MapSums {

  ghost function Sum<K, V>(m: map<K, V>, w: (K, V) -> int): int
    decreases |m|
  {
    if m == map[] then 0
    else
      var k :| k in m;
      w(k, m[k]) + Sum(m - {k}, w)
  }

  /** The sum does not depend on which entry is taken first. */
  lemma {:induction false} SumRemove<K, V>(m: map<K, V>, k: K, w: (K, V) -> int)
    requires k in m
    ensures Sum(m, w) == w(k, m[k]) + Sum(m - {k}, w)
    decreases |m|
  {
    var first :| first in m && Sum(m, w) == w(first, m[first]) + Sum(m - {first}, w);
    if first != k {
      SumRemove(m - {first}, k, w);
      SumRemove(m - {k}, first, w);
      assert (m - {first}) - {k} == (m - {k}) - {first};
    }
  }

  lemma SumOfOne<K, V>(m: map<K, V>, k: K, w: (K, V) -> int)
    requires m.Keys == {k}
    ensures Sum(m, w) == w(k, m[k])
  {
    SumRemove(m, k, w);
    assert m - {k} == map[];
  }

  /** A sum in which only one entry counts. */
  lemma {:induction false} SumOfOnly<K, V>(m: map<K, V>, k: K, w: (K, V) -> int)
    requires k in m && forall j :: j in m && j != k ==> w(j, m[j]) == 0
    ensures Sum(m, w) == w(k, m[k])
  {
    SumRemove(m, k, w);
    SumOfNone(m - {k}, w);
  }

  lemma {:induction false} SumOfNone<K, V>(m: map<K, V>, w: (K, V) -> int)
    requires forall j :: j in m ==> w(j, m[j]) == 0
    ensures Sum(m, w) == 0
    decreases |m|
  {
    if m != map[] {
      var j :| j in m;
      SumRemove(m, j, w);
      SumOfNone(m - {j}, w);
    }
  }

  lemma SumOfTwo<K, V>(m: map<K, V>, j: K, k: K, w: (K, V) -> int)
    requires m.Keys == {j, k} && j != k
    ensures Sum(m, w) == w(j, m[j]) + w(k, m[k])
  {
    SumRemove(m, j, w);
    SumOfOne(m - {j}, k, w);
  }

  /** Setting one entry changes the sum by that entry alone. */
  lemma SumUpdate<K, V>(m: map<K, V>, k: K, v: V, w: (K, V) -> int)
    ensures Sum(m[k := v], w) == Sum(m, w) - (if k in m then w(k, m[k]) else 0) + w(k, v)
  {
    SumRemove(m[k := v], k, w);
    if k in m {
      SumRemove(m, k, w);
      assert m[k := v] - {k} == m - {k};
    } else {
      assert m[k := v] - {k} == m;
    }
  }

  lemma {:induction false} SumNonNegative<K, V>(m: map<K, V>, w: (K, V) -> int)
    requires forall k :: k in m ==> w(k, m[k]) >= 0
    ensures Sum(m, w) >= 0
    ensures forall k :: k in m ==> w(k, m[k]) <= Sum(m, w)
    decreases |m|
  {
    forall k | k in m ensures 0 <= w(k, m[k]) <= Sum(m, w) {
      SumRemove(m, k, w);
      SumNonNegative(m - {k}, w);
    }
    if m == map[] {} else {
      var k :| k in m;
      assert 0 <= w(k, m[k]) <= Sum(m, w);
    }
  }

  /** A positive sum has a positive entry. */
  lemma {:induction false} SumPositive<K, V>(m: map<K, V>, w: (K, V) -> int)
    requires Sum(m, w) > 0
    ensures exists k :: k in m && w(k, m[k]) > 0
    decreases |m|
  {
    var k :| k in m && Sum(m, w) == w(k, m[k]) + Sum(m - {k}, w);
    if w(k, m[k]) <= 0 {
      SumPositive(m - {k}, w);
      var j :| j in m - {k} && w(j, (m - {k})[j]) > 0;
      assert j in m && w(j, m[j]) > 0;
    }
  }

  lemma {:induction false} SubsetIsNotLarger<T>(s: set<T>, t: set<T>)
    requires s <= t
    ensures |s| <= |t|
  {
    if s != {} {
      var x :| x in s;
      SubsetIsNotLarger(s - {x}, t - {x});
    }
  }
}
