/** Sums of the values of a finite map. */
module Totals {

  ghost function Sum<K(!new)>(m: map<K, int>): int
    decreases |m|
  {
    if m == map[] then 0
    else
      var k :| k in m;
      assert |m - {k}| == |m| - 1 by { Smaller(m, k); }
      m[k] + Sum(m - {k})
  }

  lemma Smaller<K(!new)>(m: map<K, int>, k: K)
    requires k in m
    ensures |m - {k}| == |m| - 1
  {
    assert (m - {k}).Keys == m.Keys - {k};
    assert |(m - {k}).Keys| == |m.Keys| - 1;
  }

  /** The sum does not depend on which key is taken out first. */
  lemma {:induction false} SumSplit<K(!new)>(m: map<K, int>, k: K)
    requires k in m
    ensures Sum(m) == m[k] + Sum(m - {k})
    decreases |m|
  {
    var j :| j in m && Sum(m) == m[j] + Sum(m - {j});
    if j != k {
      Smaller(m, j);
      Smaller(m, k);
      SumSplit(m - {j}, k);
      SumSplit(m - {k}, j);
      assert (m - {j}) - {k} == (m - {k}) - {j};
    }
  }

  lemma SumPut<K(!new)>(m: map<K, int>, k: K, v: int)
    ensures Sum(m[k := v]) == (if k in m then Sum(m) - m[k] else Sum(m)) + v
  {
    SumSplit(m[k := v], k);
    assert m[k := v] - {k} == m - {k};
    if k in m {
      SumSplit(m, k);
    } else {
      assert m - {k} == m;
    }
  }

  lemma {:induction false} SumNonNegative<K(!new)>(m: map<K, int>)
    requires forall k :: k in m ==> m[k] >= 0
    ensures Sum(m) >= 0
    decreases |m|
  {
    if m == map[] {
    } else {
      var k :| k in m;
      Smaller(m, k);
      SumSplit(m, k);
      SumNonNegative(m - {k});
    }
  }

  /** With non-negative values, any two distinct entries together stay below the total. */
  lemma PairBelowSum<K(!new)>(m: map<K, int>, a: K, b: K)
    requires forall k :: k in m ==> m[k] >= 0
    requires a in m && b in m && a != b
    ensures m[a] + m[b] <= Sum(m)
  {
    SumSplit(m, a);
    SumSplit(m - {a}, b);
    SumNonNegative(m - {a} - {b});
  }

  lemma OneBelowSum<K(!new)>(m: map<K, int>, a: K)
    requires forall k :: k in m ==> m[k] >= 0
    requires a in m
    ensures m[a] <= Sum(m)
  {
    SumSplit(m, a);
    SumNonNegative(m - {a});
  }
}
