/** Sums over the values of a map, and counts over a sequence. */
module Sums {

  ghost function Sum<K(!new)>(m: map<K, int>): int {
    if m == map[] then 0
    else
      var k :| k in m;
      m[k] + Sum(m - {k})
  }

  /** The order in which a map is summed does not matter. */
  lemma {:induction false} SumPick<K(!new)>(m: map<K, int>, k: K)
    requires k in m
    ensures Sum(m) == m[k] + Sum(m - {k})
    decreases |m|
  {
    var j :| j in m && Sum(m) == m[j] + Sum(m - {j});
    if j != k {
      SumPick(m - {j}, k);
      SumPick(m - {k}, j);
      assert m - {j} - {k} == m - {k} - {j};
    }
  }

  lemma SumUpdate<K(!new)>(m: map<K, int>, k: K, v: int)
    ensures Sum(m[k := v]) == Sum(m) + v - (if k in m then m[k] else 0)
  {
    SumPick(m[k := v], k);
    assert m[k := v] - {k} == m - {k};
    if k in m {
      SumPick(m, k);
    } else {
      assert m - {k} == m;
    }
  }

  /** Entries that are zero do not matter. */
  lemma {:induction false} SumOfZeros<K(!new)>(m: map<K, int>)
    requires forall k :: k in m ==> m[k] == 0
    ensures Sum(m) == 0
    decreases |m|
  {
    if m != map[] {
      var k :| k in m;
      SumPick(m, k);
      SumOfZeros(m - {k});
    }
  }

  /** Extending a map by zeros does not change its sum. */
  lemma {:induction false} SumWithZeros<K(!new)>(m: map<K, int>, n: map<K, int>)
    requires forall k :: k in m ==> k in n && n[k] == m[k]
    requires forall k :: k in n && k !in m ==> n[k] == 0
    ensures Sum(n) == Sum(m)
    decreases |m|
  {
    if m == map[] {
      SumOfZeros(n);
    } else {
      var k :| k in m;
      SumPick(m, k);
      SumPick(n, k);
      SumWithZeros(m - {k}, n - {k});
    }
  }
}
