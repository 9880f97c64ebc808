/** Sums over the rows of a table. */
module MapSums {
  import opened Common

  ghost function Sum<T>(m: map<Id, T>, weight: T -> nat): nat
    decreases |m|
  {
    if m == map[] then 0
    else
      var k :| k in m;
      weight(m[k]) + Sum(m - {k}, weight)
  }

  lemma {:induction false} SumSplit<T>(m: map<Id, T>, k: Id, weight: T -> nat)
    requires k in m
    ensures Sum(m, weight) == weight(m[k]) + Sum(m - {k}, weight)
    decreases |m|
  {
    var j :| j in m && Sum(m, weight) == weight(m[j]) + Sum(m - {j}, weight);
    if j != k {
      SumSplit(m - {j}, k, weight);
      SumSplit(m - {k}, j, weight);
      assert m - {j} - {k} == m - {k} - {j};
    }
  }

  /** Writing one row replaces its share of the sum. */
  lemma SumWrite<T>(m: map<Id, T>, k: Id, row: T, weight: T -> nat)
    ensures Sum(m[k := row], weight) == Sum(m - {k}, weight) + weight(row)
    ensures k in m ==> Sum(m, weight) == Sum(m - {k}, weight) + weight(m[k])
    ensures k !in m ==> Sum(m, weight) == Sum(m - {k}, weight)
  {
    SumSplit(m[k := row], k, weight);
    assert m[k := row] - {k} == m - {k};
    if k in m { SumSplit(m, k, weight); } else { assert m - {k} == m; }
  }

  /** Rows that weigh no more, over no more keys, sum to no more. */
  lemma {:induction false} SumAtMost<S, T>(small: map<Id, S>, light: S -> nat, big: map<Id, T>, heavy: T -> nat)
    requires small.Keys <= big.Keys
    requires forall k :: k in small ==> light(small[k]) <= heavy(big[k])
    ensures Sum(small, light) <= Sum(big, heavy)
    decreases |small|
  {
    if small != map[] {
      var k :| k in small;
      SumSplit(small, k, light);
      SumSplit(big, k, heavy);
      SumAtMost(small - {k}, light, big - {k}, heavy);
    }
  }
}
