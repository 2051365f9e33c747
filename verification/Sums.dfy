/** Options, and sums over finite maps. Iterating a hash map visits its entries in an unspecified order, so
    the sum is defined by removing an arbitrary key at a time and is then shown not to depend
    on which key is taken. */
module Sums {

  datatype Option<+T> = None | Some(value: T)

  function Max(x: real, y: real): real { if x >= y then x else y }
  function Min(x: real, y: real): real { if x <= y then x else y }

  /** A product, named so that proofs can treat it as an atom. */
  function Times(x: real, y: real): real { x * y }

  ghost function Sum<K>(m: map<K, real>): real
  {
    if m == map[] then 0.0
    else
      var k :| k in m;
      m[k] + Sum(m - {k})
  }

  ghost predicate NonNegative<K>(m: map<K, real>)
  {
    forall k :: k in m ==> m[k] >= 0.0
  }

  /** Any key may be taken out first. */
  lemma {:induction false} SumRemove<K>(m: map<K, real>, k: K)
    requires k in m
    ensures Sum(m) == m[k] + Sum(m - {k})
    decreases |m|
  {
    var j :| j in m && Sum(m) == m[j] + Sum(m - {j});
    if j != k {
      assert |m - {j}| < |m| && |m - {k}| < |m| by { SmallerMap(m, j); SmallerMap(m, k); }
      SumRemove(m - {j}, k);
      SumRemove(m - {k}, j);
      assert m - {j} - {k} == m - {k} - {j};
    }
  }

  lemma SmallerMap<K>(m: map<K, real>, k: K)
    requires k in m
    ensures |m - {k}| < |m|
  {
    assert (m - {k}).Keys == m.Keys - {k};
    assert |(m - {k}).Keys| == |m.Keys| - 1;
  }

  lemma SumInsert<K>(m: map<K, real>, k: K, v: real)
    requires k !in m
    ensures Sum(m[k := v]) == Sum(m) + v
  {
    SumRemove(m[k := v], k);
    assert m[k := v] - {k} == m;
  }

  lemma {:induction false} SumNonNegative<K>(m: map<K, real>)
    requires NonNegative(m)
    ensures Sum(m) >= 0.0
    decreases |m|
  {
    if m != map[] {
      var k :| k in m;
      SumRemove(m, k);
      SmallerMap(m, k);
      SumNonNegative(m - {k});
    }
  }

  /** Dropping entries never raises a sum of non-negative amounts. */
  lemma {:induction false} SumSubmap<K>(small: map<K, real>, big: map<K, real>)
    requires NonNegative(big)
    requires forall k :: k in small ==> k in big && small[k] == big[k]
    ensures Sum(small) <= Sum(big)
    decreases |big|
  {
    if big != map[] {
      var k :| k in big;
      SumRemove(big, k);
      SmallerMap(big, k);
      if k in small {
        SumRemove(small, k);
        SumSubmap(small - {k}, big - {k});
      } else {
        SumSubmap(small, big - {k});
      }
    } else {
      assert small == map[];
    }
  }
}
