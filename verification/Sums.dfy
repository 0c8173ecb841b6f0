/** Totals over finite maps, whatever order their keys are taken in. */
module Sums {

  ghost function Sum<K(!new)>(amounts: map<K, nat>, keys: set<K>): nat
    requires keys <= amounts.Keys
    decreases |keys|
  {
    if keys == {} then 0 else var k :| k in keys; amounts[k] + Sum(amounts, keys - {k})
  }

  lemma {:induction false} SumWithout<K(!new)>(amounts: map<K, nat>, keys: set<K>, k: K)
    requires keys <= amounts.Keys && k in keys
    ensures Sum(amounts, keys) == amounts[k] + Sum(amounts, keys - {k})
    decreases |keys|
  {
    var j :| j in keys && Sum(amounts, keys) == amounts[j] + Sum(amounts, keys - {j});
    if j != k {
      SumWithout(amounts, keys - {j}, k);
      SumWithout(amounts, keys - {k}, j);
      assert keys - {j} - {k} == keys - {k} - {j};
    }
  }

  lemma {:induction false} SumSame<K(!new)>(a: map<K, nat>, b: map<K, nat>, keys: set<K>)
    requires keys <= a.Keys && keys <= b.Keys && forall k | k in keys :: a[k] == b[k]
    ensures Sum(a, keys) == Sum(b, keys)
    decreases |keys|
  {
    if keys != {} {
      var k :| k in keys;
      SumWithout(a, keys, k);
      SumWithout(b, keys, k);
      SumSame(a, b, keys - {k});
    }
  }
}
