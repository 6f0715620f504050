// Finite sums over maps, for the aggregate queries of the plan accounting.
module Sums {
  ghost function Sum<K(!new)>(m: map<K, nat>): nat {
    if m == map[] then 0 else var k :| k in m; m[k] + Sum(m - {k})
  }

  /** The sum does not depend on which key is taken first. */
  lemma {:induction false} SumRemove<K(!new)>(m: map<K, nat>, k: K)
    requires k in m
    ensures Sum(m) == m[k] + Sum(m - {k})
    decreases |m|
  {
    var l :| l in m && Sum(m) == m[l] + Sum(m - {l});
    if l != k {
      SumRemove(m - {l}, k);
      SumRemove(m - {k}, l);
      assert m - {l} - {k} == m - {k} - {l};
    }
  }

  lemma SumUpdate<K(!new)>(m: map<K, nat>, k: K, v: nat)
    ensures Sum(m[k := v]) == v + Sum(m - {k})
    ensures Sum(m) == Sum(m - {k}) + if k in m then m[k] else 0
  {
    SumRemove(m[k := v], k);
    assert m[k := v] - {k} == m - {k};
    if k in m { SumRemove(m, k); } else { assert m - {k} == m; }
  }

  lemma {:induction false} SumBelow<K(!new)>(a: map<K, nat>, b: map<K, nat>)
    requires forall k :: k in a ==> k in b && a[k] <= b[k]
    ensures Sum(a) <= Sum(b)
    decreases |a|
  {
    if a != map[] {
      var k :| k in a;
      SumRemove(a, k);
      SumRemove(b, k);
      SumBelow(a - {k}, b - {k});
    }
  }

  /** A sum over entries that are at least 1 on a set is at least its size. */
  lemma {:induction false} CountBelow<K(!new)>(s: set<K>, m: map<K, nat>)
    requires forall k :: k in s ==> k in m && m[k] >= 1
    ensures |s| <= Sum(m)
    decreases |s|
  {
    if s != {} {
      var k :| k in s;
      SumRemove(m, k);
      CountBelow(s - {k}, m - {k});
    }
  }

  /** The sum of an indicator is the size of the set. */
  lemma {:induction false} CountIs<K(!new)>(s: set<K>, m: map<K, nat>)
    requires forall k :: k in s ==> k in m
    requires forall k :: k in m ==> m[k] == if k in s then 1 else 0
    ensures |s| == Sum(m)
    decreases |m|
  {
    if m == map[] {
      assert s == {};
    } else {
      var k :| k in m;
      SumRemove(m, k);
      CountIs(s - {k}, m - {k});
      if k !in s { assert s - {k} == s; }
    }
  }
}
