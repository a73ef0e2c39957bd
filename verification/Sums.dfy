/** Sums over the values of a finite map, and how single updates change them. */
module Sums {

  function ValueAt<K(==)>(m: map<K, nat>, k: K): nat { if k in m then m[k] else 0 }

  ghost function Sum<K(!new)>(m: map<K, nat>): nat
    decreases |m|
  {
    if m == map[] then 0
    else
      var k :| k in m;
      m[k] + Sum(m - {k})
  }

  /** The order in which the keys are visited does not matter. */
  lemma {:induction false} SumRemove<K(!new)>(m: map<K, nat>, k: K)
    requires k in m
    ensures Sum(m) == m[k] + Sum(m - {k})
    decreases |m|
  {
    var j :| j in m && Sum(m) == m[j] + Sum(m - {j});
    if j != k {
      SumRemove(m - {j}, k);
      SumRemove(m - {k}, j);
      assert m - {j} - {k} == m - {k} - {j};
    }
  }

  lemma SumUpdate<K(!new)>(m: map<K, nat>, k: K, v: nat)
    ensures Sum(m[k := v]) + ValueAt(m, k) == Sum(m) + v
  {
    SumRemove(m[k := v], k);
    assert m[k := v] - {k} == m - {k};
    if k in m {
      SumRemove(m, k);
    } else {
      assert m - {k} == m;
    }
  }

  lemma SumMember<K(!new)>(m: map<K, nat>, k: K)
    ensures ValueAt(m, k) <= Sum(m)
  {
    if k in m {
      SumRemove(m, k);
    }
  }

  /** Pointwise order carries over to sums. */
  lemma {:induction false} SumMonotone<K(!new)>(m: map<K, nat>, n: map<K, nat>)
    requires m.Keys == n.Keys
    requires forall k :: k in m ==> m[k] <= n[k]
    ensures Sum(m) <= Sum(n)
    decreases |m|
  {
    if m != map[] {
      var k :| k in m;
      SumRemove(m, k);
      SumRemove(n, k);
      SumMonotone(m - {k}, n - {k});
    }
  }

  /** Pointwise addition carries over to sums. */
  lemma {:induction false} SumAdd<K(!new)>(a: map<K, nat>, b: map<K, nat>, c: map<K, nat>)
    requires a.Keys == b.Keys == c.Keys
    requires forall k :: k in a ==> a[k] + b[k] == c[k]
    ensures Sum(a) + Sum(b) == Sum(c)
    decreases |a|
  {
    if a != map[] {
      var k :| k in a;
      SumRemove(a, k);
      SumRemove(b, k);
      SumRemove(c, k);
      SumAdd(a - {k}, b - {k}, c - {k});
    }
  }

  lemma {:induction false} SumZero<K(!new)>(m: map<K, nat>)
    requires forall k :: k in m ==> m[k] == 0
    ensures Sum(m) == 0
    decreases |m|
  {
    if m != map[] {
      var k :| k in m;
      SumRemove(m, k);
      SumZero(m - {k});
    }
  }

  /** Keys that weigh nothing may be added or dropped. */
  lemma {:induction false} SumExtend<K(!new)>(m: map<K, nat>, n: map<K, nat>)
    requires m.Keys <= n.Keys
    requires forall k :: k in m ==> n[k] == m[k]
    requires forall k :: k in n && k !in m ==> n[k] == 0
    ensures Sum(n) == Sum(m)
    decreases |n|
  {
    if n != map[] {
      var k :| k in n;
      SumRemove(n, k);
      if k in m {
        SumRemove(m, k);
      } else {
        assert m - {k} == m;
      }
      SumExtend(m - {k}, n - {k});
    } else {
      assert m == map[];
    }
  }

  /** Ordered maps with equal sums are equal. */
  lemma {:induction false} SumRigid<K(!new)>(m: map<K, nat>, n: map<K, nat>, k: K)
    requires m.Keys == n.Keys && k in m
    requires forall j :: j in m ==> m[j] <= n[j]
    requires Sum(m) == Sum(n)
    ensures m[k] == n[k]
  {
    SumRemove(m, k);
    SumRemove(n, k);
    SumMonotone(m - {k}, n - {k});
  }
}
