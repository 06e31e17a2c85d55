/** Finite sums over sets and maps, used for byte budgets and reference ledgers. */
module Sums {

  /** The sum of f over a finite set. */
  ghost function Sum<K(!new)>(s: set<K>, f: K -> nat): nat
  {
    if s == {} then 0 else
      var k :| k in s;
      f(k) + Sum(s - {k}, f)
  }

  /** Any element may be taken out first. */
  lemma {:induction false} SumExtract<K(!new)>(s: set<K>, f: K -> nat, k: K)
    requires k in s
    ensures Sum(s, f) == f(k) + Sum(s - {k}, f)
    decreases s
  {
    var j :| j in s && Sum(s, f) == f(j) + Sum(s - {j}, f);
    if j != k {
      SumExtract(s - {j}, f, k);
      SumExtract(s - {k}, f, j);
      assert s - {j} - {k} == s - {k} - {j};
    }
  }

  lemma {:induction false} SumUnion<K(!new)>(s: set<K>, t: set<K>, f: K -> nat)
    requires s !! t
    ensures Sum(s + t, f) == Sum(s, f) + Sum(t, f)
    decreases t
  {
    if t == {} {
      assert s + t == s;
    } else {
      var k :| k in t;
      SumExtract(t, f, k);
      SumExtract(s + t, f, k);
      assert s + t - {k} == s + (t - {k});
      SumUnion(s, t - {k}, f);
    }
  }

  /** The multiset sum of f over the values of a finite map. */
  ghost function Gather<K(!new), V(!new), P(!new)>(m: map<K, V>, f: V -> multiset<P>): multiset<P>
    decreases |m.Keys|
  {
    if m.Keys == {} then multiset{} else
      var k :| k in m.Keys;
      f(m[k]) + Gather(m - {k}, f)
  }

  lemma {:induction false} GatherExtract<K(!new), V(!new), P(!new)>(m: map<K, V>, f: V -> multiset<P>, k: K)
    requires k in m
    ensures Gather(m, f) == f(m[k]) + Gather(m - {k}, f)
    decreases |m.Keys|
  {
    var j :| j in m.Keys && Gather(m, f) == f(m[j]) + Gather(m - {j}, f);
    if j != k {
      assert (m - {j}).Keys == m.Keys - {j};
      assert (m - {k}).Keys == m.Keys - {k};
      GatherExtract(m - {j}, f, k);
      GatherExtract(m - {k}, f, j);
      assert m - {j} - {k} == m - {k} - {j};
    }
  }

  /** Replacing or adding one value moves the sum by exactly that value. */
  lemma {:induction false} GatherUpdate<K(!new), V(!new), P(!new)>(m: map<K, V>, f: V -> multiset<P>, k: K, v: V)
    ensures Gather(m[k := v], f) == f(v) + Gather(m - {k}, f)
  {
    GatherExtract(m[k := v], f, k);
    assert m[k := v] - {k} == m - {k};
  }

  /** Values that contribute alike give equal sums. */
  lemma {:induction false} GatherSame<K(!new), V(!new), P(!new)>(m: map<K, V>, n: map<K, V>, f: V -> multiset<P>)
    requires m.Keys == n.Keys
    requires forall k | k in m :: f(m[k]) == f(n[k])
    ensures Gather(m, f) == Gather(n, f)
    decreases |m.Keys|
  {
    if m.Keys != {} {
      var k :| k in m.Keys;
      GatherExtract(m, f, k);
      GatherExtract(n, f, k);
      GatherSame(m - {k}, n - {k}, f);
    }
  }
}
