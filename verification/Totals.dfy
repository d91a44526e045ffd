/** Sums over the values of a finite map: the "sum of amounts" that every accounting claim is about. */
module Totals {

  /** The sum of w over the values of m. The key picked at each step does not matter: see Split. */
  ghost function Total<K, V>(m: map<K, V>, w: V -> int): int {
    if m == map[] then 0
    else
      var k :| k in m;
      w(m[k]) + Total(m - {k}, w)
  }

  lemma {:induction false} Split<K, V>(m: map<K, V>, k: K, w: V -> int)
    requires k in m
    ensures Total(m, w) == w(m[k]) + Total(m - {k}, w)
    decreases |m|
  {
    var p :| p in m && Total(m, w) == w(m[p]) + Total(m - {p}, w);
    if p != k {
      Split(m - {p}, k, w);
      Split(m - {k}, p, w);
      assert m - {p} - {k} == m - {k} - {p};
    }
  }

  function WeightAt<K, V>(m: map<K, V>, k: K, w: V -> int): int {
    if k in m then w(m[k]) else 0
  }

  /** Writing one key changes the total by the change in that key's weight. */
  lemma Put<K, V>(m: map<K, V>, k: K, v: V, w: V -> int)
    ensures Total(m[k := v], w) == Total(m, w) - WeightAt(m, k, w) + w(v)
  {
    var m' := m[k := v];
    Split(m', k, w);
    assert m' - {k} == m - {k};
    if k in m {
      Split(m, k, w);
    } else {
      assert m - {k} == m;
    }
  }

  lemma {:induction false} Zero<K, V>(m: map<K, V>, w: V -> int)
    requires forall k :: k in m ==> w(m[k]) == 0
    ensures Total(m, w) == 0
    decreases |m|
  {
    if m != map[] {
      var k :| k in m;
      Split(m, k, w);
      Zero(m - {k}, w);
    }
  }

  lemma {:induction false} NonNegative<K, V>(m: map<K, V>, w: V -> int)
    requires forall k :: k in m ==> w(m[k]) >= 0
    ensures Total(m, w) >= 0
    decreases |m|
  {
    if m != map[] {
      var k :| k in m;
      Split(m, k, w);
      NonNegative(m - {k}, w);
    }
  }

  /** Two maps that weigh the same at every key weigh the same in total. */
  lemma {:induction false} Bridge<K, V, U>(m: map<K, V>, n: map<K, U>, w: V -> int, u: U -> int)
    requires forall k :: k in m || k in n ==> WeightAt(m, k, w) == WeightAt(n, k, u)
    ensures Total(m, w) == Total(n, u)
    decreases |m|
  {
    if m == map[] {
      forall k | k in n ensures u(n[k]) == 0 {
        assert WeightAt(m, k, w) == WeightAt(n, k, u);
      }
      Zero(n, u);
    } else {
      var k :| k in m;
      Drop(m, k, w);
      Drop(n, k, u);
      forall j | j in m - {k} || j in n - {k} ensures WeightAt(m - {k}, j, w) == WeightAt(n - {k}, j, u) {
        assert WeightAt(m, j, w) == WeightAt(n, j, u);
      }
      Bridge(m - {k}, n - {k}, w, u);
    }
  }

  lemma Drop<K, V>(m: map<K, V>, k: K, w: V -> int)
    ensures Total(m, w) == WeightAt(m, k, w) + Total(m - {k}, w)
  {
    if k in m {
      Split(m, k, w);
    } else {
      assert m - {k} == m;
    }
  }

  lemma PartsOfRest<K, V>(m: map<K, V>, s: set<K>, k: K)
    ensures m - s - {k} == (m - {k}) - s
    ensures m - (m.Keys - s) - {k} == (m - {k}) - ((m - {k}).Keys - s)
  {
    assert (m - {k}).Keys == m.Keys - {k};
    assert m - s - {k} == (m - {k}) - s;
    assert m - (m.Keys - s) - {k} == (m - {k}) - ((m - {k}).Keys - s);
  }

  /** A total splits over any set of keys: those outside it and those inside it. */
  lemma {:induction false} Parts<K, V>(m: map<K, V>, s: set<K>, w: V -> int)
    ensures Total(m, w) == Total(m - s, w) + Total(m - (m.Keys - s), w)
    decreases |m|
  {
    if m == map[] {
      assert m - s == map[] && m - (m.Keys - s) == map[];
    } else {
      var k :| k in m;
      var m' := m - {k};
      Drop(m, k, w);
      Drop(m - s, k, w);
      Drop(m - (m.Keys - s), k, w);
      PartsOfRest(m, s, k);
      Parts(m', s, w);
    }
  }
}
