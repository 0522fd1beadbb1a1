/** Sums over the values of a finite map. */
module MapSum {
  ghost function Sum<K(!new)>(m: map<K, nat>): nat
    decreases |m|
  {
    if m == map[] then 0
    else
      var k :| k in m;
      assert (m - {k}).Keys == m.Keys - {k};
      m[k] + Sum(m - {k})
  }

  /** Any entry may be split off first. */
  lemma {:induction false} SumSplit<K(!new)>(m: map<K, nat>, k: K)
    requires k in m
    ensures Sum(m) == m[k] + Sum(m - {k})
    decreases |m|
  {
    var j :| j in m && Sum(m) == m[j] + Sum(m - {j});
    assert (m - {j}).Keys == m.Keys - {j};
    assert (m - {k}).Keys == m.Keys - {k};
    if j == k {
    } else {
      SumSplit(m - {j}, k);
      SumSplit(m - {k}, j);
      assert m - {j} - {k} == m - {k} - {j};
    }
  }

  lemma SumInsert<K(!new)>(m: map<K, nat>, k: K, v: nat)
    requires k !in m
    ensures Sum(m[k := v]) == v + Sum(m)
  {
    SumSplit(m[k := v], k);
    assert m[k := v] - {k} == m;
  }

  /** A sum is zero exactly when every value is. */
  lemma {:induction false} SumZero<K(!new)>(m: map<K, nat>)
    ensures Sum(m) == 0 <==> forall k :: k in m ==> m[k] == 0
    decreases |m|
  {
    if m == map[] {
    } else {
      var k :| k in m && Sum(m) == m[k] + Sum(m - {k});
      assert (m - {k}).Keys == m.Keys - {k};
      SumZero(m - {k});
      assert forall j :: j in m ==> j == k || j in m - {k};
    }
  }

  /** A sum of sums taken entry by entry. */
  lemma {:induction false} SumAdd<K(!new)>(m: map<K, nat>, a: map<K, nat>, b: map<K, nat>)
    requires m.Keys == a.Keys == b.Keys
    requires forall k :: k in m ==> m[k] == a[k] + b[k]
    ensures Sum(m) == Sum(a) + Sum(b)
    decreases |m|
  {
    if m != map[] {
      var k :| k in m;
      assert (m - {k}).Keys == m.Keys - {k};
      SumSplit(m, k);
      SumSplit(a, k);
      SumSplit(b, k);
      SumAdd(m - {k}, a - {k}, b - {k});
    } else {
      assert a == map[] && b == map[];
    }
  }

  /** A sum with at most one non-zero entry. */
  lemma SumSingle<K(!new)>(m: map<K, nat>, k: K)
    requires forall j :: j in m && j != k ==> m[j] == 0
    ensures Sum(m) == if k in m then m[k] else 0
  {
    SumZero(m - {k});
    if k in m {
      SumSplit(m, k);
    } else {
      assert m - {k} == m;
    }
  }

  /** The part of a map on some keys. */
  ghost function On<K(!new)>(m: map<K, nat>, keys: set<K>): map<K, nat> {
    map k | k in m && k in keys :: m[k]
  }

  /** Splitting the keys in two splits the sum. */
  lemma {:induction false} SumParts<K(!new)>(m: map<K, nat>, keys: set<K>)
    ensures Sum(m) == Sum(On(m, keys)) + Sum(On(m, m.Keys - keys))
    decreases |m|
  {
    hide Sum;
    if m == map[] {
      assert On(m, keys) == m && On(m, m.Keys - keys) == m;
      SumZero(m);
    } else {
      var k :| k in m;
      var rest := m - {k};
      assert rest.Keys == m.Keys - {k};
      SumParts(rest, keys);
      SumSplit(m, k);
      if k in keys {
        SumSplit(On(m, keys), k);
        assert On(m, keys) - {k} == On(rest, keys);
        assert On(m, m.Keys - keys) == On(rest, rest.Keys - keys);
      } else {
        SumSplit(On(m, m.Keys - keys), k);
        assert On(m, m.Keys - keys) - {k} == On(rest, rest.Keys - keys);
        assert On(m, keys) == On(rest, keys);
      }
    }
  }

  /** Fewer keys, no larger sum. */
  lemma SumMonotone<K(!new)>(m: map<K, nat>, fewer: set<K>, more: set<K>)
    requires fewer <= more
    ensures Sum(On(m, fewer)) <= Sum(On(m, more))
  {
    SumParts(On(m, more), fewer);
    assert On(On(m, more), fewer) == On(m, fewer);
  }
}
