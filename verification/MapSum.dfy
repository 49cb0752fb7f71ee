// Sums of the values of a finite map.
module MapSum {
  ghost function Sum<K>(m: map<K, nat>): nat {
    if m == map[] then 0 else
    var k :| k in m;
    m[k] + Sum(m - {k})
  }

  lemma {:induction false} SumPick<K>(m: map<K, nat>, k: K)
    requires k in m
    ensures Sum(m) == m[k] + Sum(m - {k})
    decreases |m|
  {
    var j :| j in m && Sum(m) == m[j] + Sum(m - {j});
    if j != k {
      SumPick(m - {j}, k);
      SumPick(m - {k}, j);
      assert m - {j} - {k} == m - {k} - {j};
    }
  }

  lemma SumUpdate<K>(m: map<K, nat>, k: K, v: nat)
    ensures Sum(m[k := v]) == Sum(m) - (if k in m then m[k] else 0) + v
  {
    SumPick(m[k := v], k);
    if k in m {
      SumPick(m, k);
      assert m[k := v] - {k} == m - {k};
    } else {
      assert m[k := v] - {k} == m;
    }
  }

  lemma {:induction false} SumSplit<K>(m: map<K, nat>, gone: set<K>)
    ensures Sum(m) == Sum(m - gone) + Sum(map k | k in m && k in gone :: m[k])
    decreases |m|
  {
    var part := map k | k in m && k in gone :: m[k];
    if m == map[] {
      assert m - gone == map[] && part == map[];
    } else {
      var k :| k in m;
      SumPick(m, k);
      SumSplit(m - {k}, gone);
      if k in gone {
        assert m - gone == (m - {k}) - gone;
        SumPick(part, k);
        assert part - {k} == map j | j in m - {k} && j in gone :: (m - {k})[j];
      } else {
        SumPick(m - gone, k);
        assert (m - gone) - {k} == (m - {k}) - gone;
        assert part == map j | j in m - {k} && j in gone :: (m - {k})[j];
      }
    }
  }

  lemma {:induction false} SumMonotone<K>(a: map<K, nat>, b: map<K, nat>)
    requires a.Keys <= b.Keys && forall k :: k in a ==> a[k] <= b[k]
    ensures Sum(a) <= Sum(b)
    ensures Sum(a) == Sum(b) ==> forall k :: k in a ==> a[k] == b[k]
    decreases |b|
  {
    if b != map[] {
      var k :| k in b;
      SumPick(b, k);
      if k in a {
        SumPick(a, k);
        SumMonotone(a - {k}, b - {k});
        if Sum(a) == Sum(b) {
          forall j | j in a ensures a[j] == b[j] {
            assert j != k ==> j in a - {k};
          }
        }
      } else {
        assert a - {k} == a;
        SumMonotone(a, b - {k});
      }
    } else {
      assert a == map[];
    }
  }

  lemma {:induction false} SumAdd<K>(a: map<K, nat>, b: map<K, nat>, c: map<K, nat>)
    requires b.Keys <= a.Keys == c.Keys
    requires forall k :: k in a ==> c[k] == a[k] + if k in b then b[k] else 0
    ensures Sum(c) == Sum(a) + Sum(b)
    decreases |a|
  {
    if a == map[] {
      assert b == map[] && c == map[];
    } else {
      var k :| k in a;
      SumPick(a, k);
      SumPick(c, k);
      if k in b { SumPick(b, k); } else { assert b - {k} == b; }
      SumAdd(a - {k}, b - {k}, c - {k});
    }
  }

  lemma SumOverlay<K>(a: map<K, nat>, b: map<K, nat>)
    ensures Sum(a + b) <= Sum(a) + Sum(b)
  {
    var c := a + b;
    SumSplit(c, b.Keys);
    assert (map k | k in c && k in b.Keys :: c[k]) == b;
    SumMonotone(c - b.Keys, a);
  }
}
