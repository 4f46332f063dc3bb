/** Sums over finite maps, and sizes of sets. */
module Sums {

  ghost function Pick<T>(m: map<T, nat>): T
    requires m != map[]
  {
    var k :| k in m;
    k
  }

  ghost function Sum<T>(m: map<T, nat>): nat
    decreases |m|
  {
    if m == map[] then 0
    else
      var k := Pick(m);
      assert |m - {k}| < |m| by { assert (m - {k}).Keys == m.Keys - {k}; }
      m[k] + Sum(m - {k})
  }

  lemma {:induction false} SumAt<T>(m: map<T, nat>, k: T)
    requires k in m
    ensures Sum(m) == m[k] + Sum(m - {k})
    decreases |m|
  {
    var j := Pick(m);
    if j != k {
      assert (m - {j}).Keys == m.Keys - {j} && (m - {k}).Keys == m.Keys - {k};
      SumAt(m - {j}, k);
      SumAt(m - {k}, j);
      assert m - {j} - {k} == m - {k} - {j};
    }
  }

  lemma SumPut<T>(m: map<T, nat>, k: T, v: nat)
    ensures Sum(m[k := v]) == Sum(m) - (if k in m then m[k] else 0) + v
  {
    SumAt(m[k := v], k);
    if k in m {
      SumAt(m, k);
      assert m[k := v] - {k} == m - {k};
    } else {
      assert m[k := v] - {k} == m;
    }
  }

  lemma SumDrop<T>(m: map<T, nat>, k: T)
    requires k in m && m[k] > 0
    ensures Sum(m - {k}) < Sum(m)
  {
    SumAt(m, k);
  }

  lemma {:induction false} SubsetSize<T>(a: set<T>, b: set<T>)
    requires a <= b
    ensures |a| <= |b|
    decreases |a|
  {
    if k :| k in a { SubsetSize(a - {k}, b - {k}); }
  }

  lemma {:induction false} ValuesSize<K, V>(m: map<K, V>)
    ensures |m.Values| <= |m.Keys|
    decreases |m.Keys|
  {
    if k :| k in m {
      var rest := m - {k};
      assert rest.Keys == m.Keys - {k};
      ValuesSize(rest);
      assert m.Values <= rest.Values + {m[k]} by {
        forall v | v in m.Values ensures v in rest.Values + {m[k]} {
          var j :| j in m && m[j] == v;
          if j != k { assert rest[j] == v; }
        }
      }
      SubsetSize(m.Values, rest.Values + {m[k]});
    }
  }
}
