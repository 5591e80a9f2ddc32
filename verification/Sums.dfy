/** Totals over maps, and how they move when one entry does. */
module Sums {
  import opened Types

  /** Sum of the values of a map. */
  ghost function Total<K(!new)>(m: map<K, int>): int
    decreases m.Keys
  {
    if m.Keys == {} then 0
    else
      var k := AnyKey(m);
      m[k] + Total(m - {k})
  }

  ghost function AnyKey<K(!new)>(m: map<K, int>): (k: K)
    requires m.Keys != {}
    ensures k in m
  {
    HasKey(m);
    var k :| k in m;
    k
  }

  lemma HasKey<K(!new)>(m: map<K, int>)
    requires m.Keys != {}
    ensures exists k :: k in m
  {
    var k := Pick(m.Keys);
    assert k in m;
  }

  lemma {:induction false} TotalWithout<K(!new)>(m: map<K, int>, k: K)
    requires k in m
    ensures Total(m) == m[k] + Total(m - {k})
    decreases m.Keys
  {
    var first := AnyKey(m);
    if first != k {
      TotalWithout(m - {first}, k);
      TotalWithout(m - {k}, first);
      assert m - {first} - {k} == m - {k} - {first};
    }
  }

  /** Setting one entry moves the total by exactly that entry's change. */
  lemma TotalUpdate<K(!new)>(m: map<K, int>, k: K, v: int)
    ensures Total(m[k := v]) == Total(m) + v - (if k in m then m[k] else 0)
  {
    TotalWithout(m[k := v], k);
    if k in m {
      TotalWithout(m, k);
      assert m[k := v] - {k} == m - {k};
    } else {
      assert m[k := v] - {k} == m;
    }
  }

  lemma {:induction false} TotalMono<K(!new)>(a: map<K, int>, b: map<K, int>)
    requires a.Keys == b.Keys && forall k :: k in a ==> a[k] <= b[k]
    ensures Total(a) <= Total(b)
    decreases a.Keys
  {
    if a.Keys != {} {
      var k := AnyKey(a);
      TotalWithout(b, k);
      TotalMono(a - {k}, b - {k});
    }
  }

  lemma {:induction false} TotalNonNegative<K(!new)>(m: map<K, int>)
    requires forall k :: k in m ==> m[k] >= 0
    ensures Total(m) >= 0
    ensures forall k :: k in m ==> m[k] <= Total(m)
    decreases m.Keys
  {
    forall k | k in m ensures m[k] <= Total(m) {
      TotalWithout(m, k);
      TotalNonNegative(m - {k});
    }
    if m.Keys != {} {
      TotalNonNegative(m - {AnyKey(m)});
    }
  }

  lemma {:induction false} TotalOfZeros<K(!new)>(m: map<K, int>)
    requires forall k :: k in m ==> m[k] == 0
    ensures Total(m) == 0
    decreases m.Keys
  {
    if m.Keys != {} {
      TotalOfZeros(m - {AnyKey(m)});
    }
  }
}
