// Sums over finite maps.

module Sums {
  function Value<K>(m: map<K, nat>, k: K): nat {
    if k in m then m[k] else 0
  }

  ghost function Pick<K>(m: map<K, nat>): (k: K)
    requires m != map[]
    ensures k in m
  {
    assert m.Keys != {};
    var k :| k in m.Keys;
    k
  }

  ghost function Sum<K>(m: map<K, nat>): nat
    decreases |m.Keys|
  {
    if m == map[] then 0
    else
      var k := Pick(m);
      assert (m - {k}).Keys == m.Keys - {k};
      m[k] + Sum(m - {k})
  }

  lemma {:induction false} SumTake<K>(m: map<K, nat>, k: K)
    requires k in m
    ensures Sum(m) == m[k] + Sum(m - {k})
    decreases |m.Keys|
  {
    var p := Pick(m);
    if p != k {
      assert (m - {k}).Keys == m.Keys - {k} && (m - {p}).Keys == m.Keys - {p};
      SumTake(m - {p}, k);
      SumTake(m - {k}, p);
      assert m - {p} - {k} == m - {k} - {p};
    }
  }

  lemma {:induction false} SumBelow<K>(m: map<K, nat>, n: map<K, nat>)
    requires forall k | k in m :: k in n && m[k] <= n[k]
    ensures Sum(m) <= Sum(n)
    decreases |m.Keys|
  {
    if m != map[] {
      var k := Pick(m);
      SumTake(n, k);
      assert (m - {k}).Keys == m.Keys - {k};
      SumBelow(m - {k}, n - {k});
    }
  }

  // Only the entry at k may have grown.
  lemma SumMove<K>(n: map<K, nat>, m: map<K, nat>, k: K)
    requires forall x | x in m && x != k :: x in n && m[x] <= n[x]
    ensures Sum(m) + Value(n, k) <= Sum(n) + Value(m, k)
  {
    if k in m {
      SumTake(m, k);
    }
    if k in n {
      SumTake(n, k);
    }
    assert k !in m ==> m - {k} == m;
    assert k !in n ==> n - {k} == n;
    SumBelow(m - {k}, n - {k});
  }

  // The entries at ks, absent ones counting as zero.
  function SumAt<K>(m: map<K, nat>, ks: seq<K>): nat {
    if ks == [] then 0 else SumAt(m, ks[..|ks| - 1]) + Value(m, ks[|ks| - 1])
  }

  lemma {:induction false} SumAtBelow<K>(m: map<K, nat>, n: map<K, nat>, ks: seq<K>)
    requires forall i | 0 <= i < |ks| :: Value(m, ks[i]) <= Value(n, ks[i])
    ensures SumAt(m, ks) <= SumAt(n, ks)
  {
    if ks != [] {
      SumAtBelow(m, n, ks[..|ks| - 1]);
    }
  }

  lemma SumWithout<K>(m: map<K, nat>, k: K)
    ensures Sum(m) == Value(m, k) + Sum(m - {k})
  {
    if k in m {
      SumTake(m, k);
    } else {
      assert m - {k} == m;
    }
  }

  // Entries at ks have gone to zero, and none has grown.
  lemma {:induction false} SumDrop<K>(n: map<K, nat>, m: map<K, nat>, ks: seq<K>)
    requires forall k | k in m :: k in n && m[k] <= n[k]
    requires forall i | 0 <= i < |ks| :: Value(m, ks[i]) == 0
    requires forall i, j | 0 <= i < j < |ks| :: ks[i] != ks[j]
    ensures Sum(m) + SumAt(n, ks) <= Sum(n)
  {
    if ks == [] {
      SumBelow(m, n);
    } else {
      var l := |ks| - 1;
      SumWithout(n, ks[l]);
      SumWithout(m, ks[l]);
      SumDrop(n - {ks[l]}, m - {ks[l]}, ks[..l]);
      SumAtBelow(n, n - {ks[l]}, ks[..l]);
    }
  }

  // Only entries at ks may be new or have grown.
  lemma {:induction false} SumGrow<K>(m: map<K, nat>, n: map<K, nat>, ks: seq<K>)
    requires forall k | k in n :: k in ks || (k in m && n[k] <= m[k])
    ensures Sum(n) <= Sum(m) + SumAt(n, ks)
  {
    if ks == [] {
      SumBelow(n, m);
    } else {
      var l := |ks| - 1;
      SumWithout(n, ks[l]);
      assert ks == ks[..l] + [ks[l]];
      SumGrow(m, n - {ks[l]}, ks[..l]);
      SumAtBelow(n - {ks[l]}, n, ks[..l]);
    }
  }
}
