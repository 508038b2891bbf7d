/** Sums over the values of a dictionary, in whatever order they are added. */
module Sums {
  /** Choosing an entry lies two definitions away, so that a sum is taken apart only where a proof asks for it. */
  ghost function Total<K>(m: map<K, real>): real
    decreases |m|, 2
  {
    if m == map[] then 0.0 else TotalOfSome(m)
  }

  ghost function TotalOfSome<K>(m: map<K, real>): real
    requires m != map[]
    decreases |m|, 1
  {
    AnyAndRest(m)
  }

  ghost function AnyAndRest<K>(m: map<K, real>): real
    requires m != map[]
    decreases |m|, 0
  {
    var k :| k in m;
    m[k] + Total(m - {k})
  }

  lemma TotalPicks<K>(m: map<K, real>) returns (k: K)
    requires m != map[]
    ensures k in m && Total(m) == m[k] + Total(m - {k})
  {
    assert Total(m) == TotalOfSome(m) == AnyAndRest(m);
    k :| k in m && AnyAndRest(m) == m[k] + Total(m - {k});
  }

  lemma {:induction false} TotalSplit<K>(m: map<K, real>, k: K)
    requires k in m
    ensures Total(m) == m[k] + Total(m - {k})
    decreases |m|
  {
    var j := TotalPicks(m);
    if j != k {
      TotalSplit(m - {j}, k);
      TotalSplit(m - {k}, j);
      assert m - {j} - {k} == m - {k} - {j};
    }
  }

  lemma TotalUpdate<K>(m: map<K, real>, k: K, v: real)
    ensures Total(m[k := v]) == Total(m) - (if k in m then m[k] else 0.0) + v
  {
    TotalSplit(m[k := v], k);
    assert m[k := v] - {k} == m - {k};
    if k in m {
      TotalSplit(m, k);
    } else {
      assert m - {k} == m;
    }
  }

  lemma {:induction false} TotalMonotone<K>(small: map<K, real>, big: map<K, real>)
    requires small.Keys == big.Keys
    requires forall k :: k in small ==> small[k] <= big[k]
    ensures Total(small) <= Total(big)
    decreases |small|
  {
    if small != map[] {
      var k :| k in small;
      TotalSplit(small, k);
      TotalSplit(big, k);
      TotalMonotone(small - {k}, big - {k});
    }
  }

  lemma {:induction false} TotalNonNegative<K>(m: map<K, real>)
    requires forall k :: k in m ==> m[k] >= 0.0
    ensures Total(m) >= 0.0
    ensures forall k :: k in m ==> m[k] <= Total(m)
    decreases |m|
  {
    forall k | k in m
      ensures 0.0 <= m[k] <= Total(m)
    {
      TotalSplit(m, k);
      TotalNonNegative(m - {k});
    }
  }

  /** Keys outside `keep` contribute nothing when their values are zero. */
  lemma {:induction false} TotalIgnoresZeros<K>(m: map<K, real>, keep: set<K>)
    requires forall k :: k in m && k !in keep ==> m[k] == 0.0
    ensures Total(m) == Total(map k | k in m && k in keep :: m[k])
    decreases |m|
  {
    var kept := map k | k in m && k in keep :: m[k];
    if k :| k in m {
      TotalSplit(m, k);
      TotalIgnoresZeros(m - {k}, keep);
      var fewer := map j | j in m - {k} && j in keep :: (m - {k})[j];
      if k in keep {
        TotalSplit(kept, k);
        assert kept - {k} == fewer;
      } else {
        assert kept == fewer;
      }
    } else {
      assert kept == map[];
    }
  }

  /** Multiplication under a name, so that equal factors give equal products. */
  function Times(a: real, b: real): real { a * b }

  function Scaled<K>(m: map<K, real>, c: real): map<K, real> {
    map k | k in m :: Times(m[k], c)
  }

  lemma {:induction false} TotalScale<K>(m: map<K, real>, c: real)
    ensures Total(Scaled(m, c)) == Times(Total(m), c)
    decreases |m|
  {
    if k :| k in m {
      TotalScale(m - {k}, c);
      ScaledRemove(m, k, c);
      TotalSplit(m, k);
      TotalSplit(Scaled(m, c), k);
      Distribute(m[k], Total(m - {k}), c);
    }
  }

  lemma ScaledRemove<K>(m: map<K, real>, k: K, c: real)
    requires k in m
    ensures Scaled(m, c) - {k} == Scaled(m - {k}, c)
  {
    forall j | j in m - {k}
      ensures Scaled(m - {k}, c)[j] == (Scaled(m, c) - {k})[j]
    {
      assert (m - {k})[j] == m[j];
    }
  }

  lemma TimesMonotone(a: real, b: real, c: real)
    requires a <= b && c >= 0.0
    ensures Times(a, c) <= Times(b, c)
    ensures a >= 0.0 ==> Times(a, c) >= 0.0
  {
    assert Times(b, c) - Times(a, c) == Times(b - a, c);
  }

  lemma TimesZero(a: real)
    ensures Times(a, 0.0) == 0.0
  {
  }

  lemma Distribute(a: real, b: real, c: real)
    ensures Times(a + b, c) == Times(a, c) + Times(b, c)
  {
  }

  lemma {:induction false} TotalAdd<K>(a: map<K, real>, b: map<K, real>, sum: map<K, real>)
    requires a.Keys == b.Keys == sum.Keys
    requires forall k :: k in a ==> sum[k] == a[k] + b[k]
    ensures Total(sum) == Total(a) + Total(b)
    decreases |a|
  {
    if a != map[] {
      var k :| k in a;
      TotalSplit(a, k);
      TotalSplit(b, k);
      TotalSplit(sum, k);
      TotalAdd(a - {k}, b - {k}, sum - {k});
    }
  }

  lemma {:induction false} TotalOfZeros<K>(m: map<K, real>)
    requires forall k :: k in m ==> m[k] == 0.0
    ensures Total(m) == 0.0
    decreases |m|
  {
    if m != map[] {
      var k :| k in m;
      TotalSplit(m, k);
      TotalOfZeros(m - {k});
    }
  }

  ghost predicate OneToOne<K, L>(names: map<K, L>) {
    forall a, b :: a in names && b in names && names[a] == names[b] ==> a == b
  }

  /** A sum does not change when its entries are renamed one to one and zeros are added. */
  lemma {:induction false} TotalRenamed<K, L>(m: map<K, real>, names: map<K, L>, n: map<L, real>)
    requires m.Keys == names.Keys && OneToOne(names)
    requires forall k :: k in m ==> names[k] in n && n[names[k]] == m[k]
    requires forall l :: l in n && l !in names.Values ==> n[l] == 0.0
    ensures Total(m) == Total(n)
    decreases |m|
  {
    if m == map[] {
      TotalOfZeros(n);
    } else {
      var k :| k in m;
      TotalSplit(m, k);
      TotalSplit(n, names[k]);
      RenamedWithout(names, k);
      TotalRenamed(m - {k}, names - {k}, n - {names[k]});
    }
  }

  lemma RenamedWithout<K, L>(names: map<K, L>, k: K)
    requires k in names && OneToOne(names)
    ensures (names - {k}).Values == names.Values - {names[k]}
  {
    forall l | l in names.Values && l != names[k]
      ensures l in (names - {k}).Values
    {
      var a :| a in names && names[a] == l;
      assert a in names - {k} && (names - {k})[a] == l;
    }
  }
}
