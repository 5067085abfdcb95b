/** Supply conservation: the sum of all balances against the stored total supply. */
module Supply {
  import opened Wrappers
  import opened Uint
  import opened Types
  import opened State

  ghost function Pick(m: map<Key, u256>): (k: Key)
    requires |m| > 0
    ensures k in m
  {
    var k :| k in m; k
  }

  /** The sum of all balances in `m`. */
  ghost function Sum(m: map<Key, u256>): nat
    decreases |m|
  {
    if |m| == 0 then 0 else m[Pick(m)] + Sum(m - {Pick(m)})
  }

  /** The ledger's invariant: the balances add up to the total supply. */
  ghost predicate Conserved(s: Ledger) {
    Sum(s.balances) == s.totalSupply
  }

  /** Any entry can be taken out first. */
  lemma {:induction false} SumWithout(m: map<Key, u256>, k: Key)
    requires k in m
    ensures Sum(m) == m[k] + Sum(m - {k})
    decreases |m|
  {
    var j := Pick(m);
    if j != k {
      SumWithout(m - {j}, k);
      SumWithout(m - {k}, j);
      assert m - {j} - {k} == m - {k} - {j};
    }
  }

  /** Writing `v` under `k` changes the sum by `v` minus what was there. */
  lemma SumUpdate(m: map<Key, u256>, k: Key, v: u256)
    ensures Sum(m[k := v]) + Holding(m, k) == Sum(m) + v
  {
    if k in m {
      SumOverwrite(m, k, v);
    } else {
      SumInsert(m, k, v);
    }
  }

  lemma SumOverwrite(m: map<Key, u256>, k: Key, v: u256)
    requires k in m
    ensures Sum(m[k := v]) + m[k] == Sum(m) + v
  {
    SumWithout(m[k := v], k);
    SumWithout(m, k);
    assert m[k := v] - {k} == m - {k};
  }

  lemma SumInsert(m: map<Key, u256>, k: Key, v: u256)
    requires k !in m
    ensures Sum(m[k := v]) == Sum(m) + v
  {
    SumWithout(m[k := v], k);
    assert m[k := v] - {k} == m;
  }

  /** Every account holds the same in both maps, an absent entry counting as zero. */
  ghost predicate SameBalances(a: map<Key, u256>, b: map<Key, u256>) {
    forall k :: Holding(a, k) == Holding(b, k)
  }

  lemma SameBalancesWithout(a: map<Key, u256>, b: map<Key, u256>, k: Key)
    requires SameBalances(a, b)
    ensures SameBalances(a - {k}, b - {k})
  {
    forall j
      ensures Holding(a - {k}, j) == Holding(b - {k}, j)
    {
      assert Holding(a, j) == Holding(b, j);
    }
  }

  /** Dropping an entry that holds zero keeps the balances the same. */
  lemma SameBalancesDropZero(a: map<Key, u256>, b: map<Key, u256>, k: Key)
    requires SameBalances(a, b) && k in a && a[k] == 0
    ensures SameBalances(a - {k}, b)
  {
    forall j
      ensures Holding(a - {k}, j) == Holding(b, j)
    {
      assert Holding(a, j) == Holding(b, j);
    }
  }

  /** The sum depends only on each account's balance, an absent entry counting as zero. */
  lemma {:induction false} SumPointwise(a: map<Key, u256>, b: map<Key, u256>)
    requires SameBalances(a, b)
    ensures Sum(a) == Sum(b)
    decreases |a| + |b|, 1
  {
    if |a| > 0 {
      var k := Pick(a);
      if k in b {
        SumPointwiseShared(a, b, k);
      } else {
        SumPointwiseDrop(a, b, k);
      }
    } else if |b| > 0 {
      SumPointwiseDrop(b, a, Pick(b));
    }
  }

  /** Case of `SumPointwise`: take a key present in both maps out of both. */
  lemma {:induction false} SumPointwiseShared(a: map<Key, u256>, b: map<Key, u256>, k: Key)
    requires SameBalances(a, b) && k in a && k in b
    ensures Sum(a) == Sum(b)
    decreases |a| + |b|, 0
  {
    SumWithout(a, k);
    SumWithout(b, k);
    assert Holding(a, k) == Holding(b, k);
    SameBalancesWithout(a, b, k);
    SumPointwise(a - {k}, b - {k});
  }

  /** Case of `SumPointwise`: a key present only in `a` holds zero there and can be dropped. */
  lemma {:induction false} SumPointwiseDrop(a: map<Key, u256>, b: map<Key, u256>, k: Key)
    requires SameBalances(a, b) && k in a && k !in b
    ensures Sum(a) == Sum(b)
    decreases |a| + |b|, 0
  {
    SumWithout(a, k);
    assert Holding(a, k) == Holding(b, k);
    SameBalancesDropZero(a, b, k);
    SumPointwise(a - {k}, b);
  }

  /** `t` holds what `m` holds everywhere except at `a`: the sums differ by what changed there. */
  lemma SumChangedAtOne(m: map<Key, u256>, t: map<Key, u256>, a: Key)
    requires forall k :: k != a ==> Holding(t, k) == Holding(m, k)
    ensures Sum(t) + Holding(m, a) == Sum(m) + Holding(t, a)
  {
    var m1 := m[a := Holding(t, a)];
    SumUpdate(m, a, Holding(t, a));
    assert SameBalances(t, m1) by {
      forall k
        ensures Holding(t, k) == Holding(m1, k)
      {
        if k != a {
          assert Holding(t, k) == Holding(m, k);
        }
      }
    }
    SumPointwise(t, m1);
  }

  /** `t` holds what `m` holds everywhere except at `a` and `b`. */
  lemma SumChangedAt(m: map<Key, u256>, t: map<Key, u256>, a: Key, b: Key)
    requires forall k :: k != a && k != b ==> Holding(t, k) == Holding(m, k)
    ensures a != b ==>
              Sum(t) + Holding(m, a) + Holding(m, b)
              == Sum(m) + Holding(t, a) + Holding(t, b)
    ensures a == b ==> Sum(t) + Holding(m, a) == Sum(m) + Holding(t, a)
  {
    var m1 := m[a := Holding(t, a)];
    SumChangedAtOne(m, m1, a);
    forall k | k != b
      ensures Holding(t, k) == Holding(m1, k)
    {
      if k != a {
        assert Holding(t, k) == Holding(m, k);
      }
    }
    SumChangedAtOne(m1, t, b);
  }

  /** A single account holds the whole sum. */
  lemma SumSingleton(k: Key, v: u256)
    ensures Sum(map[k := v]) == v
  {
    SumUpdate(map[], k, v);
  }

  /** No single balance exceeds the sum of all of them. */
  lemma BalanceAtMostSum(m: map<Key, u256>, k: Key)
    ensures Holding(m, k) <= Sum(m)
  {
    if k in m {
      SumWithout(m, k);
    }
  }

  /** Under the invariant no balance exceeds the total supply. */
  lemma BalanceAtMostSupply(s: Ledger, k: Key)
    requires Conserved(s)
    ensures Balance(s, k) <= s.totalSupply
  {
    BalanceAtMostSum(s.balances, k);
  }
}
