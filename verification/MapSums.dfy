/** The sum of the values of a map of amounts. */
module MapSums {
  ghost function Total<K>(m: map<K, nat>): nat
    decreases |m|
  {
    if m == map[] then 0
    else
      var k :| k in m;
      m[k] + Total(m - {k})
  }

  function Amount<K>(m: map<K, nat>, k: K): nat {
    if k in m then m[k] else 0
  }

  lemma {:induction false} TotalPick<K>(m: map<K, nat>, k: K)
    ensures Total(m) == Amount(m, k) + Total(m - {k})
    decreases |m|
  {
    if k in m {
      var k0 :| k0 in m && Total(m) == m[k0] + Total(m - {k0});
      if k0 != k {
        TotalPick(m - {k0}, k);
        TotalPick(m - {k}, k0);
        assert m - {k0} - {k} == m - {k} - {k0};
      }
    } else {
      assert m - {k} == m;
    }
  }

  /** Maps that agree everywhere but at `k` differ in their totals by what they have there. */
  lemma {:induction false} TotalChange<K>(m: map<K, nat>, m': map<K, nat>, k: K)
    requires m - {k} == m' - {k}
    ensures Total(m') + Amount(m, k) == Total(m) + Amount(m', k)
  {
    hide Total;
    TotalPick(m, k);
    TotalPick(m', k);
  }

  lemma {:induction false} TotalZero<K>(m: map<K, nat>)
    requires forall k :: k in m ==> m[k] == 0
    ensures Total(m) == 0
    decreases |m|
  {
    if m != map[] {
      var k :| k in m && Total(m) == m[k] + Total(m - {k});
      TotalZero(m - {k});
    }
  }

  lemma {:induction false} TotalBelow<K>(m: map<K, nat>, m': map<K, nat>)
    requires forall k :: k in m ==> m[k] <= Amount(m', k)
    ensures Total(m) <= Total(m')
    decreases |m|
  {
    if m != map[] {
      var k :| k in m && Total(m) == m[k] + Total(m - {k});
      TotalPick(m', k);
      assert forall j :: j in m - {k} ==> m[j] <= Amount(m' - {k}, j);
      TotalBelow(m - {k}, m' - {k});
    }
  }
}
