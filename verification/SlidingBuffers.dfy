/** Values for two subsequent epochs; writing to a later epoch shifts or clears the older ones. */
module SlidingBuffers {
  datatype Sliding<V> = Sliding(epoch: nat, prev: V, cur: V)
  {
    function Get(e: nat, zero: V): V {
      if e + 1 == epoch then prev else if e == epoch then cur else zero
    }

    function Set(e: nat, v: V, zero: V): Sliding<V> {
      if e + 1 == epoch then Sliding(epoch, v, cur)
      else if e == epoch then Sliding(epoch, prev, v)
      else if epoch + 1 == e then Sliding(e, cur, v)
      else Sliding(e, zero, v)
    }
  }

  function Empty<V>(zero: V): Sliding<V> {
    Sliding(0, zero, zero)
  }

  /** A written value is read back; writing to the newest epoch keeps the one before and clears later ones. */
  lemma {:induction false} SetGet<V>(s: Sliding<V>, e: nat, v: V, zero: V)
    ensures s.Set(e, v, zero).Get(e, zero) == v
    ensures s.epoch <= e + 1 ==> s.Set(e, v, zero).epoch <= e + 1
    ensures s.epoch <= e ==> s.Set(e, v, zero).epoch == e
    ensures s.epoch <= e && e > 0 ==> s.Set(e, v, zero).Get(e - 1, zero) == s.Get(e - 1, zero)
    ensures s.epoch < e ==> s.Get(e, zero) == zero
  {
  }
}
