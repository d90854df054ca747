/** A value, and possibly another one that takes its place from some epoch on. */
module ProvisionalBuffers {
  import opened Wrappers

  datatype Provisional = Provisional(current: nat, next: Option<(nat, nat)>)
  {
    function Get(e: nat): nat {
      if next.Some? && next.value.0 <= e then next.value.1 else current
    }

    /** Sets the value from an epoch on, unless a change that lies ahead would be lost. */
    function Set(now: nat, from: nat, v: nat): Option<Provisional> {
      if from <= now then Some(Provisional(v, None))
      else if next.None? || from <= next.value.0 then Some(Provisional(current, Some((from, v))))
      else if now < next.value.0 then None
      else Some(Provisional(next.value.1, Some((from, v))))
    }

    /** The epoch of a change ahead of `e`. */
    function NextEpoch(e: nat): Option<nat> {
      if next.Some? && e < next.value.0 then Some(next.value.0) else None
    }
  }

  /** From `now` on, exactly the epochs from `from` on change; a change that is not ahead changes all of them. */
  lemma {:induction false} SetFrom(b: Provisional, now: nat, from: nat, v: nat, e: nat)
    requires b.Set(now, from, v).Some? && now <= e
    ensures b.Set(now, from, v).value.Get(e) == if from <= now || from <= e then v else b.Get(e)
    ensures b.Set(now, from, v).value.Get(now) == b.Get(now) <==> now < from || v == b.Get(now)
  {
  }

  /** Setting fails exactly if a change that lies ahead, and before the one set, would be lost. */
  lemma {:induction false} SetWhen(b: Provisional, now: nat, from: nat, v: nat)
    ensures b.Set(now, from, v).None? <==>
      now < from && b.NextEpoch(now).Some? && now < b.NextEpoch(now).value < from
    ensures b.NextEpoch(now).Some? <==> b.next.Some? && now < b.next.value.0
  {
  }

  /** Without a change in between, a value stays. */
  lemma {:induction false} Steady(b: Provisional, now: nat, e: nat)
    requires now < e && b.NextEpoch(now) != Some(e)
    ensures b.Get(e) == b.Get(e - 1)
  {
  }
}
