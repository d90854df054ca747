/** Sums over delegations and over commitments. */
module StakingSums {
  import opened Wrappers
  import opened StakingBase

  /** What is summed, per delegation. */
  datatype Measure =
    | RewardWeightSince(cid: CommitmentId, since: nat)
    | SlashWeightSince(cid: CommitmentId, since: nat)
    | AmountSince(cid: CommitmentId, since: nat)
    | AmountOf(who: Account)
    | AnyAmount
    | Accrued(cid: CommitmentId)
    | Pending(cid: CommitmentId, pool: Memory<PoolReward>)

  function Value(q: Measure, k: Key, d: Delegation): nat {
    match q
    case RewardWeightSince(cid, since) => if k.1 == cid && d.stake.created >= since then d.rewardWeight else 0
    case SlashWeightSince(cid, since) => if k.1 == cid && d.stake.created >= since then d.slashWeight else 0
    case AmountSince(cid, since) => if k.1 == cid && d.stake.created >= since then d.stake.amount else 0
    case AmountOf(who) => if k.0 == who then d.stake.amount else 0
    case AnyAmount => d.stake.amount
    case Accrued(cid) => if k.1 == cid then d.stake.accruedReward else 0
    case Pending(cid, pool) =>
      if k.1 != cid then 0
      else
        match pool.GetLatest(d.stake.created)
        case None => 0
        case Some(p) => PendingOf(d.rewardWeight, p.rewardPerWeight, d.rewardDebt)
  }

  type Delegations = map<Key, Delegation>

  ghost function Sum(ds: Delegations, q: Measure): nat
    decreases |ds|
  {
    if ds == map[] then 0
    else
      var k :| k in ds;
      Value(q, k, ds[k]) + Sum(ds - {k}, q)
  }

  function At(ds: Delegations, k: Key, q: Measure): nat {
    if k in ds then Value(q, k, ds[k]) else 0
  }

  lemma {:induction false} SumPick(ds: Delegations, k: Key, q: Measure)
    ensures Sum(ds, q) == At(ds, k, q) + Sum(ds - {k}, q)
    decreases |ds|
  {
    hide Value;
    if k in ds {
      var k0 :| k0 in ds && Sum(ds, q) == Value(q, k0, ds[k0]) + Sum(ds - {k0}, q);
      if k0 != k {
        SumPick(ds - {k0}, k, q);
        SumPick(ds - {k}, k0, q);
        assert ds - {k0} - {k} == ds - {k} - {k0};
      }
    } else {
      assert ds - {k} == ds;
    }
  }

  /** A map with one delegation replaced, added or removed. */
  function Put(ds: Delegations, k: Key, d: Option<Delegation>): Delegations {
    match d
    case Some(v) => ds[k := v]
    case None => ds - {k}
  }

  function ValueOf(q: Measure, k: Key, d: Option<Delegation>): nat {
    match d
    case Some(v) => Value(q, k, v)
    case None => 0
  }

  lemma {:induction false} SumPut(ds: Delegations, k: Key, d: Option<Delegation>, q: Measure)
    ensures Sum(Put(ds, k, d), q) + At(ds, k, q) == Sum(ds, q) + ValueOf(q, k, d)
  {
    hide Value;
    SumPick(ds, k, q);
    SumPick(Put(ds, k, d), k, q);
    assert Put(ds, k, d) - {k} == ds - {k};
  }

  lemma {:induction false} SumSame(ds: Delegations, q: Measure, q': Measure)
    requires forall k :: k in ds ==> Value(q, k, ds[k]) == Value(q', k, ds[k])
    ensures Sum(ds, q) == Sum(ds, q')
    decreases |ds|
  {
    hide Value;
    if ds != map[] {
      var k :| k in ds && Sum(ds, q) == Value(q, k, ds[k]) + Sum(ds - {k}, q);
      SumPick(ds, k, q');
      SumSame(ds - {k}, q, q');
    }
  }

  lemma {:induction false} SumZero(ds: Delegations, q: Measure)
    requires forall k :: k in ds ==> Value(q, k, ds[k]) == 0
    ensures Sum(ds, q) == 0
    decreases |ds|
  {
    hide Value;
    if ds != map[] {
      var k :| k in ds && Sum(ds, q) == Value(q, k, ds[k]) + Sum(ds - {k}, q);
      SumZero(ds - {k}, q);
    }
  }

  lemma {:induction false} SumMember(ds: Delegations, k: Key, q: Measure)
    requires k in ds
    ensures Value(q, k, ds[k]) <= Sum(ds, q)
  {
    SumPick(ds, k, q);
  }

  lemma {:induction false} SumBelow(ds: Delegations, q: Measure, q': Measure)
    requires forall k :: k in ds ==> Value(q, k, ds[k]) <= Value(q', k, ds[k])
    ensures Sum(ds, q) <= Sum(ds, q')
    decreases |ds|
  {
    hide Value;
    if ds != map[] {
      var k :| k in ds && Sum(ds, q) == Value(q, k, ds[k]) + Sum(ds - {k}, q);
      SumPick(ds, k, q');
      SumBelow(ds - {k}, q, q');
    }
  }

  // ----- distributing to all live weights -----

  function Scaled(weight: nat, extra: nat): nat {
    weight * extra
  }

  function Raised(pool: Memory<PoolReward>, extra: nat): Memory<PoolReward> {
    pool.(value := pool.value.(rewardPerWeight := pool.value.rewardPerWeight + extra))
  }

  lemma {:induction false} PendingRaised(k: Key, d: Delegation, cid: CommitmentId, pool: Memory<PoolReward>, extra: nat)
    ensures Value(Pending(cid, Raised(pool, extra)), k, d)
         <= Value(Pending(cid, pool), k, d) + Scaled(Value(RewardWeightSince(cid, pool.time), k, d), extra)
  {
    if k.1 == cid && d.stake.created >= pool.time {
      PendingGrowth(d.rewardWeight, pool.value.rewardPerWeight, extra, d.rewardDebt);
    }
  }

  /** Raising the per-weight reward adds at most the live weight times the raise. */
  lemma {:induction false} PendingGrows(ds: Delegations, cid: CommitmentId, pool: Memory<PoolReward>, extra: nat)
    ensures Sum(ds, Pending(cid, Raised(pool, extra)))
         <= Sum(ds, Pending(cid, pool)) + Scaled(Sum(ds, RewardWeightSince(cid, pool.time)), extra)
    decreases |ds|
  {
    hide Sum, Value, Raised, Scaled;
    var q, q', w := Pending(cid, pool), Pending(cid, Raised(pool, extra)), RewardWeightSince(cid, pool.time);
    if ds == map[] {
      SumZero(ds, q');
    } else {
      var k :| k in ds;
      SumPick(ds, k, q);
      SumPick(ds, k, q');
      SumPick(ds, k, w);
      PendingGrows(ds - {k}, cid, pool, extra);
      PendingRaised(k, ds[k], cid, pool, extra);
      Combine(Value(q, k, ds[k]), Value(q', k, ds[k]), Value(w, k, ds[k]),
              Sum(ds - {k}, q), Sum(ds - {k}, q'), Sum(ds - {k}, w), extra);
    }
  }

  lemma {:induction false} Combine(v: nat, v': nat, w: nat, rest: nat, rest': nat, ws: nat, extra: nat)
    requires v' <= v + Scaled(w, extra) && rest' <= rest + Scaled(ws, extra)
    ensures v' + rest' <= v + rest + Scaled(w + ws, extra)
  {
    assert (w + ws) * extra == w * extra + ws * extra;
  }

  // ----- stakes -----

  type Commitments = map<CommitmentId, Commitment>

  function StakeOf(c: Commitment): nat {
    if c.stake.Some? then c.stake.value.amount else 0
  }

  ghost function StakeSum(cs: Commitments): nat
    decreases |cs|
  {
    if cs == map[] then 0
    else
      var c :| c in cs;
      StakeOf(cs[c]) + StakeSum(cs - {c})
  }

  lemma {:induction false} StakePick(cs: Commitments, c: CommitmentId)
    ensures StakeSum(cs) == (if c in cs then StakeOf(cs[c]) else 0) + StakeSum(cs - {c})
    decreases |cs|
  {
    hide StakeOf;
    if c in cs {
      var c0 :| c0 in cs && StakeSum(cs) == StakeOf(cs[c0]) + StakeSum(cs - {c0});
      if c0 != c {
        StakePick(cs - {c0}, c);
        StakePick(cs - {c}, c0);
        assert cs - {c0} - {c} == cs - {c} - {c0};
      }
    } else {
      assert cs - {c} == cs;
    }
  }

  lemma {:induction false} StakePut(cs: Commitments, c: CommitmentId, v: Commitment)
    ensures StakeSum(cs[c := v]) + (if c in cs then StakeOf(cs[c]) else 0) == StakeSum(cs) + StakeOf(v)
  {
    hide StakeOf;
    StakePick(cs, c);
    StakePick(cs[c := v], c);
    assert cs[c := v] - {c} == cs - {c};
  }
}
