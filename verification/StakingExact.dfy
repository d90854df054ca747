/**
 * What is accrued, slashed, weighed and raised, from below as well as from above: no rounding loses
 * more than a unit, and no operation leaves out what it is for.
 */
module StakingExact {
  import opened Wrappers
  import opened Arithmetic
  import opened StakingBase
  import opened StakingBooks
  import opened StakingMoves
  import opened StakingEffects
  import opened StakingRuns
  import opened Slashing

  // ----- accruing -----

  lemma {:induction false} FloorExact(weight: nat, perWeight: nat)
    ensures PER_TOKEN * FloorShare(weight, perWeight) <= weight * perWeight
          < PER_TOKEN * (FloorShare(weight, perWeight) + 1)
  {
    var x := weight * perWeight;
    assert x == PER_TOKEN * (x / PER_TOKEN) + x % PER_TOKEN;
  }

  /**
   * The slash accrued since the last settlement is what the weight is due, less the debt, rounded down.
   * So is the reward, which the debt may exceed by one because debts are rounded up.
   */
  lemma {:induction false} AccruedExact(cfg: Config, d: Delegation, c: Commitment, block: nat)
    requires cfg.Valid() && DelegationOk(cfg, d, c, block) && c.pool.GetLatest(d.stake.created).Some?
    ensures var d', p := AccruedIn(d, c.pool), c.pool.GetLatest(d.stake.created).value;
      var slash := d'.stake.accruedSlash - d.stake.accruedSlash;
      var reward := d'.stake.accruedReward - d.stake.accruedReward;
      && 0 <= slash && 0 <= reward
      && PER_TOKEN * (slash + d.slashDebt) <= d.slashWeight * p.slashPerWeight < PER_TOKEN * (slash + d.slashDebt + 1)
      && d.rewardWeight * p.rewardPerWeight < PER_TOKEN * (reward + d.rewardDebt + 1)
      && (reward > 0 ==> PER_TOKEN * (reward + d.rewardDebt) <= d.rewardWeight * p.rewardPerWeight)
  {
    hide FloorShare, CeilShare, Weight, MulFloor;
    var p := c.pool.GetLatest(d.stake.created).value;
    FloorExact(d.slashWeight, p.slashPerWeight);
    FloorExact(d.rewardWeight, p.rewardPerWeight);
  }

  /** It does not matter to slashes how often they are accrued in between, and to rewards by at most one. */
  lemma {:induction false} AccrualPath(d: Delegation, p: PoolReward, q: PoolReward)
    requires d.slashDebt <= FloorShare(d.slashWeight, p.slashPerWeight)
    requires d.rewardDebt <= FloorShare(d.rewardWeight, p.rewardPerWeight)
    requires p.rewardPerWeight <= q.rewardPerWeight && p.slashPerWeight <= q.slashPerWeight
    ensures var twice, once := AccruedBy(AccruedBy(d, p), q).stake, AccruedBy(d, q).stake;
      && twice.accruedSlash == once.accruedSlash
      && twice.accruedReward <= once.accruedReward <= twice.accruedReward + 1
  {
    ShareBounds(d.rewardWeight, p.rewardPerWeight);
    ShareBounds(d.rewardWeight, q.rewardPerWeight);
    FloorShareMonotone(d.rewardWeight, p.rewardPerWeight, q.rewardPerWeight);
    FloorShareMonotone(d.slashWeight, p.slashPerWeight, q.slashPerWeight);
    CeilWithin(d.rewardWeight, p.rewardPerWeight, q.rewardPerWeight);
    hide FloorShare, CeilShare;
  }

  /** A debt rounded up exceeds a later amount rounded down by at most one. */
  lemma {:induction false} CeilWithin(weight: nat, p: nat, q: nat)
    requires p <= q
    ensures CeilShare(weight, p) <= FloorShare(weight, q) + 1
  {
    ShareBounds(weight, p);
    FloorShareMonotone(weight, p, q);
  }

  // ----- a delegator's slash -----

  lemma {:induction false} SlashApplied(cfg: Config, ids: Owners, b: Books, who: Account, cid: CommitmentId, env: Env)
    requires cfg.Valid() && CanApplySlash(ids, b, who, cid, env)
    ensures Delegates(b, who, cid)
    ensures var b', due := AfterApplySlash(cfg, ids, b, who, cid, env), SlashDue(b, who, cid);
      && (who, cid) in b'.delegations
      && var s, s' := b.delegations[(who, cid)].stake, b'.delegations[(who, cid)].stake;
      && s'.amount == (if due <= s.amount then s.amount - due else 0)
      && s'.accruedSlash == (if due <= s.amount then 0 else due - s.amount)
      && b'.totalStake + s.amount == b.totalStake + s'.amount
  {
    hide AccruedIn, AfterShrink, Get, OwnStake;
    AccrualKeepsAmount(b.delegations[(who, cid)], b.commitments[cid].pool);
    if SlashDue(b, who, cid) != 0 {
      ShrinkApplied(cfg, ids, AfterAccrue(b, who, cid), who, cid, SlashDue(b, who, cid));
    }
  }

  lemma {:induction false} ShrinkApplied(cfg: Config, ids: Owners, b: Books, who: Account, cid: CommitmentId,
                                         target: nat)
    requires cfg.Valid() && Delegates(b, who, cid) && Shrinkage(b, who, cid, target) <= b.totalStake
    ensures var b' := AfterShrink(cfg, ids, b, who, cid, target);
      && Delegates(b', who, cid)
      && var s, s' := b.delegations[(who, cid)].stake, b'.delegations[(who, cid)].stake;
      && s'.amount == (if target <= s.amount then s.amount - target else 0) && s'.accruedSlash == s.accruedSlash
      && b'.totalStake + s.amount == b.totalStake + s'.amount
      && (b.commitments[cid].stake.None? ==> b'.commitments == b.commitments)
  {
    hide Rebalanced, Get, OwnStake, Weight, MulFloor, FloorShare, CeilShare;
  }

  lemma {:induction false} AccrualKeepsAmount(d: Delegation, pool: Memory<PoolReward>)
    ensures AccruedIn(d, pool).stake.amount == d.stake.amount
  {
    hide FloorShare, CeilShare;
  }

  /**
   * Applying a slash takes from the stake what has accrued with this accrual, or the whole stake, and
   * keeps the rest of it accrued.
   */
  lemma {:induction false} SlashReaches(cfg: Config, ids: Owners, b: Books, who: Account, cid: CommitmentId, env: Env)
    returns (due: nat)
    requires Sound(cfg, ids, b) && cfg.Valid() && CanApplySlash(ids, b, who, cid, env)
    requires b.commitments[cid].pool.GetLatest(b.delegations[(who, cid)].stake.created).Some?
    ensures var d := b.delegations[(who, cid)];
      var p := b.commitments[cid].pool.GetLatest(d.stake.created).value;
      && d.stake.accruedSlash <= due
      && PER_TOKEN * (due - d.stake.accruedSlash + d.slashDebt) <= d.slashWeight * p.slashPerWeight
      && d.slashWeight * p.slashPerWeight < PER_TOKEN * (due - d.stake.accruedSlash + d.slashDebt + 1)
    ensures var b' := AfterApplySlash(cfg, ids, b, who, cid, env);
      && (who, cid) in b'.delegations
      && var s, s' := b.delegations[(who, cid)].stake, b'.delegations[(who, cid)].stake;
      && s'.amount == (if due <= s.amount then s.amount - due else 0)
      && s'.accruedSlash == (if due <= s.amount then 0 else due - s.amount)
      && b'.totalStake + s.amount == b.totalStake + s'.amount
  {
    hide Sound, AfterApplySlash, CanApplySlash, AccruedIn, DelegationOk;
    EntryFacts(cfg, ids, b, who, cid);
    SlashApplied(cfg, ids, b, who, cid, env);
    due := SlashDue(b, who, cid);
    AccruedExact(cfg, b.delegations[(who, cid)], b.commitments[cid], b.block);
  }

  // ----- a committer's slash -----

  /** A slash is split in proportion to the slash weights, and the delegators' part raised on theirs. */
  lemma {:induction false} SharesExact(w: Weights, total: nat)
    requires w.selfSlash + w.delegSlash > 0
    ensures var sh, all := Shares(w, total), w.selfSlash + w.delegSlash;
      && sh.self * all <= w.selfSlash * total < (sh.self + 1) * all
      && sh.self + sh.delegations == total
      && (w.delegSlash > 0 ==>
            sh.increase * w.delegSlash <= sh.delegations * PER_TOKEN < (sh.increase + 1) * w.delegSlash)
  {
    var sh, all := Shares(w, total), w.selfSlash + w.delegSlash;
    FloorOf(w.selfSlash * total, all);
    PartBound(w.selfSlash, all, total);
    if w.delegSlash > 0 {
      FloorOf(sh.delegations * PER_TOKEN, w.delegSlash);
    }
  }

  /** One pool's slash per missed epoch is the base slash, by the pool's ratio, by the part not delivered. */
  lemma {:induction false} PoolSlashExact(p: PoolReport, stake: nat, base: nat, lastEpoch: nat, lastSlashing: nat)
    returns (whole: nat, part: nat, each: nat)
    requires p.actual <= p.committed && 0 < p.committed
    ensures PoolSlash(p, stake, base, lastEpoch, lastSlashing) == each * MissedEpochs(p, lastEpoch, lastSlashing)
    ensures whole * QUINTILL <= base * stake < (whole + 1) * QUINTILL
    ensures part * QUINTILL <= p.ratio * whole < (part + 1) * QUINTILL
    ensures each * p.committed <= part * (p.committed - p.actual)
    ensures part * (p.committed - p.actual) * QUINTILL < ((each + 1) * QUINTILL + part) * p.committed
  {
    var missing := p.committed - p.actual;
    var f := Fraction(missing, p.committed);
    whole := MulFloor(base, stake);
    part := MulFloor(p.ratio, whole);
    each := MulFloor(f, part);
    FloorOf(base * stake, QUINTILL);
    FloorOf(p.ratio * whole, QUINTILL);
    FloorOf(f * part, QUINTILL);
    FloorOf(missing * QUINTILL, p.committed);
    FractionOf(f, part, each, missing, p.committed);
  }

  lemma {:induction false} FractionOf(f: nat, part: nat, each: nat, missing: nat, committed: nat)
    requires 0 < committed && f * committed <= missing * QUINTILL < (f + 1) * committed
    requires each * QUINTILL <= f * part < (each + 1) * QUINTILL
    ensures each * committed <= part * missing
    ensures part * missing * QUINTILL < ((each + 1) * QUINTILL + part) * committed
  {
    FractionBelow(f, part, each, missing, committed);
    FractionAbove(f, part, (each + 1) * QUINTILL, missing * QUINTILL, committed);
    assert part * (missing * QUINTILL) == part * missing * QUINTILL;
  }

  lemma {:induction false} FractionBelow(f: nat, part: nat, each: nat, missing: nat, committed: nat)
    requires f * committed <= missing * QUINTILL && each * QUINTILL <= f * part
    ensures each * committed <= part * missing
  {
    MulMonotone(committed, each * QUINTILL, f * part);
    MulMonotone(part, f * committed, missing * QUINTILL);
    assert committed * (each * QUINTILL) == (each * committed) * QUINTILL;
    assert committed * (f * part) == part * (f * committed);
    assert part * (missing * QUINTILL) == (part * missing) * QUINTILL;
    Unscale(each * committed, part * missing);
  }

  lemma {:induction false} FractionAbove(f: nat, part: nat, above: nat, missing: nat, committed: nat)
    requires 0 < committed && missing < (f + 1) * committed && f * part < above
    ensures part * missing < (above + part) * committed
  {
    MulMonotone(part, missing, (f + 1) * committed);
    assert part * ((f + 1) * committed) == (f * part + part) * committed;
    assert (f * part + 1 + part) * committed == (f * part + part) * committed + committed;
    MulMonotone(committed, f * part + 1 + part, above + part);
  }

  lemma {:induction false} Unscale(x: nat, y: nat)
    requires x * QUINTILL <= y * QUINTILL
    ensures x <= y
  {
  }

  // ----- weights and raises -----

  /** A weight is the amount by the period's part of the longest, rounded down. */
  lemma {:induction false} WeightExact(cfg: Config, amount: nat, period: nat)
    requires cfg.Valid()
    ensures Weight(cfg, amount, period) * cfg.maxPeriod <= amount * period
          < (Weight(cfg, amount, period) + 1) * cfg.maxPeriod
  {
    FloorOf(amount * period, cfg.maxPeriod);
  }

  /** A distribution raises the pool by the delegators' reward per weight, rounded down, and credits the committer. */
  lemma {:induction false} DistributeExact(b: Books, cid: CommitmentId, selfAmount: nat, reward: nat, divisor: nat)
    requires Staked(b, cid) && divisor > 0
    ensures var c, c' := b.commitments[cid], AfterDistribute(b, cid, selfAmount, reward, divisor).commitments[cid];
      var raise := c'.pool.value.rewardPerWeight - c.pool.value.rewardPerWeight;
      && 0 <= raise && raise * divisor <= reward * PER_TOKEN < (raise + 1) * divisor
      && c'.pool.value.slashPerWeight == c.pool.value.slashPerWeight
      && c'.stake.value.accruedReward == c.stake.value.accruedReward + selfAmount
  {
    FloorOf(reward * PER_TOKEN, divisor);
  }

  // ----- moving a delegation -----

  /** What a delegation looks like that has just begun. */
  predicate Begun(cfg: Config, d: Delegation, amount: nat, period: nat, block: nat)
    requires cfg.Valid()
  {
    && d.stake == NewStake(amount, block, period) && d.rewardWeight == d.slashWeight
    && d.rewardWeight * cfg.maxPeriod <= amount * period < (d.rewardWeight + 1) * cfg.maxPeriod
  }

  lemma {:induction false} MoveBegins(cfg: Config, ids: Owners, b: Books, who: Account, cid: CommitmentId,
                                      to: CommitmentId, amount: nat, period: nat, env: Env, rejoin: Env)
    requires cfg.Valid() && CanMove(cfg, ids, b, who, cid, to, amount, period, env, rejoin)
    ensures var b' := AfterMove(cfg, ids, b, who, cid, to, amount, period, env, rejoin);
      && (who, to) in b'.delegations && Begun(cfg, b'.delegations[(who, to)], amount, period, b'.block)
      && (cid != to ==> (who, cid) !in b'.delegations)
  {
    hide AfterWithdraw, CanWithdraw, Rebalanced, Get, OwnStake, Weight, RewardDue, CeilShare, FloorShare, Unlocked;
    WeightExact(cfg, amount, period);
  }

  /** Delegating more begins anew with the amount before any slash and what is added; redelegating with the same. */
  lemma {:induction false} MovedExact(cfg: Config, ids: Owners, b: Books, call: Call, env: Env)
    requires cfg.Valid() && (call.DelegateMore? || call.Redelegate?) && Succeeds(cfg, ids, b, call, env)
    ensures (call.who, call.cid) in b.delegations
    ensures var b', s := Next(cfg, ids, b, call, env), b.delegations[(call.who, call.cid)].stake;
      if call.DelegateMore? then
        && (call.who, call.cid) in b'.delegations
        && Begun(cfg, b'.delegations[(call.who, call.cid)], s.amount + call.extra,
                 if call.longer.Some? then call.longer.value else s.period, b'.block)
      else
        && (call.who, call.to) in b'.delegations && (call.who, call.cid) !in b'.delegations
        && Begun(cfg, b'.delegations[(call.who, call.to)], s.amount, s.period, b'.block)
  {
    hide AfterMove, CanMove, Begun;
    var s := b.delegations[(call.who, call.cid)].stake;
    if call.DelegateMore? {
      MoveBegins(cfg, ids, b, call.who, call.cid, call.cid, s.amount + call.extra,
                 if call.longer.Some? then call.longer.value else s.period, env, call.rejoin);
    } else {
      MoveBegins(cfg, ids, b, call.who, call.cid, call.to, s.amount, s.period, env, call.rejoin);
    }
  }
}
