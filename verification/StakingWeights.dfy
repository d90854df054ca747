/**
 * The weights of a committer's own stake. They follow the stake, but for one case: a slash during the
 * cooldown lowers the slash weight to the reduced reward weight.
 */
module StakingWeights {
  import opened Wrappers
  import opened StakingBase
  import opened StakingSums
  import opened StakingBooks
  import opened StakingMoves
  import opened StakingEffects
  import opened StakingRuns

  /** The reward weight is that of the rewardable stake, the slash weight that of the stake or, in cooldown, as well. */
  predicate SelfOk(cfg: Config, c: Commitment)
    requires cfg.Valid()
  {
    c.stake.Some? ==>
      && var s, w := c.stake.value, c.weights.value;
      && w.selfReward == Weight(cfg, s.rewardable, s.period)
      && (w.selfSlash == Weight(cfg, s.amount, s.period) || (s.cooldown.Some? && w.selfSlash == w.selfReward))
  }

  ghost predicate AllSelfOk(cfg: Config, b: Books)
    requires cfg.Valid()
  {
    forall cid :: cid in b.commitments ==> SelfOk(cfg, b.commitments[cid])
  }

  /** The own stake and its weights are the same, but for what has accrued or been paid. */
  predicate SameSelf(c: Commitment, c': Commitment) {
    && c'.stake.Some? == c.stake.Some?
    && (c.stake.Some? ==>
          && var s, s' := c.stake.value, c'.stake.value;
          s'.amount == s.amount && s'.rewardable == s.rewardable && s'.period == s.period && s'.cooldown == s.cooldown)
    && c'.weights.value.selfReward == c.weights.value.selfReward
    && c'.weights.value.selfSlash == c.weights.value.selfSlash
  }

  ghost predicate SameSelves(b: Books, b': Books) {
    && b'.commitments.Keys == b.commitments.Keys
    && forall cid :: cid in b.commitments ==> SameSelf(b.commitments[cid], b'.commitments[cid])
  }

  lemma {:induction false} SameKeeps(cfg: Config, b: Books, b': Books)
    requires cfg.Valid() && AllSelfOk(cfg, b) && SameSelves(b, b')
    ensures AllSelfOk(cfg, b')
  {
    hide Weight;
  }

  lemma {:induction false} RebalancedSelf(c: Commitment, was: Option<Delegation>, now: Option<Delegation>, epoch: nat)
    ensures var w := Rebalanced(c, was, now, epoch).value;
      w.selfReward == c.weights.value.selfReward && w.selfSlash == c.weights.value.selfSlash
  {
    hide LiveReward, LiveSlash;
  }

  /** A commitment whose delegations' weights change. */
  lemma {:induction false} OneSame(b: Books, b': Books, cid: CommitmentId)
    requires cid in b.commitments && cid in b'.commitments
    requires b'.commitments == b.commitments[cid := b'.commitments[cid]]
    requires SameSelf(b.commitments[cid], b'.commitments[cid])
    ensures SameSelves(b, b')
  {
  }

  lemma {:induction false} SelvesTrans(b: Books, b1: Books, b2: Books)
    requires SameSelves(b, b1) && SameSelves(b1, b2)
    ensures SameSelves(b, b2)
  {
  }

  // ----- delegators' calls -----

  lemma {:induction false} ShrinkSame(cfg: Config, ids: Owners, b: Books, who: Account, cid: CommitmentId, target: nat)
    requires cfg.Valid() && Delegates(b, who, cid) && Shrinkage(b, who, cid, target) <= b.totalStake
    ensures SameSelves(b, AfterShrink(cfg, ids, b, who, cid, target))
  {
    hide Shrunk, Rebalanced, Get, OwnStake;
    var c, d := b.commitments[cid], b.delegations[(who, cid)];
    var d' := Shrunk(cfg, d, c, d.stake.amount - Shrinkage(b, who, cid, target));
    RebalancedSelf(c, Some(d), Some(d'), b.epoch);
    OneSame(b, AfterShrink(cfg, ids, b, who, cid, target), cid);
  }

  lemma {:induction false} SlashSame(cfg: Config, ids: Owners, b: Books, who: Account, cid: CommitmentId, env: Env)
    requires cfg.Valid() && CanApplySlash(ids, b, who, cid, env)
    ensures SameSelves(b, AfterApplySlash(cfg, ids, b, who, cid, env))
  {
    hide AccruedIn, AfterShrink;
    var b1, due := AfterAccrue(b, who, cid), SlashDue(b, who, cid);
    if due != 0 {
      ShrinkSame(cfg, ids, b1, who, cid, due);
    }
  }

  lemma {:induction false} JoinSame(cfg: Config, ids: Owners, b: Books, who: Account, cid: CommitmentId, amount: nat,
                                    period: nat)
    requires cfg.Valid() && Staked(b, cid)
    ensures SameSelves(b, AfterJoin(cfg, ids, b, who, cid, amount, period))
  {
    hide Joined, Rebalanced, Get, OwnStake;
    RebalancedSelf(b.commitments[cid], None, Some(Joined(cfg, amount, period, b.block, b.commitments[cid].pool.value)),
                   b.epoch);
    OneSame(b, AfterJoin(cfg, ids, b, who, cid, amount, period), cid);
  }

  lemma {:induction false} LeaveSame(b: Books, who: Account, cid: CommitmentId)
    requires Delegates(b, who, cid) && b.delegations[(who, cid)].stake.amount <= b.totalStake
    ensures SameSelves(b, AfterLeave(b, who, cid))
  {
    hide Rebalanced, Get, Unlocked;
    RebalancedSelf(b.commitments[cid], Some(b.delegations[(who, cid)]), None, b.epoch);
    OneSame(b, AfterLeave(b, who, cid), cid);
  }

  lemma {:induction false} CoolSame(cfg: Config, b: Books, who: Account, cid: CommitmentId)
    requires cfg.Valid() && Delegates(b, who, cid) && Staked(b, cid)
    ensures SameSelves(b, AfterCool(cfg, b, who, cid))
  {
    hide Rebalanced, Cooled;
    var c, d := b.commitments[cid], b.delegations[(who, cid)];
    var start := if c.stake.value.cooldown.Some? then c.stake.value.cooldown.value else b.block;
    RebalancedSelf(c, Some(d), Some(Cooled(cfg, d, c, start)), b.epoch);
    OneSame(b, AfterCool(cfg, b, who, cid), cid);
  }

  lemma {:induction false} WithdrawSame(cfg: Config, ids: Owners, b: Books, who: Account, cid: CommitmentId, env: Env)
    requires cfg.Valid() && CanWithdraw(cfg, ids, b, who, cid, env)
    ensures SameSelves(b, AfterWithdraw(cfg, ids, b, who, cid, env))
  {
    hide AfterApplySlash, CanApplySlash, Get;
    SlashSame(cfg, ids, b, who, cid, env);
  }

  lemma {:induction false} MoveSame(cfg: Config, ids: Owners, b: Books, who: Account, cid: CommitmentId,
                                    to: CommitmentId, amount: nat, period: nat, env: Env, rejoin: Env)
    requires cfg.Valid() && CanMove(cfg, ids, b, who, cid, to, amount, period, env, rejoin)
    ensures SameSelves(b, AfterMove(cfg, ids, b, who, cid, to, amount, period, env, rejoin))
  {
    hide AfterWithdraw, CanWithdraw, AfterLeave, AfterJoin, RewardDue, Get, OwnStake, SameSelves;
    var b1 := AfterWithdraw(cfg, ids, b, who, cid, env);
    var left := AfterLeave(b1, who, cid);
    WithdrawSame(cfg, ids, b, who, cid, env);
    LeaveSame(b1, who, cid);
    JoinSame(cfg, ids, left, who, to, amount, period);
    var b' := AfterMove(cfg, ids, b, who, cid, to, amount, period, env, rejoin);
    SelvesTrans(b, b1, left);
    SelvesTrans(b, left, AfterJoin(cfg, ids, left, who, to, amount, period));
    SelvesOf(b, AfterJoin(cfg, ids, left, who, to, amount, period), b');
  }

  lemma {:induction false} SelvesOf(b: Books, b1: Books, b2: Books)
    requires SameSelves(b, b1) && b2.commitments == b1.commitments
    ensures SameSelves(b, b2)
  {
  }

  predicate ByDelegator(call: Call) {
    || call.Delegate? || call.Accrue? || call.ApplySlash? || call.Withdraw? || call.Cool? || call.Leave?
    || call.DelegateMore? || call.Redelegate?
  }

  lemma {:induction false} DelegatorSame(cfg: Config, ids: Owners, b: Books, call: Call, env: Env)
    requires cfg.Valid() && ByDelegator(call) && Succeeds(cfg, ids, b, call, env)
    ensures SameSelves(b, Next(cfg, ids, b, call, env))
  {
    hide AfterApplySlash, CanApplySlash, AfterJoin, AfterLeave, AfterCool, AfterMove, CanMove, AccruedIn, RewardDue,
         SameSelf, CooldownOver, Get;
    match call
    case Delegate(who, cid, amount, period) => JoinSame(cfg, ids, b, who, cid, amount, period);
    case Accrue(_, _) => SelvesSame(b, Next(cfg, ids, b, call, env));
    case ApplySlash(who, cid) => SlashSame(cfg, ids, b, who, cid, env);
    case Withdraw(who, cid) => WithdrawSame(cfg, ids, b, who, cid, env);
    case Cool(who, cid) =>
      SlashSame(cfg, ids, b, who, cid, env);
      SlashKeepsEntry(cfg, ids, b, who, cid, env);
      var b1 := AfterApplySlash(cfg, ids, b, who, cid, env);
      CoolSame(cfg, b1, who, cid);
      SelvesTrans(b, b1, AfterCool(cfg, b1, who, cid));
    case Leave(who, cid, _) =>
      var b1 := AfterWithdraw(cfg, ids, b, who, cid, env);
      WithdrawSame(cfg, ids, b, who, cid, env);
      LeaveSame(b1, who, cid);
      SelvesTrans(b, b1, AfterLeave(b1, who, cid));
    case DelegateMore(who, cid, extra, longer, rejoin) =>
      MoveSame(cfg, ids, b, who, cid, cid, MoreAmount(b, who, cid, extra), MorePeriod(b, who, cid, longer), env,
               rejoin);
    case Redelegate(who, cid, to, rejoin) =>
      MoveSame(cfg, ids, b, who, cid, to, MoreAmount(b, who, cid, 0), MorePeriod(b, who, cid, None), env, rejoin);
  }

  lemma {:induction false} SelvesSame(b: Books, b': Books)
    requires b'.commitments == b.commitments
    ensures SameSelves(b, b')
  {
  }

  // ----- committers' calls -----

  lemma {:induction false} OneOk(cfg: Config, b: Books, b': Books, cid: CommitmentId)
    requires cfg.Valid() && AllSelfOk(cfg, b) && cid in b'.commitments && SelfOk(cfg, b'.commitments[cid])
    requires b'.commitments == b.commitments[cid := b'.commitments[cid]]
    ensures AllSelfOk(cfg, b')
  {
    hide SelfOk;
  }

  /** Recording own weights in a sound state sets them. */
  lemma {:induction false} SelfWeighedOk(cfg: Config, c: Commitment, epoch: nat)
    requires cfg.Valid() && c.stake.Some? && c.weights.time <= epoch && StakeOk(cfg, c.stake.value)
    ensures var c', s := SelfWeighed(cfg, c, epoch), c.stake.value;
      && SelfOk(cfg, c') && c'.weights.value.selfReward == c'.weights.value.selfSlash
      && c'.weights.value.selfReward == Weight(cfg, s.rewardable, s.period)
  {
    hide Weight;
  }

  lemma {:induction false} StakeCallOk(cfg: Config, ids: Owners, b: Books, who: Account, amount: nat, period: nat,
                                       commission: nat)
    requires cfg.Valid() && AllSelfOk(cfg, b) && who in ids
    ensures AllSelfOk(cfg, AfterStake(cfg, ids, b, who, amount, period, commission))
  {
    hide Weight, Get, AllSelfOk;
    OneOk(cfg, b, AfterStake(cfg, ids, b, who, amount, period, commission), ids[who]);
  }

  lemma {:induction false} StakeMoreOk(cfg: Config, ids: Owners, b: Books, who: Account, extra: nat,
                                       longer: Option<nat>, rate: Option<nat>)
    requires cfg.Valid() && AllSelfOk(cfg, b) && who in ids && Staked(b, ids[who])
    requires b.commitments[ids[who]].weights.time <= b.epoch && StakeOk(cfg, b.commitments[ids[who]].stake.value)
    requires b.commitments[ids[who]].stake.value.cooldown.None?
    ensures AllSelfOk(cfg, AfterStakeMore(cfg, ids, b, who, extra, longer, rate))
  {
    hide Weight, MulFloor, Get, AllSelfOk;
    OneOk(cfg, b, AfterStakeMore(cfg, ids, b, who, extra, longer, rate), ids[who]);
  }

  lemma {:induction false} CooldownOk(cfg: Config, b: Books, cid: CommitmentId)
    requires cfg.Valid() && AllSelfOk(cfg, b) && Staked(b, cid)
    requires b.commitments[cid].weights.time <= b.epoch && b.commitments[cid].stake.value.cooldown.None?
    ensures AllSelfOk(cfg, AfterCommitterCooldown(cfg, b, cid))
  {
    assert SelfOk(cfg, b.commitments[cid]);
    hide Weight, MulFloor, AllSelfOk;
    OneOk(cfg, b, AfterCommitterCooldown(cfg, b, cid), cid);
  }

  lemma {:induction false} PaidOrEndedOk(cfg: Config, b: Books, who: Account, cid: CommitmentId)
    requires cfg.Valid() && AllSelfOk(cfg, b) && Staked(b, cid)
    ensures AllSelfOk(cfg, AfterCommitterWithdraw(b, cid))
    ensures StakeOf(b.commitments[cid]) <= b.totalStake ==> AllSelfOk(cfg, AfterEnd(b, who, cid))
  {
    assert SelfOk(cfg, b.commitments[cid]);
    hide Weight, MulFloor, AllSelfOk, Unlocked;
    OneOk(cfg, b, AfterCommitterWithdraw(b, cid), cid);
    if StakeOf(b.commitments[cid]) <= b.totalStake {
      OneOk(cfg, b, AfterEnd(b, who, cid), cid);
    }
  }

  lemma {:induction false} CommitterOk(cfg: Config, ids: Owners, b: Books, call: Call, env: Env)
    requires Sound(cfg, ids, b) && cfg.Valid() && AllSelfOk(cfg, b) && Succeeds(cfg, ids, b, call, env)
    requires call.Stake? || call.StakeMore? || call.CoolCommitter? || call.WithdrawCommitter? || call.End?
    ensures AllSelfOk(cfg, Next(cfg, ids, b, call, env))
  {
    hide Sound, AllSelfOk, AfterStake, AfterStakeMore, AfterCommitterCooldown, AfterCommitterWithdraw, AfterEnd, Get;
    EntryFacts(cfg, ids, b, call.who, ids[call.who]);
    match call
    case Stake(who, amount, period, commission) => StakeCallOk(cfg, ids, b, who, amount, period, commission);
    case StakeMore(who, extra, longer, rate) => StakeMoreOk(cfg, ids, b, who, extra, longer, rate);
    case CoolCommitter(who) => CooldownOk(cfg, b, ids[who]);
    case WithdrawCommitter(who) => PaidOrEndedOk(cfg, b, who, ids[who]);
    case End(who) => PaidOrEndedOk(cfg, b, who, ids[who]);
  }

  lemma {:induction false} CommitterSlashOk(cfg: Config, b: Books, who: Account, cid: CommitmentId, decrease: nat)
    requires cfg.Valid() && AllSelfOk(cfg, b) && Staked(b, cid) && decrease <= b.totalStake
    requires b.commitments[cid].weights.time <= b.epoch && StakeOk(cfg, b.commitments[cid].stake.value)
    ensures AllSelfOk(cfg, AfterCommitterSlash(cfg, b, who, cid, decrease))
  {
    hide Weight, Get, AllSelfOk;
    var c := b.commitments[cid];
    var s := Resized(cfg, c.stake.value, Minus(c.stake.value.amount, decrease));
    SelfWeighedOk(cfg, c.(stake := Some(s)), b.epoch);
    hide SelfWeighed, MulFloor;
    OneOk(cfg, b, AfterCommitterSlash(cfg, b, who, cid, decrease), cid);
  }

  lemma {:induction false} PoolCallOk(cfg: Config, ids: Owners, b: Books, call: Call, env: Env)
    requires Sound(cfg, ids, b) && cfg.Valid() && AllSelfOk(cfg, b) && Succeeds(cfg, ids, b, call, env)
    requires call.Slash? || call.Distribute? || call.Pass?
    ensures AllSelfOk(cfg, Next(cfg, ids, b, call, env))
  {
    hide Weight, MulFloor, Get, SelfOk, AfterCommitterSlash, SlashSplit, SlashDemand, SlashBites, WeightsAt, RaisedBoth,
         Raise, Sound, SelfWeighed;
    if call.Slash? {
      var cid := ids[call.who];
      EntryFacts(cfg, ids, b, call.who, cid);
      if SlashBites(b, cid) {
        var sh := SlashSplit(b, cid, call.ps, call.base);
        var b1 := b;
        if sh.self != 0 {
          CommitterSlashOk(cfg, b, call.who, cid, sh.self);
          CommitterStays(cfg, b, call.who, cid, sh.self);
          b1 := AfterCommitterSlash(cfg, b, call.who, cid, sh.self);
        }
        PoolSame(b1, cid, sh.increase, b.epoch - 1);
        SameKeeps(cfg, b1, AfterPoolSlash(b1, cid, sh.increase, b.epoch - 1));
      }
    } else if call.Distribute? {
      DistributeSame(b, call.cid, call.selfAmount, call.reward,
                     WeightsAt(b.commitments[call.cid], call.lastEpoch).delegReward);
      SameKeeps(cfg, b, Next(cfg, ids, b, call, env));
    }
  }

  lemma {:induction false} CommitterStays(cfg: Config, b: Books, who: Account, cid: CommitmentId, decrease: nat)
    requires cfg.Valid() && Staked(b, cid) && decrease <= b.totalStake
    ensures Staked(AfterCommitterSlash(cfg, b, who, cid, decrease), cid)
  {
    hide Weight, MulFloor, Get;
  }

  lemma {:induction false} PoolSame(b: Books, cid: CommitmentId, increase: nat, lastEpoch: nat)
    requires Staked(b, cid)
    ensures SameSelves(b, AfterPoolSlash(b, cid, increase, lastEpoch))
  {
    hide RaisedBoth;
    OneSame(b, AfterPoolSlash(b, cid, increase, lastEpoch), cid);
  }

  lemma {:induction false} DistributeSame(b: Books, cid: CommitmentId, selfAmount: nat, reward: nat, divisor: nat)
    requires Staked(b, cid)
    ensures SameSelves(b, AfterDistribute(b, cid, selfAmount, reward, divisor))
  {
    hide RaisedBoth, Raise, Get;
    OneSame(b, AfterDistribute(b, cid, selfAmount, reward, divisor), cid);
  }

  // ----- runs -----

  lemma {:induction false} NextSelfOk(cfg: Config, ids: Owners, b: Books, call: Call, env: Env)
    requires Sound(cfg, ids, b) && cfg.Valid() && AllSelfOk(cfg, b)
    ensures AllSelfOk(cfg, Next(cfg, ids, b, call, env))
  {
    if Succeeds(cfg, ids, b, call, env) {
      hide Sound, Succeeds, Next, AllSelfOk, SameSelves;
      if ByDelegator(call) {
        DelegatorSame(cfg, ids, b, call, env);
        SameKeeps(cfg, b, Next(cfg, ids, b, call, env));
      } else if call.Slash? || call.Distribute? || call.Pass? {
        PoolCallOk(cfg, ids, b, call, env);
      } else {
        CommitterOk(cfg, ids, b, call, env);
      }
    }
  }

  lemma {:induction false} RunSelfOk(cfg: Config, ids: Owners, b: Books, calls: seq<(Call, Env)>)
    requires Sound(cfg, ids, b) && cfg.Valid() && AllSelfOk(cfg, b)
    ensures AllSelfOk(cfg, Run(cfg, ids, b, calls))
    decreases |calls|
  {
    hide Sound, Next, AllSelfOk;
    if calls != [] {
      NextSelfOk(cfg, ids, b, calls[0].0, calls[0].1);
      NextSound(cfg, ids, b, calls[0].0, calls[0].1);
      RunSelfOk(cfg, ids, Next(cfg, ids, b, calls[0].0, calls[0].1), calls[1..]);
    }
  }

  /**
   * In every reachable state a committer's reward weight is that of its rewardable stake, and its slash
   * weight that of its stake, unless it is in its cooldown, when it may be the reward weight instead.
   */
  lemma {:induction false} SelfWeightsFollow(cfg: Config, ids: Owners, calls: seq<(Call, Env)>, cid: CommitmentId)
    requires cfg.Valid() && Distinct(ids) && Staked(Run(cfg, ids, NO_BOOKS, calls), cid)
    ensures var c := Run(cfg, ids, NO_BOOKS, calls).commitments[cid];
      && var s, w := c.stake.value, c.weights.value;
      && w.selfReward == Weight(cfg, s.rewardable, s.period)
      && (s.cooldown.None? ==> w.selfSlash == Weight(cfg, s.amount, s.period))
      && (w.selfSlash == Weight(cfg, s.amount, s.period) || w.selfSlash == w.selfReward)
  {
    EmptySound(cfg, ids);
    assert AllSelfOk(cfg, NO_BOOKS);
    hide Run, Sound, Weight;
    RunSelfOk(cfg, ids, NO_BOOKS, calls);
  }

  /**
   * After a slash of its stake, a committer's slash weight is that of the stake left exactly outside the
   * cooldown, or where the rewardable part of it weighs the same.
   */
  lemma {:induction false} SlashWeightWhen(cfg: Config, b: Books, who: Account, cid: CommitmentId, decrease: nat)
    requires cfg.Valid() && Staked(b, cid) && decrease <= b.totalStake
    requires b.commitments[cid].weights.time <= b.epoch && StakeOk(cfg, b.commitments[cid].stake.value)
    ensures var s := b.commitments[cid].stake.value;
      var left := Minus(s.amount, decrease);
      var c := AfterCommitterSlash(cfg, b, who, cid, decrease).commitments[cid];
      && c.stake.Some? && c.stake.value.amount == left && c.stake.value.period == s.period
      && (c.weights.value.selfSlash == Weight(cfg, left, s.period)
          <==> || s.cooldown.None?
               || Weight(cfg, MulFloor(cfg.cooldownRatio, left), s.period) == Weight(cfg, left, s.period))
  {
    hide Weight, Get;
    var c := b.commitments[cid];
    var s := Resized(cfg, c.stake.value, Minus(c.stake.value.amount, decrease));
    SelfWeighedOk(cfg, c.(stake := Some(s)), b.epoch);
  }
}
