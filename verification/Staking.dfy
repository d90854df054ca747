/**
 * Staking and delegation: the operations of the compute pallet on its storage, in the order in
 * which they read and write it. An operation that fails leaves the storage as it was.
 *
 * Balances, transfers, burning and the checks on metrics are decided outside; `Env` says how.
 */
module Staking {
  import opened Wrappers
  import opened StakingBase
  import opened StakingBooks
  import opened StakingMoves
  import opened StakingEffects
  import opened StakingRuns
  import opened Slashing

  datatype Error =
    | MinStakeUnmet | BelowMinDelegation | BelowMinCooldownPeriod | AboveMaxCooldownPeriod
    | InsufficientBalance | NoOwnerOfCommitmentId | AlreadyCommitted | CommitmentNotFound | CommitmentInCooldown
    | CooldownPeriodCannotDecrease | CommissionCannotIncrease | MaxStakeMetricRatioExceeded
    | DelegationCooldownMustBeShorterThanCommitment | AlreadyDelegating | NotDelegating | CalculationOverflow
    | CooldownAlreadyStarted | CooldownNotStarted | CooldownNotEnded | StaleDelegationMustBeEnded | CannotKickout
    | AlreadySlashed | NotSlashable | RedelegateBlocked | InternalError

  datatype LockReason = ForStaking | ForDelegation(cid: CommitmentId)

  /** The lock an account should carry, read from storage while an operation is under way. */
  function NewLock(ids: Owners, s: Books, who: Account, amount: nat, reason: LockReason): nat {
    match reason
    case ForStaking => Get(s.delegatorTotal, who) + amount
    case ForDelegation(cid) =>
      var staked := OwnStake(ids, s.commitments, who);
      var delegated := if (who, cid) in s.delegations then s.delegations[(who, cid)].stake.amount else 0;
      Minus(Get(s.delegatorTotal, who), delegated) + staked + amount
  }

  class Pallet {
    const cfg: Config
    const ids: Owners
    var s: Books

    ghost predicate Valid()
      reads this
    {
      Sound(cfg, ids, s)
    }

    constructor (cfg: Config, ids: Owners)
      requires cfg.Valid() && Distinct(ids)
      ensures this.cfg == cfg && this.ids == ids && Valid() && s == NO_BOOKS
    {
      this.cfg, this.ids, s := cfg, ids, NO_BOOKS;
      new;
      EmptySound(cfg, ids);
    }

    method Advance(block: nat, epoch: nat)
      requires Valid() && s.block <= block && s.epoch <= epoch
      modifies this
      ensures Valid() && s == old(s).(block := block, epoch := epoch)
    {
      hide Sound;
      TimeKeeps(cfg, ids, s, block, epoch);
      s := s.(block := block, epoch := epoch);
    }

    // ----- locks -----

    method LockFunds(who: Account, amount: nat, reason: LockReason, balance: nat) returns (ok: bool)
      modifies this
      ensures ok <==> NewLock(ids, old(s), who, amount, reason) <= balance
      ensures s == if ok then old(s).(locks := old(s).locks[who := NewLock(ids, old(s), who, amount, reason)])
        else old(s)
    {
      var total := NewLock(ids, s, who, amount, reason);
      if balance < total {
        return false;
      }
      s := s.(locks := s.locks[who := total]);
      return true;
    }

    method UnlockFunds(who: Account, amount: nat)
      modifies this
      ensures s == old(s).(locks := Unlocked(old(s).locks, who, amount))
    {
      var total := Minus(Get(s.locks, who), amount);
      if total == 0 {
        s := s.(locks := s.locks - {who});
      } else {
        s := s.(locks := s.locks[who := total]);
      }
    }

    // ----- committers -----

    method StakeFor(who: Account, amount: nat, period: nat, commission: nat, env: Env) returns (r: Result<(), Error>)
      requires Valid()
      modifies this
      ensures Valid()
      ensures r.Ok? <==> CanStake(cfg, ids, old(s), who, amount, period, env)
      ensures s == if r.Ok? then AfterStake(cfg, ids, old(s), who, amount, period, commission) else old(s)
    {
      hide Sound, Weight, Get, OwnStake;
      var before := s;
      PoolReady(cfg, ids, s);
      if amount == 0 || amount < cfg.minStake {
        return Err(MinStakeUnmet);
      }
      if period < cfg.minPeriod {
        return Err(BelowMinCooldownPeriod);
      }
      if period > cfg.maxPeriod {
        return Err(AboveMaxCooldownPeriod);
      }
      var locked := LockFunds(who, amount, ForStaking, env.balance);
      if !locked {
        return Err(InsufficientBalance);
      }
      if who !in ids {
        s := before;
        return Err(NoOwnerOfCommitmentId);
      }
      var cid := ids[who];
      if cid in s.commitments && s.commitments[cid].stake.Some? {
        s := before;
        return Err(AlreadyCommitted);
      }
      StakeSound(cfg, ids, before, who, amount, period, commission);
      var stake := NewStake(amount, s.block, period);
      var w := Weight(cfg, stake.rewardable, stake.period);
      var weights := NewMemory(s.epoch, Weights(w, w, 0, 0));
      s := s.(totalStake := s.totalStake + stake.amount);
      var c;
      if cid in s.commitments {
        c := s.commitments[cid];
        var pool := c.pool.SetAt(s.block, NO_REWARDS);
        c := c.(stake := Some(stake), commission := commission, delegTotal := 0, weights := weights,
                pool := pool.value);
      } else {
        c := Commitment(Some(stake), commission, 0, weights, NewMemory(s.block, NO_REWARDS), 0);
      }
      s := s.(commitments := s.commitments[cid := c]);
      return Ok(());
    }

    method StakeMoreFor(who: Account, extra: nat, period: Option<nat>, commission: Option<nat>, env: Env)
      returns (r: Result<(), Error>)
      requires Valid()
      modifies this
      ensures Valid()
      ensures r.Ok? <==> CanStakeMore(ids, old(s), who, extra, period, commission, env)
      ensures s == if r.Ok? then AfterStakeMore(cfg, ids, old(s), who, extra, period, commission) else old(s)
    {
      hide Sound, Weight, Get, CommitmentOk, DelegationOk, OwnStake;
      var before := s;
      SoundConfig(cfg, ids, s);
      if who !in ids {
        return Err(NoOwnerOfCommitmentId);
      }
      var cid := ids[who];
      EntryFacts(cfg, ids, s, who, cid);
      if cid !in s.commitments {
        return Err(CommitmentNotFound);
      }
      var c := s.commitments[cid];
      if commission.Some? {
        if commission.value > c.commission && !env.mayRaise {
          return Err(CommissionCannotIncrease);
        }
        c := c.(commission := commission.value);
      }
      if c.stake.None? {
        return Err(CommitmentNotFound);
      }
      var stake := c.stake.value;
      if stake.cooldown.Some? {
        return Err(CommitmentInCooldown);
      }
      if extra != 0 {
        stake := stake.(amount := stake.amount + extra);
        stake := stake.(rewardable := stake.amount);
        var locked := LockFunds(who, stake.amount, ForStaking, env.balance);
        if !locked {
          return Err(InsufficientBalance);
        }
      }
      if period.Some? {
        if period.value < stake.period {
          s := before;
          return Err(CooldownPeriodCannotDecrease);
        }
        stake := stake.(period := period.value);
      }
      var w := Weight(cfg, stake.rewardable, stake.period);
      var weights := c.weights.SetAt(s.epoch, c.weights.value.(selfReward := w, selfSlash := w));
      s := s.(totalStake := s.totalStake + extra);
      if extra != 0 && !env.admitted {
        s := before;
        return Err(MaxStakeMetricRatioExceeded);
      }
      StakeMoreSound(cfg, ids, before, who, extra, period, commission);
      s := s.(commitments := s.commitments[cid := c.(stake := Some(stake), weights := weights.value)]);
      return Ok(());
    }

    /** Lowers a committer's stake because of a slash; `decrease` may be more than the stake. */
    method DecreaseCommitterStake(committer: Account, cid: CommitmentId, decrease: nat, env: Env)
      returns (r: Result<(), Error>)
      requires Valid() && committer in ids && ids[committer] == cid
      modifies this
      ensures Valid()
      ensures r.Ok? <==> CanSlashCommitter(old(s), committer, cid, decrease, env)
      ensures s == if r.Ok? then AfterCommitterSlash(cfg, old(s), committer, cid, decrease) else old(s)
    {
      hide Sound, Weight, Get, CommitmentOk, MulFloor, DelegationOk, OwnStake;
      var before := s;
      EntryFacts(cfg, ids, s, committer, cid);
      if cid !in s.commitments || s.commitments[cid].stake.None? {
        return Err(CommitmentNotFound);
      }
      var c := s.commitments[cid];
      var stake := c.stake.value;
      var amount := Minus(stake.amount, decrease);
      stake := stake.(amount := amount,
                      rewardable := if stake.cooldown.Some? then MulFloor(cfg.cooldownRatio, amount) else amount);
      var locked := LockFunds(committer, stake.amount, ForStaking, env.balance);
      if !locked {
        return Err(InsufficientBalance);
      }
      var w := Weight(cfg, stake.rewardable, stake.period);
      var weights := c.weights.SetAt(s.epoch, c.weights.value.(selfReward := w, selfSlash := w));
      if s.totalStake < decrease {
        s := before;
        return Err(CalculationOverflow);
      }
      CommitterSlashSound(cfg, ids, before, committer, cid, decrease);
      s := s.(totalStake := s.totalStake - decrease, overshoot := s.overshoot + Minus(decrease, c.stake.value.amount));
      s := s.(commitments := s.commitments[cid := c.(stake := Some(stake), weights := weights.value)]);
      return Ok(());
    }

    method CooldownCommitmentFor(who: Account) returns (r: Result<(), Error>)
      requires Valid()
      modifies this
      ensures Valid()
      ensures r.Ok? <==> CanCoolCommitter(ids, old(s), who)
      ensures s == if r.Ok? then AfterCommitterCooldown(cfg, old(s), ids[who]) else old(s)
    {
      hide Sound, Weight, Get, CommitmentOk, MulFloor, DelegationOk, OwnStake;
      if who !in ids {
        return Err(NoOwnerOfCommitmentId);
      }
      var cid := ids[who];
      EntryFacts(cfg, ids, s, who, cid);
      if cid !in s.commitments || s.commitments[cid].stake.None? {
        return Err(CommitmentNotFound);
      }
      var c := s.commitments[cid];
      var stake := c.stake.value;
      if stake.cooldown.Some? {
        return Err(CooldownAlreadyStarted);
      }
      CommitterCooldownSound(cfg, ids, s, who, cid);
      stake := stake.(cooldown := Some(s.block), rewardable := MulFloor(cfg.cooldownRatio, stake.amount));
      var w := Weight(cfg, stake.rewardable, stake.period);
      var weights := c.weights.SetAt(s.epoch, c.weights.value.(selfReward := w));
      s := s.(commitments := s.commitments[cid := c.(stake := Some(stake), weights := weights.value)]);
      return Ok(());
    }

    method WithdrawCommitterFor(who: Account, env: Env) returns (r: Result<nat, Error>)
      requires Valid()
      modifies this
      ensures Valid()
      ensures r.Ok? <==> CanWithdrawCommitter(ids, old(s), who, env)
      ensures s == if r.Ok? then AfterCommitterWithdraw(old(s), ids[who]) else old(s)
      ensures r.Ok? ==> r.value == old(s).commitments[ids[who]].stake.value.accruedReward
    {
      hide Sound;
      if who !in ids {
        return Err(NoOwnerOfCommitmentId);
      }
      var cid := ids[who];
      if cid !in s.commitments || s.commitments[cid].stake.None? {
        return Err(CommitmentNotFound);
      }
      var c := s.commitments[cid];
      var stake := c.stake.value;
      var reward := stake.accruedReward;
      if reward != 0 && !env.payable {
        return Err(InternalError);
      }
      CommitterWithdrawSound(cfg, ids, s, who, cid);
      stake := stake.(accruedReward := 0, paid := stake.paid + reward);
      s := s.(commitments := s.commitments[cid := c.(stake := Some(stake))]);
      return Ok(reward);
    }

    method EndCommitmentFor(who: Account, env: Env) returns (r: Result<nat, Error>)
      requires Valid()
      modifies this
      ensures Valid()
      ensures r.Ok? <==> CanEnd(ids, old(s), who, env)
      ensures s == if r.Ok? then AfterEnd(old(s), who, ids[who]) else old(s)
    {
      hide Sound, Get, Unlocked;
      var before := s;
      r := WithdrawCommitterFor(who, env);
      if r.Err? {
        return;
      }
      var cid := ids[who];
      var c := s.commitments[cid];
      var stake := c.stake.value;
      if stake.cooldown.None? {
        s := before;
        return Err(CooldownNotStarted);
      }
      if stake.cooldown.value + stake.period > s.block {
        s := before;
        return Err(CooldownNotEnded);
      }
      c := c.(stake := None, delegTotal := 0, weights := NewMemory(s.epoch, NO_WEIGHTS));
      s := s.(commitments := s.commitments[cid := c]);
      if s.totalStake < stake.amount {
        s := before;
        return Err(CalculationOverflow);
      }
      EndSound(cfg, ids, before, who, cid);
      assert s.commitments == before.commitments[cid := c];
      s := s.(totalStake := s.totalStake - stake.amount);
      UnlockFunds(who, stake.amount);
    }

    // ----- delegators -----

    method DelegateFor(who: Account, cid: CommitmentId, amount: nat, period: nat, env: Env)
      returns (r: Result<(), Error>)
      requires Valid()
      modifies this
      ensures Valid()
      ensures r.Ok? <==> CanDelegate(cfg, ids, old(s), who, cid, amount, period, env)
      ensures s == if r.Ok? then AfterJoin(cfg, ids, old(s), who, cid, amount, period) else old(s)
    {
      hide Sound, Weight, Get, DelegationOk, StakeOk, OwnStake, FloorShare, CeilShare;
      var before := s;
      EntryFacts(cfg, ids, s, who, cid);
      if amount == 0 || amount < cfg.minDelegation {
        return Err(BelowMinDelegation);
      }
      if period < cfg.minPeriod {
        return Err(BelowMinCooldownPeriod);
      }
      if period > cfg.maxPeriod {
        return Err(AboveMaxCooldownPeriod);
      }
      if cid !in s.commitments || s.commitments[cid].stake.None? {
        return Err(CommitmentNotFound);
      }
      var c := s.commitments[cid];
      if period > c.stake.value.period {
        return Err(DelegationCooldownMustBeShorterThanCommitment);
      }
      if c.stake.value.cooldown.Some? {
        return Err(CommitmentInCooldown);
      }
      var locked := LockFunds(who, amount, ForDelegation(cid), env.balance);
      if !locked {
        return Err(InsufficientBalance);
      }
      var w := Weight(cfg, amount, period);
      var pool := c.pool.GetLatest(s.block);
      var p := if pool.Some? then pool.value else NO_REWARDS;
      var d := Delegation(NewStake(amount, s.block, period), w, w,
                          CeilShare(w, p.rewardPerWeight), FloorShare(w, p.slashPerWeight));
      if (who, cid) in s.delegations {
        s := before;
        return Err(AlreadyDelegating);
      }
      s := s.(delegations := s.delegations[(who, cid) := d]);
      var v := c.weights.value;
      var weights := c.weights.SetAt(s.epoch, v.(delegReward := v.delegReward + w, delegSlash := v.delegSlash + w));
      c := c.(delegTotal := c.delegTotal + amount, weights := weights.value);
      s := s.(totalStake := s.totalStake + amount,
              delegatorTotal := s.delegatorTotal[who := Get(s.delegatorTotal, who) + amount]);
      if !env.admitted {
        s := before;
        return Err(MaxStakeMetricRatioExceeded);
      }
      JoinSound(cfg, ids, before, who, cid, amount, period);
      s := s.(commitments := s.commitments[cid := c]);
      return Ok(());
    }

    /** Moves what a delegation earned or owes since the last time into its accrued balances. */
    method AccrueDelegator(who: Account, cid: CommitmentId) returns (r: Result<(), Error>)
      requires Valid()
      modifies this
      ensures Valid()
      ensures r.Ok? <==> Delegates(old(s), who, cid)
      ensures s == if r.Ok? then AfterAccrue(old(s), who, cid) else old(s)
    {
      hide Sound, Weight, Get, CommitmentOk, OwnStake, FloorShare, CeilShare, MulFloor, WeighedBy, Live;
      EntryFacts(cfg, ids, s, who, cid);
      if cid !in s.commitments {
        return Err(CommitmentNotFound);
      }
      if (who, cid) !in s.delegations {
        return Err(NotDelegating);
      }
      AccrueSound(cfg, ids, s, who, cid);
      var d := s.delegations[(who, cid)];
      var pool := s.commitments[cid].pool.GetLatest(d.stake.created);
      if pool.None? {
        assert s.delegations == s.delegations[(who, cid) := d];
        return Ok(());
      }
      var p := pool.value;
      var reward := Minus(FloorShare(d.rewardWeight, p.rewardPerWeight), d.rewardDebt);
      var slash: nat := FloorShare(d.slashWeight, p.slashPerWeight) - d.slashDebt;
      d := d.(stake := d.stake.(accruedReward := d.stake.accruedReward + reward,
                                accruedSlash := d.stake.accruedSlash + slash));
      SanitizeIdle(cfg, d);
      d := Sanitized(cfg, d);
      d := d.(rewardDebt := CeilShare(d.rewardWeight, p.rewardPerWeight),
              slashDebt := FloorShare(d.slashWeight, p.slashPerWeight));
      s := s.(delegations := s.delegations[(who, cid) := d]);
      return Ok(());
    }

    /** Lowers a delegator's stake by at most `target`; returns what was taken and what was not. */
    method DecreaseDelegatorStake(who: Account, cid: CommitmentId, target: nat, env: Env)
      returns (r: Result<(nat, nat), Error>)
      requires Valid()
      modifies this
      ensures Valid()
      ensures r.Ok? <==> CanShrink(ids, old(s), who, cid, target, env)
      ensures s == if r.Ok? then AfterShrink(cfg, ids, old(s), who, cid, target) else old(s)
      ensures r.Ok? ==> r.value.0 == Shrinkage(old(s), who, cid, target) && r.value.1 == target - r.value.0
    {
      hide Sound, Weight, Get, OwnStake, FloorShare, CeilShare, MulFloor, StakeOk, SlashDebtOk;
      var before := s;
      EntryFacts(cfg, ids, s, who, cid);
      if cid !in s.commitments {
        return Err(CommitmentNotFound);
      }
      var c := s.commitments[cid];
      if (who, cid) !in s.delegations {
        return Err(NotDelegating);
      }
      EntryCounted(cfg, ids, s, who, cid);
      var d := s.delegations[(who, cid)];
      var cut := if target > d.stake.amount then d.stake.amount else target;
      var amount := d.stake.amount - cut;
      var d' := d.(stake := Resized(cfg, d.stake, amount));
      var locked := LockFunds(who, amount, ForDelegation(cid), env.balance);
      if !locked {
        return Err(InsufficientBalance);
      }
      if s.totalStake < cut {
        s := before;
        return Err(CalculationOverflow);
      }
      ShrinkSound(cfg, ids, before, who, cid, target);
      ShrunkOk(cfg, d, c, cid, s.block, s.epoch, amount);
      d', c := Rerate(d, d', c, cut);
      s := s.(commitments := s.commitments[cid := c], delegations := s.delegations[(who, cid) := d'],
              totalStake := s.totalStake - cut,
              delegatorTotal := s.delegatorTotal[who := Get(s.delegatorTotal, who) - cut]);
      return Ok((cut, target - cut));
    }

    /** The weights of a delegation `d` whose stake shrank to that of `shrunk`, and of its commitment. */
    method Rerate(d: Delegation, shrunk: Delegation, c: Commitment, cut: nat) returns (d': Delegation, c': Commitment)
      requires cfg.Valid() && c.weights.time <= s.epoch && (c.stake.Some? ==> c.stake.value.created == c.pool.time)
      requires shrunk == d.(stake := Resized(cfg, d.stake, shrunk.stake.amount))
      requires var d'' := Shrunk(cfg, d, c, shrunk.stake.amount);
        d''.rewardWeight <= d.rewardWeight && d''.slashWeight <= d.slashWeight
      requires LiveReward(Some(d), c) <= c.weights.value.delegReward
        && LiveSlash(Some(d), c) <= c.weights.value.delegSlash
      ensures d' == Shrunk(cfg, d, c, shrunk.stake.amount)
      ensures c' == if c.stake.None? then c
                    else c.(delegTotal := Minus(c.delegTotal, cut),
                            weights := Rebalanced(c, Some(d), Some(d'), s.epoch))
    {
      hide Weight, FloorShare, CeilShare, MulFloor;
      d', c' := shrunk, c;
      if c.stake.Some? {
        var rewardDiff, slashDiff := 0, 0;
        if d'.stake.created >= c.stake.value.created {
          var pool := c.pool.GetLatest(d'.stake.created);
          var rewardWeight := Weight(cfg, d'.stake.rewardable, d'.stake.period);
          var slashWeight := Weight(cfg, d'.stake.amount, d'.stake.period);
          rewardDiff, slashDiff := d'.rewardWeight - rewardWeight, d'.slashWeight - slashWeight;
          d' := d'.(rewardWeight := rewardWeight, slashWeight := slashWeight,
                    rewardDebt := CeilShare(rewardWeight, pool.value.rewardPerWeight),
                    slashDebt := FloorShare(slashWeight, pool.value.slashPerWeight));
        }
        var v := c.weights.value;
        var weights := c.weights.SetAt(s.epoch, v.(delegReward := Minus(v.delegReward, rewardDiff),
                                                   delegSlash := Minus(v.delegSlash, slashDiff)));
        c' := c.(delegTotal := Minus(c.delegTotal, cut), weights := weights.value);
      }
    }

    method ApplyDelegatorSlash(who: Account, cid: CommitmentId, env: Env) returns (r: Result<nat, Error>)
      requires Valid()
      modifies this
      ensures Valid()
      ensures r.Ok? <==> CanApplySlash(ids, old(s), who, cid, env)
      ensures s == if r.Ok? then AfterApplySlash(cfg, ids, old(s), who, cid, env) else old(s)
    {
      hide Sound, Weight, Get, OwnStake, AccruedIn, AfterShrink;
      var before := s;
      SoundConfig(cfg, ids, s);
      var accrued := AccrueDelegator(who, cid);
      if accrued.Err? {
        return Err(accrued.error);
      }
      AccruedAmount(before, who, cid);
      var due := s.delegations[(who, cid)].stake.accruedSlash;
      if due == 0 {
        return Ok(0);
      }
      var taken := DecreaseDelegatorStake(who, cid, due, env);
      if taken.Err? {
        s := before;
        return Err(taken.error);
      }
      var (slashed, remaining) := taken.value;
      if slashed != 0 && !env.slashable {
        s := before;
        return Err(InternalError);
      }
      ShrinkKeepsEntry(cfg, ids, AfterAccrue(before, who, cid), who, cid, due);
      RemainderSound(cfg, ids, s, who, cid, remaining);
      var d := s.delegations[(who, cid)];
      s := s.(delegations := s.delegations[(who, cid) := d.(stake := d.stake.(accruedSlash := remaining))]);
      return Ok(slashed);
    }

    method WithdrawDelegationFor(who: Account, cid: CommitmentId, env: Env) returns (r: Result<nat, Error>)
      requires Valid()
      modifies this
      ensures Valid()
      ensures r.Ok? <==> CanWithdraw(cfg, ids, old(s), who, cid, env)
      ensures s == if r.Ok? then AfterWithdraw(cfg, ids, old(s), who, cid, env) else old(s)
      ensures r.Ok? ==> r.value == RewardDue(cfg, ids, old(s), who, cid, env)
    {
      hide Sound, Get, AfterApplySlash, CanApplySlash;
      var before := s;
      SoundConfig(cfg, ids, s);
      var slashed := ApplyDelegatorSlash(who, cid, env);
      if slashed.Err? {
        return Err(slashed.error);
      }
      SlashTaken(cfg, ids, before, who, cid, env);
      PayoutSound(cfg, ids, s, who, cid);
      var d := s.delegations[(who, cid)];
      var reward := d.stake.accruedReward;
      if reward != 0 && !env.payable {
        s := before;
        return Err(InternalError);
      }
      d := d.(stake := d.stake.(accruedReward := 0, paid := d.stake.paid + reward));
      s := s.(delegations := s.delegations[(who, cid) := d], paid := s.paid[cid := Get(s.paid, cid) + reward]);
      return Ok(reward);
    }

    method CooldownDelegationFor(who: Account, cid: CommitmentId, env: Env) returns (r: Result<(), Error>)
      requires Valid()
      modifies this
      ensures Valid()
      ensures r.Ok? <==> CanCool(cfg, ids, old(s), who, cid, env)
      ensures r.Ok? ==> SameEntry(old(s), AfterApplySlash(cfg, ids, old(s), who, cid, env), who, cid)
      ensures s == if r.Ok? then AfterCool(cfg, AfterApplySlash(cfg, ids, old(s), who, cid, env), who, cid) else old(s)
    {
      hide Sound, Get, AfterApplySlash, CanApplySlash, Weight, FloorShare, CeilShare, MulFloor, OwnStake, StakeOk,
           SlashDebtOk;
      var before := s;
      SoundConfig(cfg, ids, s);
      var slashed := ApplyDelegatorSlash(who, cid, env);
      if slashed.Err? {
        return Err(slashed.error);
      }
      SlashKeepsEntry(cfg, ids, before, who, cid, env);
      EntryFacts(cfg, ids, s, who, cid);
      EntryCounted(cfg, ids, s, who, cid);
      var c, d := s.commitments[cid], s.delegations[(who, cid)];
      if c.stake.None? {
        s := before;
        return Err(StaleDelegationMustBeEnded);
      }
      if d.stake.cooldown.Some? {
        s := before;
        return Err(CooldownAlreadyStarted);
      }
      if d.stake.created < c.stake.value.created {
        s := before;
        return Err(StaleDelegationMustBeEnded);
      }
      var start := if c.stake.value.cooldown.Some? then c.stake.value.cooldown.value else s.block;
      CooledOk(cfg, d, c, cid, s.block, s.epoch, start);
      CoolSound(cfg, ids, s, who, cid);
      var pool := c.pool.GetLatest(d.stake.created);
      var d' := d.(stake := d.stake.(cooldown := Some(start),
                                     rewardable := MulFloor(cfg.cooldownRatio, d.stake.amount)));
      var w := Weight(cfg, d'.stake.rewardable, d'.stake.period);
      var v := c.weights.value;
      var weights := c.weights.SetAt(s.epoch, v.(delegReward := Minus(v.delegReward, d.rewardWeight - w)));
      d' := d'.(rewardWeight := w, rewardDebt := CeilShare(w, pool.value.rewardPerWeight));
      assert d' == Cooled(cfg, d, c, start);
      assert weights.value == Rebalanced(c, Some(d), Some(d'), s.epoch);
      s := s.(commitments := s.commitments[cid := c.(weights := weights.value)],
              delegations := s.delegations[(who, cid) := d']);
      return Ok(());
    }

    /** Ends a delegation; `kickout` is for callers other than the delegator, who may end stale ones only. */
    method EndDelegationFor(who: Account, cid: CommitmentId, checkCooldown: bool, kickout: bool, env: Env)
      returns (r: Result<nat, Error>)
      requires Valid()
      modifies this
      ensures Valid()
      ensures r.Ok? <==> CanLeave(cfg, ids, old(s), who, cid, checkCooldown, kickout, env)
      ensures s == if r.Ok? then AfterLeave(AfterWithdraw(cfg, ids, old(s), who, cid, env), who, cid) else old(s)
      ensures r.Ok? ==> r.value == RewardDue(cfg, ids, old(s), who, cid, env)
    {
      hide Sound, Get, AfterWithdraw, CanWithdraw, Unlocked, DelegationOk, StakeOk;
      var before := s;
      SoundConfig(cfg, ids, s);
      r := WithdrawDelegationFor(who, cid, env);
      if r.Err? {
        return;
      }
      WithdrawSound(cfg, ids, before, who, cid, env);
      EntryFacts(cfg, ids, s, who, cid);
      EntryCounted(cfg, ids, s, who, cid);
      var c, d := s.commitments[cid], s.delegations[(who, cid)];
      if checkCooldown && !CooldownOver(d, c, s.block) {
        s := before;
        return Err(if c.stake.value.cooldown.None? && d.stake.cooldown.None? then CooldownNotStarted
                   else CooldownNotEnded);
      }
      s := s.(delegations := s.delegations - {(who, cid)});
      if c.stake.Some? && d.stake.created >= c.stake.value.created {
        if kickout {
          s := before;
          return Err(CannotKickout);
        }
        var v := c.weights.value;
        var weights := c.weights.SetAt(s.epoch, v.(delegReward := Minus(v.delegReward, d.rewardWeight),
                                                   delegSlash := Minus(v.delegSlash, d.slashWeight)));
        c := c.(delegTotal := Minus(c.delegTotal, d.stake.amount), weights := weights.value);
      }
      if s.totalStake < d.stake.amount {
        s := before;
        return Err(CalculationOverflow);
      }
      LeaveSound(cfg, ids, AfterWithdraw(cfg, ids, before, who, cid, env), who, cid);
      s := s.(commitments := s.commitments[cid := c], totalStake := s.totalStake - d.stake.amount,
              delegatorTotal := s.delegatorTotal[who := Get(s.delegatorTotal, who) - d.stake.amount]);
      UnlockFunds(who, d.stake.amount);
    }

    /** Ends a delegation, transfers its reward once more and delegates again. */
    method Move(who: Account, cid: CommitmentId, to: CommitmentId, amount: nat, period: nat, env: Env, rejoin: Env)
      returns (r: Result<(), Error>)
      requires Valid()
      modifies this
      ensures Valid() && cfg.Valid()
      ensures r.Ok? <==> CanMove(cfg, ids, old(s), who, cid, to, amount, period, env, rejoin)
      ensures s == if r.Ok? then AfterMove(cfg, ids, old(s), who, cid, to, amount, period, env, rejoin) else old(s)
    {
      hide Sound, Get, AfterWithdraw, CanWithdraw, AfterLeave, AfterJoin, CanDelegate, RewardDue, CooldownOver;
      var before := s;
      SoundConfig(cfg, ids, s);
      var ended := EndDelegationFor(who, cid, false, false, env);
      if ended.Err? {
        return Err(ended.error);
      }
      var reward := ended.value;
      if reward != 0 && !rejoin.payable {
        s := before;
        return Err(InternalError);
      }
      r := DelegateFor(who, to, amount, period, rejoin);
      if r.Err? {
        s := before;
        return;
      }
      MoveSound(cfg, ids, before, who, cid, to, amount, period, env, rejoin);
      s := s.(again := before.again[cid := Get(before.again, cid) + reward]);
    }

    method DelegateMoreFor(who: Account, cid: CommitmentId, extra: nat, longer: Option<nat>, env: Env, rejoin: Env)
      returns (r: Result<(), Error>)
      requires Valid()
      modifies this
      ensures Valid() && cfg.Valid()
      ensures r.Ok? <==> Succeeds(cfg, ids, old(s), DelegateMore(who, cid, extra, longer, rejoin), env)
      ensures s == Next(cfg, ids, old(s), DelegateMore(who, cid, extra, longer, rejoin), env)
    {
      hide Sound, CanMove, AfterMove;
      SoundConfig(cfg, ids, s);
      EntryFacts(cfg, ids, s, who, cid);
      if (who, cid) !in s.delegations {
        return Err(NotDelegating);
      }
      var d := s.delegations[(who, cid)];
      if d.stake.cooldown.Some? {
        return Err(CooldownAlreadyStarted);
      }
      if cid !in s.commitments || s.commitments[cid].stake.None? {
        return Err(CommitmentNotFound);
      }
      if d.stake.created < s.commitments[cid].stake.value.created {
        return Err(StaleDelegationMustBeEnded);
      }
      var amount, period := d.stake.amount + extra, d.stake.period;
      if longer.Some? {
        if longer.value < period {
          return Err(CooldownPeriodCannotDecrease);
        }
        period := longer.value;
      }
      r := Move(who, cid, cid, amount, period, env, rejoin);
    }

    method RedelegateFor(who: Account, cid: CommitmentId, to: CommitmentId, env: Env, rejoin: Env)
      returns (r: Result<(), Error>)
      requires Valid()
      modifies this
      ensures Valid() && cfg.Valid()
      ensures r.Ok? <==> Succeeds(cfg, ids, old(s), Redelegate(who, cid, to, rejoin), env)
      ensures s == Next(cfg, ids, old(s), Redelegate(who, cid, to, rejoin), env)
    {
      hide Sound, CanMove, AfterMove;
      SoundConfig(cfg, ids, s);
      EntryFacts(cfg, ids, s, who, cid);
      if (who, cid) !in s.delegations {
        return Err(NotDelegating);
      }
      var d := s.delegations[(who, cid)];
      if (who, to) in s.delegations {
        return Err(AlreadyDelegating);
      }
      if cid !in s.commitments {
        return Err(CommitmentNotFound);
      }
      var c := s.commitments[cid];
      if c.stake.None? || d.stake.created < c.stake.value.created {
        return Err(StaleDelegationMustBeEnded);
      }
      if c.stake.value.cooldown.None? && Minus(s.block, d.stake.created) < cfg.redelegationBlocks {
        return Err(RedelegateBlocked);
      }
      r := Move(who, cid, to, d.stake.amount, d.stake.period, env, rejoin);
    }

    // ----- pools -----

    /** Credits a committer and spreads a reward over the delegation weights of `lastEpoch`. */
    method DistributeReward(cid: CommitmentId, selfAmount: nat, reward: nat, lastEpoch: nat)
      returns (r: Result<(), Error>)
      requires Valid()
      modifies this
      ensures Valid()
      ensures r.Ok? <==> Staked(old(s), cid)
      ensures s == if r.Err? then old(s)
                   else AfterDistribute(old(s), cid, selfAmount, reward,
                                        WeightsAt(old(s).commitments[cid], lastEpoch).delegReward)
    {
      hide Sound, Get, PerWeight, StakeOk, DelegationOk;
      if cid !in s.commitments || s.commitments[cid].stake.None? {
        return Err(CommitmentNotFound);
      }
      EntryFacts(cfg, ids, s, 0, cid);
      var c := s.commitments[cid];
      var stake := c.stake.value;
      var weights := WeightsAt(c, lastEpoch);
      DistributeSound(cfg, ids, s, cid, selfAmount, reward, weights.delegReward);
      c := c.(stake := Some(stake.(accruedReward := stake.accruedReward + selfAmount)));
      var extra := 0;
      if weights.delegReward != 0 && reward != 0 {
        extra := PerWeight(reward, weights.delegReward);
        var p := c.pool.value;
        var pool := c.pool.SetAt(stake.created, p.(rewardPerWeight := p.rewardPerWeight + extra));
        c := c.(pool := pool.value);
      }
      assert c.pool == RaisedBoth(s.commitments[cid].pool, extra, 0);
      s := s.(commitments := s.commitments[cid := c],
              distributed := s.distributed[cid := Get(s.distributed, cid) + reward],
              excess := s.excess[cid := Get(s.excess, cid)
                                 + Minus(c.weights.value.delegReward * extra, PER_TOKEN * reward)]);
      return Ok(());
    }

    /** Slashes the commitment of `committer` for the metrics missed, at most once for the last epoch. */
    method DoSlash(committer: Account, ps: Reports, base: nat, env: Env) returns (r: Result<(), Error>)
      requires Valid()
      modifies this
      ensures Valid()
      ensures r.Ok? <==> CanSlash(ids, old(s), committer, ps, base, env)
      ensures s == if r.Ok? then AfterSlash(cfg, ids, old(s), committer, ps, base, env) else old(s)
    {
      hide Sound, Get, PerWeight, SlashTotal, Weight, MulFloor, SelfWeighed, DelegationOk, StakeOk, OwnStake;
      var before := s;
      SoundConfig(cfg, ids, s);
      if committer !in ids {
        return Err(NoOwnerOfCommitmentId);
      }
      var cid := ids[committer];
      if s.epoch == 0 {
        return Err(CalculationOverflow);
      }
      var lastEpoch := s.epoch - 1;
      if cid !in s.commitments || s.commitments[cid].stake.None? {
        return Err(CommitmentNotFound);
      }
      var c := s.commitments[cid];
      if c.lastSlashing >= lastEpoch {
        return Err(AlreadySlashed);
      }
      var total := TotalSlash(ps, c.stake.value.amount + c.delegTotal, base, lastEpoch, c.lastSlashing);
      if total == 0 {
        return Err(NotSlashable);
      }
      var weights := WeightsAt(c, lastEpoch);
      if weights.selfSlash + weights.delegSlash == 0 {
        return Ok(());
      }
      var shares := Shares(weights, total);
      if shares.self != 0 {
        var decreased := DecreaseCommitterStake(committer, cid, shares.self, env);
        if decreased.Err? {
          return decreased;
        }
        if !env.slashable {
          s := before;
          return Err(InternalError);
        }
      }
      SlashSound(cfg, ids, before, committer, ps, base, env);
      EntryFacts(cfg, ids, s, committer, cid);
      SpreadSlash(cid, shares.increase, lastEpoch);
      return Ok(());
    }

    /** Raises the pool's slash per weight and dates the slash. */
    method SpreadSlash(cid: CommitmentId, increase: nat, lastEpoch: nat)
      requires cfg.Valid() && cid in s.commitments && s.commitments[cid].stake.Some?
      requires s.commitments[cid].pool.time == s.commitments[cid].stake.value.created
      modifies this
      ensures s == AfterPoolSlash(old(s), cid, increase, lastEpoch)
    {
      var c := s.commitments[cid];
      if increase != 0 {
        var p := c.pool.value;
        var pool := c.pool.SetAt(c.stake.value.created, p.(slashPerWeight := p.slashPerWeight + increase));
        c := c.(pool := pool.value);
      }
      s := s.(commitments := s.commitments[cid := c.(lastSlashing := lastEpoch)]);
    }
  }
}
