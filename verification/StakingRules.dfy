/**
 * The life of stakes and delegations: when each may begin, grow, cool down, move and end, on which
 * terms, and that nobody else's calls touch them.
 */
module StakingRules {
  import opened Wrappers
  import opened Arithmetic
  import opened StakingBase
  import opened StakingBooks
  import opened StakingMoves
  import opened StakingEffects
  import opened StakingRuns
  import opened StakingExact

  // ----- committers -----

  function OwnAmount(ids: Owners, b: Books, who: Account): nat {
    if who in ids && Staked(b, ids[who]) then b.commitments[ids[who]].stake.value.amount else 0
  }

  /** A stake begins if there is none, within the limits and the balance, and is locked with all else. */
  lemma {:induction false} StakeRule(cfg: Config, ids: Owners, b: Books, who: Account, amount: nat, period: nat,
                                     commission: nat, env: Env)
    requires Sound(cfg, ids, b) && cfg.Valid()
    ensures Succeeds(cfg, ids, b, Call.Stake(who, amount, period, commission), env) <==>
      && who in ids && !Staked(b, ids[who]) && 0 < amount && cfg.minStake <= amount
      && cfg.minPeriod <= period <= cfg.maxPeriod && Get(b.locks, who) + amount <= env.balance
    ensures Succeeds(cfg, ids, b, Call.Stake(who, amount, period, commission), env) ==>
      && var b' := Next(cfg, ids, b, Call.Stake(who, amount, period, commission), env);
      && Staked(b', ids[who]) && b'.totalStake == b.totalStake + amount
      && Get(b'.locks, who) == Get(b.locks, who) + amount
      && var c := b'.commitments[ids[who]];
      && c.stake.value == NewStake(amount, b.block, period) && c.commission == commission && c.delegTotal == 0
      && c.pool.value == NO_REWARDS && c.weights.value.selfReward == c.weights.value.selfSlash
      && c.weights.value.selfReward * cfg.maxPeriod <= amount * period
      && amount * period < (c.weights.value.selfReward + 1) * cfg.maxPeriod
  {
    LockOf(cfg, ids, b, who);
    WeightExact(cfg, amount, period);
    hide Sound, Weight;
  }

  lemma {:induction false} LockOf(cfg: Config, ids: Owners, b: Books, who: Account)
    requires Sound(cfg, ids, b)
    ensures Get(b.locks, who) == Get(b.delegatorTotal, who) + OwnAmount(ids, b, who)
  {
    EntryFacts(cfg, ids, b, who, 0);
    hide Sound;
  }

  /** A stake outside its cooldown may grow, within the balance, and its period never shrinks. */
  lemma {:induction false} StakeMoreWhen(cfg: Config, ids: Owners, b: Books, who: Account, extra: nat,
                                         longer: Option<nat>, rate: Option<nat>, env: Env)
    requires Sound(cfg, ids, b) && cfg.Valid()
    ensures Succeeds(cfg, ids, b, StakeMore(who, extra, longer, rate), env) <==>
      && who in ids && Staked(b, ids[who])
      && var c := b.commitments[ids[who]];
      && c.stake.value.cooldown.None? && (longer.Some? ==> c.stake.value.period <= longer.value)
      && (extra > 0 ==> Get(b.locks, who) + extra <= env.balance && env.admitted)
      && (rate.Some? && rate.value > c.commission ==> env.mayRaise)
  {
    LockOf(cfg, ids, b, who);
    hide Sound, Get;
  }

  /** It grows by what is added, and keeps its beginning, its pool and what it accrued. */
  lemma {:induction false} StakeMoreRule(cfg: Config, ids: Owners, b: Books, who: Account, extra: nat,
                                         longer: Option<nat>, rate: Option<nat>)
    requires Sound(cfg, ids, b) && cfg.Valid() && who in ids && Staked(b, ids[who])
    ensures var b' := AfterStakeMore(cfg, ids, b, who, extra, longer, rate);
      && Staked(b', ids[who]) && b'.totalStake == b.totalStake + extra
      && Get(b'.locks, who) == Get(b.locks, who) + extra
      && var c, c' := b.commitments[ids[who]], b'.commitments[ids[who]];
      && c'.stake.value.amount == c.stake.value.amount + extra && c'.stake.value.created == c.stake.value.created
      && c'.stake.value.period == (if longer.Some? then longer.value else c.stake.value.period)
      && c'.commission == (if rate.Some? then rate.value else c.commission)
      && c'.stake.value.accruedReward == c.stake.value.accruedReward && c'.pool == c.pool
  {
    LockOf(cfg, ids, b, who);
    hide Sound, Weight;
  }

  /** A cooldown begins once, now, and leaves the configured part of the stake rewardable. */
  lemma {:induction false} CoolCommitterRule(cfg: Config, ids: Owners, b: Books, who: Account, env: Env)
    requires cfg.Valid()
    ensures Succeeds(cfg, ids, b, CoolCommitter(who), env) <==>
      who in ids && Staked(b, ids[who]) && b.commitments[ids[who]].stake.value.cooldown.None?
    ensures Succeeds(cfg, ids, b, CoolCommitter(who), env) ==>
      && var b' := Next(cfg, ids, b, CoolCommitter(who), env);
      && Staked(b', ids[who])
      && var s, s' := b.commitments[ids[who]].stake.value, b'.commitments[ids[who]].stake.value;
      && s' == s.(cooldown := Some(b.block), rewardable := s'.rewardable)
      && s'.rewardable * QUINTILL <= cfg.cooldownRatio * s.amount < (s'.rewardable + 1) * QUINTILL
  {
    hide Weight;
    if who in ids && Staked(b, ids[who]) {
      FloorOf(cfg.cooldownRatio * b.commitments[ids[who]].stake.value.amount, QUINTILL);
    }
  }

  /** A committer is paid exactly what it has accrued, and that is recorded. */
  lemma {:induction false} WithdrawCommitterRule(cfg: Config, ids: Owners, b: Books, who: Account, env: Env)
    requires cfg.Valid()
    ensures Succeeds(cfg, ids, b, WithdrawCommitter(who), env) <==>
      && who in ids && Staked(b, ids[who])
      && (b.commitments[ids[who]].stake.value.accruedReward > 0 ==> env.payable)
    ensures Succeeds(cfg, ids, b, WithdrawCommitter(who), env) ==>
      && var b' := Next(cfg, ids, b, WithdrawCommitter(who), env);
      && Staked(b', ids[who])
      && var s, s' := b.commitments[ids[who]].stake.value, b'.commitments[ids[who]].stake.value;
      && s'.accruedReward == 0 && s'.paid == s.paid + s.accruedReward
      && s'.amount == s.amount && s'.period == s.period && s'.cooldown == s.cooldown && s'.created == s.created
  {
  }

  /** A commitment ends exactly when its cooldown is over; what it accrued is paid and its stake unlocked. */
  lemma {:induction false} EndRule(cfg: Config, ids: Owners, b: Books, who: Account, env: Env)
    requires Sound(cfg, ids, b) && cfg.Valid()
    ensures Succeeds(cfg, ids, b, End(who), env) <==>
      && who in ids && Staked(b, ids[who])
      && var s := b.commitments[ids[who]].stake.value;
      && s.cooldown.Some? && s.cooldown.value + s.period <= b.block && s.amount <= b.totalStake
      && (s.accruedReward > 0 ==> env.payable)
    ensures Succeeds(cfg, ids, b, End(who), env) ==>
      && var b' := Next(cfg, ids, b, End(who), env);
      && ids[who] in b'.commitments && !Staked(b', ids[who])
      && Get(b'.locks, who) + OwnAmount(ids, b, who) == Get(b.locks, who)
      && b'.totalStake + OwnAmount(ids, b, who) == b.totalStake
      && b'.commitments[ids[who]].weights.value == NO_WEIGHTS && b'.commitments[ids[who]].delegTotal == 0
  {
    LockOf(cfg, ids, b, who);
    hide Sound;
  }

  /** A commitment is slashed at most once for an epoch, and its committer and its pool each bear their part. */
  lemma {:induction false} SlashRule(cfg: Config, ids: Owners, b: Books, call: Call, env: Env)
    requires cfg.Valid() && call.Slash? && Succeeds(cfg, ids, b, call, env) && SlashBites(b, ids[call.who])
    ensures var b', cid := Next(cfg, ids, b, call, env), ids[call.who];
      var sh := SlashSplit(b, cid, call.ps, call.base);
      && b.epoch > 0 && b.commitments[cid].lastSlashing < b.epoch - 1 && Staked(b', cid)
      && b'.commitments[cid].lastSlashing == b.epoch - 1
      && b'.commitments[cid].stake.value.amount == Minus(b.commitments[cid].stake.value.amount, sh.self)
      && b'.commitments[cid].pool.value.slashPerWeight == b.commitments[cid].pool.value.slashPerWeight + sh.increase
      && b'.commitments[cid].pool.value.rewardPerWeight == b.commitments[cid].pool.value.rewardPerWeight
      && b'.totalStake + sh.self == b.totalStake
  {
    hide Weight, MulFloor, SlashSplit, SlashDemand, WeightsAt, Get;
  }

  // ----- delegators -----

  /** The terms of a delegation: when it began, for how long it is bound, and since when it has been cooling down. */
  predicate SameBond(s: Stake, s': Stake) {
    s'.created == s.created && s'.period == s.period && s'.cooldown == s.cooldown
  }

  /**
   * A delegation begins if there is none to the commitment, which is not in its cooldown, within the
   * limits, the commitment's own period and the balance.
   */
  lemma {:induction false} DelegateWhen(cfg: Config, ids: Owners, b: Books, who: Account, cid: CommitmentId,
                                        amount: nat, period: nat, env: Env)
    requires Sound(cfg, ids, b) && cfg.Valid()
    ensures Succeeds(cfg, ids, b, Delegate(who, cid, amount, period), env) <==>
      && (who, cid) !in b.delegations && Staked(b, cid) && b.commitments[cid].stake.value.cooldown.None?
      && 0 < amount && cfg.minDelegation <= amount && cfg.minPeriod <= period <= cfg.maxPeriod
      && period <= b.commitments[cid].stake.value.period && Get(b.locks, who) + amount <= env.balance && env.admitted
  {
    OwnIsOwn(ids, b, who);
    LockOf(cfg, ids, b, who);
    hide Sound, OwnStake, OwnAmount, Get;
  }

  /** It begins with what was delegated, which is locked with all else. */
  lemma {:induction false} DelegateRule(cfg: Config, ids: Owners, b: Books, who: Account, cid: CommitmentId,
                                        amount: nat, period: nat)
    requires Sound(cfg, ids, b) && cfg.Valid() && Staked(b, cid)
    ensures var b' := AfterJoin(cfg, ids, b, who, cid, amount, period);
      && (who, cid) in b'.delegations && Begun(cfg, b'.delegations[(who, cid)], amount, period, b.block)
      && b'.totalStake == b.totalStake + amount && Get(b'.locks, who) == Get(b.locks, who) + amount
      && cid in b'.commitments && b'.commitments[cid].delegTotal == b.commitments[cid].delegTotal + amount
  {
    OwnIsOwn(ids, b, who);
    LockOf(cfg, ids, b, who);
    WeightExact(cfg, amount, period);
    hide Sound, Weight, CeilShare, FloorShare, Rebalanced, OwnStake, OwnAmount;
  }

  lemma {:induction false} OwnIsOwn(ids: Owners, b: Books, who: Account)
    ensures OwnStake(ids, b.commitments, who) == OwnAmount(ids, b, who)
  {
  }

  lemma {:induction false} AccruedBond(d: Delegation, pool: Memory<PoolReward>)
    ensures SameBond(d.stake, AccruedIn(d, pool).stake) && AccruedIn(d, pool).stake.paid == d.stake.paid
    ensures AccruedIn(d, pool).stake.accruedReward >= d.stake.accruedReward
  {
    hide FloorShare, CeilShare;
  }

  lemma {:induction false} ShrunkBond(cfg: Config, d: Delegation, c: Commitment, amount: nat)
    requires cfg.Valid()
    ensures var s, s' := d.stake, Shrunk(cfg, d, c, amount).stake;
      SameBond(s, s') && s'.accruedReward == s.accruedReward && s'.paid == s.paid
  {
    hide FloorShare, CeilShare, Weight, MulFloor;
  }

  /** Applying a slash keeps the terms of the delegation, what it has accrued, and every other one. */
  lemma {:induction false} SlashBond(cfg: Config, ids: Owners, b: Books, who: Account, cid: CommitmentId, env: Env)
    requires cfg.Valid() && CanApplySlash(ids, b, who, cid, env)
    ensures Delegates(b, who, cid)
    ensures var b' := AfterApplySlash(cfg, ids, b, who, cid, env);
      && Delegates(b', who, cid) && b'.block == b.block && b'.epoch == b.epoch
      && b'.delegations - {(who, cid)} == b.delegations - {(who, cid)}
      && var s, s' := b.delegations[(who, cid)].stake, b'.delegations[(who, cid)].stake;
      && SameBond(s, s') && s'.paid == s.paid && s.accruedReward <= s'.accruedReward
  {
    hide AccruedIn, Shrunk, Rebalanced, Get, OwnStake;
    var d, c := b.delegations[(who, cid)], b.commitments[cid];
    AccruedBond(d, c.pool);
    var d1 := AccruedIn(d, c.pool);
    forall amount: nat
      ensures var s' := Shrunk(cfg, d1, c, amount).stake;
        SameBond(d1.stake, s') && s'.accruedReward == d1.stake.accruedReward && s'.paid == d1.stake.paid
    {
      ShrunkBond(cfg, d1, c, amount);
    }
  }

  /** A withdrawal pays exactly the reward due. */
  lemma {:induction false} WithdrawRule(cfg: Config, ids: Owners, b: Books, who: Account, cid: CommitmentId, env: Env)
    requires cfg.Valid() && CanWithdraw(cfg, ids, b, who, cid, env)
    ensures var b', due := AfterWithdraw(cfg, ids, b, who, cid, env), RewardDue(cfg, ids, b, who, cid, env);
      && Delegates(b', who, cid) && b'.delegations - {(who, cid)} == b.delegations - {(who, cid)}
      && b'.block == b.block && b'.epoch == b.epoch
      && var s, s' := b.delegations[(who, cid)].stake, b'.delegations[(who, cid)].stake;
      && SameBond(s, s') && s'.accruedReward == 0 && s'.paid == s.paid + due && s.accruedReward <= due
  {
    hide AfterApplySlash, CanApplySlash, Get;
    SlashBond(cfg, ids, b, who, cid, env);
  }

  /** A cooldown begins once, for a live delegation: with the committer's if that has begun, or now. */
  lemma {:induction false} CoolRule(cfg: Config, ids: Owners, b: Books, who: Account, cid: CommitmentId, env: Env)
    requires cfg.Valid() && Succeeds(cfg, ids, b, Cool(who, cid), env)
    ensures Delegates(b, who, cid) && Live(b.delegations[(who, cid)], b.commitments[cid])
    ensures b.delegations[(who, cid)].stake.cooldown.None?
    ensures var b' := Next(cfg, ids, b, Cool(who, cid), env);
      && Delegates(b', who, cid) && b'.delegations - {(who, cid)} == b.delegations - {(who, cid)}
      && var s, s' := b.delegations[(who, cid)].stake, b'.delegations[(who, cid)].stake;
      && var c := b.commitments[cid].stake.value;
      && s'.created == s.created && s'.period == s.period
      && s'.cooldown == Some(if c.cooldown.Some? then c.cooldown.value else b.block)
      && s'.rewardable * QUINTILL <= cfg.cooldownRatio * s'.amount < (s'.rewardable + 1) * QUINTILL
  {
    hide AfterApplySlash, CanApplySlash, Rebalanced, Weight, CeilShare, FloorShare;
    SlashBond(cfg, ids, b, who, cid, env);
    SlashKeepsEntry(cfg, ids, b, who, cid, env);
    var b1 := AfterApplySlash(cfg, ids, b, who, cid, env);
    FloorOf(cfg.cooldownRatio * b1.delegations[(who, cid)].stake.amount, QUINTILL);
  }

  /** A live delegation has waited for its period, since its own or the committer's cooldown began. */
  predicate Waited(s: Stake, c: Stake, block: nat) {
    || (s.cooldown.Some? && s.cooldown.value + s.period <= block)
    || (c.cooldown.Some? && c.cooldown.value + s.period <= block)
  }

  /** A delegation that can be withdrawn ends when it is stale or has waited; a kickout ends a stale one only. */
  lemma {:induction false} LeaveRule(cfg: Config, ids: Owners, b: Books, who: Account, cid: CommitmentId,
                                     kickout: bool, env: Env)
    requires cfg.Valid() && CanWithdraw(cfg, ids, b, who, cid, env)
    ensures Delegates(b, who, cid)
    ensures var d, c, b1 := b.delegations[(who, cid)], b.commitments[cid], AfterWithdraw(cfg, ids, b, who, cid, env);
      && Delegates(b1, who, cid)
      && (Succeeds(cfg, ids, b, Leave(who, cid, kickout), env) <==>
            && (Live(d, c) ==> !kickout && Waited(d.stake, c.stake.value, b.block))
            && b1.delegations[(who, cid)].stake.amount <= b1.totalStake)
    ensures Succeeds(cfg, ids, b, Leave(who, cid, kickout), env) ==>
      Next(cfg, ids, b, Leave(who, cid, kickout), env).delegations == b.delegations - {(who, cid)}
  {
    hide AfterApplySlash, CanApplySlash, Rebalanced, Get;
    WithdrawRule(cfg, ids, b, who, cid, env);
    SlashKeepsEntry(cfg, ids, b, who, cid, env);
    var b1 := AfterWithdraw(cfg, ids, b, who, cid, env);
    assert b1.delegations - {(who, cid)} == b.delegations - {(who, cid)};
  }

  /** Delegating more needs a live delegation outside its cooldown; redelegating, one that has been long enough. */
  lemma {:induction false} MoveRule(cfg: Config, ids: Owners, b: Books, call: Call, env: Env)
    requires cfg.Valid() && (call.DelegateMore? || call.Redelegate?) && Succeeds(cfg, ids, b, call, env)
    ensures Delegates(b, call.who, call.cid) && Live(b.delegations[(call.who, call.cid)], b.commitments[call.cid])
    ensures var s, c := b.delegations[(call.who, call.cid)].stake, b.commitments[call.cid].stake.value;
      if call.DelegateMore? then
        s.cooldown.None? && (call.longer.Some? ==> s.period <= call.longer.value)
      else
        && (call.who, call.to) !in b.delegations && call.to != call.cid && Staked(b, call.to)
        && (c.cooldown.None? ==> s.created + cfg.redelegationBlocks <= b.block || cfg.redelegationBlocks == 0)
  {
    hide CanLeave, RewardDue, AfterLeave, AfterWithdraw, Get, OwnStake;
    if call.Redelegate? && call.to != call.cid {
      LeftStaked(cfg, ids, b, call.who, call.cid, call.to, env);
    }
  }

  /** Withdrawing and leaving does not end another commitment. */
  lemma {:induction false} LeftStaked(cfg: Config, ids: Owners, b: Books, who: Account, cid: CommitmentId,
                                      to: CommitmentId, env: Env)
    requires cfg.Valid() && CanLeave(cfg, ids, b, who, cid, false, false, env) && to != cid
    ensures var left := AfterLeave(AfterWithdraw(cfg, ids, b, who, cid, env), who, cid);
      Staked(left, to) <==> Staked(b, to)
  {
    hide AccruedIn, Shrunk, Rebalanced, Get, OwnStake, Unlocked;
  }

  // ----- bystanders -----

  /** The call is about this delegation. */
  predicate Concerns(call: Call, who: Account, cid: CommitmentId) {
    match call
    case Delegate(w, c, _, _) => w == who && c == cid
    case Accrue(w, c) => w == who && c == cid
    case ApplySlash(w, c) => w == who && c == cid
    case Withdraw(w, c) => w == who && c == cid
    case Cool(w, c) => w == who && c == cid
    case Leave(w, c, _) => w == who && c == cid
    case DelegateMore(w, c, _, _, _) => w == who && c == cid
    case Redelegate(w, c, to, _) => w == who && (c == cid || to == cid)
    case _ => false
  }

  predicate SameAt(b: Books, b': Books, k: Key) {
    (k in b'.delegations <==> k in b.delegations) && (k in b.delegations ==> b'.delegations[k] == b.delegations[k])
  }

  lemma {:induction false} MoveOthers(cfg: Config, ids: Owners, b: Books, who: Account, cid: CommitmentId,
                                      to: CommitmentId, amount: nat, period: nat, env: Env, rejoin: Env, k: Key)
    requires cfg.Valid() && CanMove(cfg, ids, b, who, cid, to, amount, period, env, rejoin)
    requires k != (who, cid) && k != (who, to)
    ensures SameAt(b, AfterMove(cfg, ids, b, who, cid, to, amount, period, env, rejoin), k)
  {
    hide AfterWithdraw, CanWithdraw, RewardDue, Rebalanced, Joined, Get, OwnStake, Unlocked;
    WithdrawRule(cfg, ids, b, who, cid, env);
    var b1 := AfterWithdraw(cfg, ids, b, who, cid, env);
    assert k in b1.delegations - {(who, cid)} <==> k in b.delegations - {(who, cid)};
  }

  lemma {:induction false} SlashOthers(cfg: Config, ids: Owners, b: Books, call: Call, env: Env, k: Key)
    requires cfg.Valid() && Succeeds(cfg, ids, b, call, env) && !Concerns(call, k.0, k.1)
    requires call.ApplySlash? || call.Withdraw? || call.Cool? || call.Leave?
    ensures SameAt(b, Next(cfg, ids, b, call, env), k)
  {
    hide AfterApplySlash, CanApplySlash, RewardDue, Rebalanced, Cooled, Get, Unlocked, CooldownOver;
    SlashBond(cfg, ids, b, call.who, call.cid, env);
    var b1 := AfterApplySlash(cfg, ids, b, call.who, call.cid, env);
    assert k in b1.delegations - {(call.who, call.cid)} <==> k in b.delegations - {(call.who, call.cid)};
  }

  lemma {:induction false} CommitterOthers(cfg: Config, ids: Owners, b: Books, call: Call, env: Env, k: Key)
    requires cfg.Valid() && Succeeds(cfg, ids, b, call, env) && !Concerns(call, k.0, k.1)
    requires !call.ApplySlash? && !call.Withdraw? && !call.Cool? && !call.Leave? && !call.DelegateMore?
    requires !call.Redelegate?
    ensures SameAt(b, Next(cfg, ids, b, call, env), k)
  {
    hide Get, Weight, SelfWeighed, MulFloor, OwnStake, Unlocked, AfterMove, CanMove, AfterApplySlash, CanApplySlash,
         Rebalanced, Joined, AccruedIn, SlashSplit, SlashBites, SlashDemand, WeightsAt, RaisedBoth;
  }

  /** No call changes a delegation it is not about. */
  lemma {:induction false} OthersKept(cfg: Config, ids: Owners, b: Books, call: Call, env: Env, k: Key)
    requires cfg.Valid() && !Concerns(call, k.0, k.1)
    ensures SameAt(b, Next(cfg, ids, b, call, env), k)
  {
    if Succeeds(cfg, ids, b, call, env) {
      if call.DelegateMore? {
        MoveOthers(cfg, ids, b, call.who, call.cid, call.cid, MoreAmount(b, call.who, call.cid, call.extra),
                   MorePeriod(b, call.who, call.cid, call.longer), env, call.rejoin, k);
      } else if call.Redelegate? {
        MoveOthers(cfg, ids, b, call.who, call.cid, call.to, MoreAmount(b, call.who, call.cid, 0),
                   MorePeriod(b, call.who, call.cid, None), env, call.rejoin, k);
      } else if call.ApplySlash? || call.Withdraw? || call.Cool? || call.Leave? {
        SlashOthers(cfg, ids, b, call, env, k);
      } else {
        CommitterOthers(cfg, ids, b, call, env, k);
      }
    }
    hide AfterMove, CanMove, AfterApplySlash, CanApplySlash, SameAt;
  }

  /** None of the calls begins, cools, moves or ends this delegation. */
  predicate Undisturbed(calls: seq<(Call, Env)>, who: Account, cid: CommitmentId) {
    calls == [] || (!Disturbs(calls[0].0, who, cid) && Undisturbed(calls[1..], who, cid))
  }

  predicate Disturbs(call: Call, who: Account, cid: CommitmentId) {
    Concerns(call, who, cid) && !call.Accrue? && !call.ApplySlash? && !call.Withdraw?
  }

  lemma {:induction false} BondStep(cfg: Config, ids: Owners, b: Books, call: Call, env: Env, who: Account,
                                    cid: CommitmentId)
    requires cfg.Valid() && (who, cid) in b.delegations && !Disturbs(call, who, cid)
    ensures var b' := Next(cfg, ids, b, call, env);
      (who, cid) in b'.delegations && SameBond(b.delegations[(who, cid)].stake, b'.delegations[(who, cid)].stake)
  {
    if !Concerns(call, who, cid) {
      OthersKept(cfg, ids, b, call, env, (who, cid));
    } else if Succeeds(cfg, ids, b, call, env) {
      hide AfterApplySlash, CanApplySlash, AccruedIn, Get;
      match call
      case Accrue(_, _) => AccruedBond(b.delegations[(who, cid)], b.commitments[cid].pool);
      case ApplySlash(_, _) => SlashBond(cfg, ids, b, who, cid, env);
      case Withdraw(_, _) => WithdrawRule(cfg, ids, b, who, cid, env);
    }
  }

  /** Over every run, a delegation stays on its terms until its delegator cools, moves or ends it. */
  lemma {:induction false} BondKept(cfg: Config, ids: Owners, b: Books, calls: seq<(Call, Env)>, who: Account,
                                    cid: CommitmentId)
    requires cfg.Valid() && (who, cid) in b.delegations && Undisturbed(calls, who, cid)
    ensures var b' := Run(cfg, ids, b, calls);
      (who, cid) in b'.delegations && SameBond(b.delegations[(who, cid)].stake, b'.delegations[(who, cid)].stake)
    decreases |calls|
  {
    hide Next, Disturbs;
    if calls != [] {
      BondStep(cfg, ids, b, calls[0].0, calls[0].1, who, cid);
      BondKept(cfg, ids, Next(cfg, ids, b, calls[0].0, calls[0].1), calls[1..], who, cid);
    }
  }
}
