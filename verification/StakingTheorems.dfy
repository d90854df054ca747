/** What every run of staking operations from empty books guarantees, in plain terms. */
module StakingTheorems {
  import opened Wrappers
  import opened StakingBase
  import opened StakingSums
  import opened StakingBooks
  import opened StakingMoves
  import opened StakingEffects
  import opened StakingRuns
  import opened Slashing

  /** Recorded weights, totals and locks agree with the stakes and delegations that exist. */
  lemma {:induction false} RecordsAgree(cfg: Config, ids: Owners, calls: seq<(Call, Env)>, who: Account,
                                        cid: CommitmentId)
    requires cfg.Valid() && Distinct(ids)
    ensures var b := Run(cfg, ids, NO_BOOKS, calls);
      && (Staked(b, cid) ==>
            var c := b.commitments[cid];
            && c.weights.value.delegReward == Sum(b.delegations, RewardWeightSince(cid, c.stake.value.created))
            && c.weights.value.delegSlash == Sum(b.delegations, SlashWeightSince(cid, c.stake.value.created))
            && c.stake.value.rewardable <= c.stake.value.amount)
      && (Delegates(b, who, cid) ==>
            b.delegations[(who, cid)].stake.rewardable <= b.delegations[(who, cid)].stake.amount)
      && Get(b.delegatorTotal, who) == Sum(b.delegations, AmountOf(who))
      && Get(b.locks, who) == Get(b.delegatorTotal, who) + OwnStake(ids, b.commitments, who)
      && b.totalStake + b.overshoot == StakeSum(b.commitments) + Sum(b.delegations, AnyAmount)
  {
    hide Run, Sum, StakeSum, Weight, MulFloor, Get;
    EmptySound(cfg, ids);
    RunSound(cfg, ids, NO_BOOKS, calls);
    var b := Run(cfg, ids, NO_BOOKS, calls);
    EntryFacts(cfg, ids, b, who, cid);
    assert cid in b.commitments ==> WeightsAreSums(b.delegations, cid, b.commitments[cid]);
    if Staked(b, cid) {
      RewardableWithinAmount(cfg, b.commitments[cid].stake.value);
    }
    if Delegates(b, who, cid) {
      RewardableWithinAmount(cfg, b.delegations[(who, cid)].stake);
    }
  }

  function LastSlashing(b: Books, cid: CommitmentId): nat {
    if cid in b.commitments then b.commitments[cid].lastSlashing else 0
  }

  /** What a committer has accrued and not been paid. */
  function CommitterAccrued(b: Books, cid: CommitmentId): nat {
    if Staked(b, cid) then b.commitments[cid].stake.value.accruedReward else 0
  }

  /** Slashing a delegator touches neither the ledger nor the date of the commitment's last slash. */
  lemma {:induction false} DelegatorSlashKeeps(cfg: Config, ids: Owners, b: Books, who: Account, cid: CommitmentId,
                                                   env: Env, other: CommitmentId)
    requires cfg.Valid() && CanApplySlash(ids, b, who, cid, env)
    ensures var b' := AfterApplySlash(cfg, ids, b, who, cid, env);
      && b'.excess == b.excess && b'.overshoot == b.overshoot && b'.again == b.again && b'.distributed == b.distributed
      && b'.epoch == b.epoch && b'.paid == b.paid && LastSlashing(b', other) == LastSlashing(b, other)
      && CommitterAccrued(b', other) == CommitterAccrued(b, other)
  {
    hide Get, Rebalanced, Weight, MulFloor, AccruedIn, Shrunk, OwnStake;
  }

  /** Nor does moving a delegation, apart from what is paid again. */
  lemma {:induction false} MoveKeeps(cfg: Config, ids: Owners, b: Books, who: Account, cid: CommitmentId,
                                     to: CommitmentId, amount: nat, period: nat, env: Env, rejoin: Env,
                                     other: CommitmentId)
    requires cfg.Valid() && CanMove(cfg, ids, b, who, cid, to, amount, period, env, rejoin)
    ensures var b' := AfterMove(cfg, ids, b, who, cid, to, amount, period, env, rejoin);
      && b'.excess == b.excess && b'.overshoot == b.overshoot && b'.distributed == b.distributed
      && b'.epoch == b.epoch && LastSlashing(b', other) == LastSlashing(b, other)
      && CommitterAccrued(b', other) == CommitterAccrued(b, other)
      && b'.paid == b.paid[cid := Get(b.paid, cid) + RewardDue(cfg, ids, b, who, cid, env)]
      && b'.again == b.again[cid := Get(b.again, cid) + RewardDue(cfg, ids, b, who, cid, env)]
  {
    hide Get, Rebalanced, Weight, Joined, AfterApplySlash, CanApplySlash, OwnStake, Unlocked;
    DelegatorSlashKeeps(cfg, ids, b, who, cid, env, other);
  }

  predicate Moves(call: Call) {
    call.DelegateMore? || call.Redelegate?
  }

  /** As `MoveKeeps`, for a successful call. */
  lemma {:induction false} MovingKeeps(cfg: Config, ids: Owners, b: Books, call: Call, env: Env, other: CommitmentId)
    requires cfg.Valid() && Moves(call) && Succeeds(cfg, ids, b, call, env)
    ensures CanApplySlash(ids, b, call.who, call.cid, env)
    ensures var b' := Next(cfg, ids, b, call, env);
      && b'.excess == b.excess && b'.overshoot == b.overshoot && b'.distributed == b.distributed
      && b'.epoch == b.epoch && LastSlashing(b', other) == LastSlashing(b, other)
      && CommitterAccrued(b', other) == CommitterAccrued(b, other)
      && b'.paid == b.paid[call.cid := Get(b.paid, call.cid) + RewardDue(cfg, ids, b, call.who, call.cid, env)]
      && b'.again == b.again[call.cid := Get(b.again, call.cid) + RewardDue(cfg, ids, b, call.who, call.cid, env)]
  {
    hide AfterMove, Get, AfterApplySlash, CanApplySlash, CanDelegate, RewardDue, CooldownOver, LastSlashing,
         CommitterAccrued;
    var (who, cid, rejoin) := (call.who, call.cid, call.rejoin);
    var to := if call.Redelegate? then call.to else cid;
    var extra, longer := if call.Redelegate? then 0 else call.extra, if call.Redelegate? then None else call.longer;
    MoveKeeps(cfg, ids, b, who, cid, to, MoreAmount(b, who, cid, extra), MorePeriod(b, who, cid, longer), env, rejoin,
              other);
  }

  predicate SlashesDelegator(call: Call) {
    call.ApplySlash? || call.Withdraw? || call.Cool? || call.Leave?
  }

  /** What a step keeps: each ledger changes with one kind of call only. */
  ghost predicate Kept(b: Books, b': Books, call: Call, other: CommitmentId) {
    && (!call.Slash? ==> b'.overshoot == b.overshoot && LastSlashing(b', other) == LastSlashing(b, other))
    && (!call.Distribute? ==> b'.excess == b.excess && b'.distributed == b.distributed)
    && (!call.Pass? ==> b'.epoch == b.epoch)
    && (!Moves(call) ==> b'.again == b.again)
    && (!call.Distribute? && !PaysCommitter(call) ==> CommitterAccrued(b', other) == CommitterAccrued(b, other))
  }

  predicate PaysCommitter(call: Call) {
    call.WithdrawCommitter? || call.End?
  }

  lemma {:induction false} DelegatorStepKeeps(cfg: Config, ids: Owners, b: Books, call: Call, env: Env,
                                              other: CommitmentId)
    requires cfg.Valid() && Succeeds(cfg, ids, b, call, env)
    requires SlashesDelegator(call)
    ensures Kept(b, Next(cfg, ids, b, call, env), call, other)
  {
    hide Get, Rebalanced, Cooled, OwnStake, Unlocked, AfterApplySlash, CanApplySlash, CooldownOver;
    DelegatorSlashKeeps(cfg, ids, b, call.who, call.cid, env, other);
    if call.Cool? {
      SlashKeepsEntry(cfg, ids, b, call.who, call.cid, env);
    }
  }

  lemma {:induction false} JoinStepKeeps(cfg: Config, ids: Owners, b: Books, call: Call, env: Env,
                                         other: CommitmentId)
    requires cfg.Valid() && Succeeds(cfg, ids, b, call, env)
    requires Moves(call) || call.Delegate? || call.Accrue?
    ensures Kept(b, Next(cfg, ids, b, call, env), call, other)
  {
    hide Get, Rebalanced, AccruedIn, Joined, OwnStake, Unlocked, AfterMove, CanMove;
    if Moves(call) {
      MovingKeeps(cfg, ids, b, call, env, other);
    }
  }

  lemma {:induction false} CommitterStepKeeps(cfg: Config, ids: Owners, b: Books, call: Call, env: Env,
                                              other: CommitmentId)
    requires cfg.Valid() && Succeeds(cfg, ids, b, call, env)
    requires !SlashesDelegator(call) && !Moves(call) && !call.Delegate? && !call.Accrue? && !Pooled(call)
    ensures Kept(b, Next(cfg, ids, b, call, env), call, other)
  {
    hide Get, Weight, SelfWeighed, MulFloor, OwnStake, Unlocked, AfterMove, CanMove, AfterSlash, CanSlash,
         AfterDistribute, AfterApplySlash, CanApplySlash;
  }

  predicate Pooled(call: Call) {
    call.Slash? || call.Distribute?
  }

  lemma {:induction false} DistributeNext(cfg: Config, ids: Owners, b: Books, call: Call, env: Env)
    requires cfg.Valid() && call.Distribute? && Staked(b, call.cid)
    ensures Next(cfg, ids, b, call, env)
         == AfterDistribute(b, call.cid, call.selfAmount, call.reward,
                            WeightsAt(b.commitments[call.cid], call.lastEpoch).delegReward)
  {
    hide AfterDistribute, WeightsAt;
  }

  lemma {:induction false} DistributeLedgers(b: Books, cid: CommitmentId, selfAmount: nat, reward: nat, divisor: nat,
                                             other: CommitmentId)
    requires Staked(b, cid)
    ensures var b' := AfterDistribute(b, cid, selfAmount, reward, divisor);
      && b'.overshoot == b.overshoot && b'.epoch == b.epoch && b'.again == b.again
      && LastSlashing(b', other) == LastSlashing(b, other)
  {
    hide Get, Raise, RaisedBoth;
  }

  lemma {:induction false} SlashNext(cfg: Config, ids: Owners, b: Books, call: Call, env: Env)
    requires cfg.Valid() && call.Slash? && Succeeds(cfg, ids, b, call, env)
    ensures CanSlash(ids, b, call.who, call.ps, call.base, env)
    ensures Next(cfg, ids, b, call, env) == AfterSlash(cfg, ids, b, call.who, call.ps, call.base, env)
  {
    hide AfterSlash, CanSlash;
  }

  lemma {:induction false} StakeSlashLedgers(cfg: Config, b: Books, who: Account, cid: CommitmentId, decrease: nat,
                                             other: CommitmentId)
    requires cfg.Valid() && Staked(b, cid) && decrease <= b.totalStake
    ensures var b' := AfterCommitterSlash(cfg, b, who, cid, decrease);
      && b'.excess == b.excess && b'.distributed == b.distributed && b'.epoch == b.epoch && b'.again == b.again
      && CommitterAccrued(b', other) == CommitterAccrued(b, other) && Staked(b', cid)
  {
    hide Get, Weight, MulFloor;
  }

  lemma {:induction false} PoolSlashLedgers(b: Books, cid: CommitmentId, increase: nat, lastEpoch: nat,
                                            other: CommitmentId)
    requires Staked(b, cid)
    ensures var b' := AfterPoolSlash(b, cid, increase, lastEpoch);
      && b'.excess == b.excess && b'.distributed == b.distributed && b'.epoch == b.epoch && b'.again == b.again
      && CommitterAccrued(b', other) == CommitterAccrued(b, other)
  {
    hide RaisedBoth;
  }

  lemma {:induction false} SlashLedgers(cfg: Config, ids: Owners, b: Books, who: Account, ps: Reports, base: nat,
                                        env: Env, other: CommitmentId)
    requires cfg.Valid() && CanSlash(ids, b, who, ps, base, env)
    ensures var b' := AfterSlash(cfg, ids, b, who, ps, base, env);
      && b'.excess == b.excess && b'.distributed == b.distributed && b'.epoch == b.epoch && b'.again == b.again
      && CommitterAccrued(b', other) == CommitterAccrued(b, other)
  {
    hide AfterCommitterSlash, AfterPoolSlash, CommitterAccrued, SlashSplit, SlashBites;
    var cid := ids[who];
    if SlashBites(b, cid) {
      var sh := SlashSplit(b, cid, ps, base);
      var b1 := b;
      if sh.self != 0 {
        StakeSlashLedgers(cfg, b, who, cid, sh.self, other);
        b1 := AfterCommitterSlash(cfg, b, who, cid, sh.self);
      }
      PoolSlashLedgers(b1, cid, sh.increase, b.epoch - 1, other);
    }
  }

  lemma {:induction false} PoolStepKeeps(cfg: Config, ids: Owners, b: Books, call: Call, env: Env, other: CommitmentId)
    requires cfg.Valid() && Succeeds(cfg, ids, b, call, env) && Pooled(call)
    ensures Kept(b, Next(cfg, ids, b, call, env), call, other)
  {
    if call.Slash? {
      SlashNext(cfg, ids, b, call, env);
      SlashLedgers(cfg, ids, b, call.who, call.ps, call.base, env, other);
    } else {
      DistributeNext(cfg, ids, b, call, env);
      DistributeLedgers(b, call.cid, call.selfAmount, call.reward,
                        WeightsAt(b.commitments[call.cid], call.lastEpoch).delegReward, other);
    }
    hide Next, Succeeds, AfterSlash, CanSlash, AfterDistribute, WeightsAt, LastSlashing, CommitterAccrued;
  }

  lemma {:induction false} StepKeeps(cfg: Config, ids: Owners, b: Books, call: Call, env: Env, other: CommitmentId)
    requires cfg.Valid()
    ensures Kept(b, Next(cfg, ids, b, call, env), call, other)
  {
    if Succeeds(cfg, ids, b, call, env) {
      hide Succeeds, Next, Kept;
      if SlashesDelegator(call) {
        DelegatorStepKeeps(cfg, ids, b, call, env, other);
      } else if Moves(call) || call.Delegate? || call.Accrue? {
        JoinStepKeeps(cfg, ids, b, call, env, other);
      } else if Pooled(call) {
        PoolStepKeeps(cfg, ids, b, call, env, other);
      } else {
        CommitterStepKeeps(cfg, ids, b, call, env, other);
      }
    }
  }

  // ----- slashes beyond the stake -----

  /** The call takes no more from a committer than its stake. */
  predicate WithinStake(ids: Owners, b: Books, call: Call) {
    call.Slash? && call.who in ids && Staked(b, ids[call.who]) && b.epoch > 0 && SlashBites(b, ids[call.who]) ==>
      SlashSplit(b, ids[call.who], call.ps, call.base).self <= b.commitments[ids[call.who]].stake.value.amount
  }

  /** Every successful committer slash of the run is within the stake. */
  predicate AllWithinStake(cfg: Config, ids: Owners, b: Books, calls: seq<(Call, Env)>)
    requires cfg.Valid()
    decreases |calls|
  {
    calls != [] ==>
    && (Succeeds(cfg, ids, b, calls[0].0, calls[0].1) ==> WithinStake(ids, b, calls[0].0))
    && AllWithinStake(cfg, ids, Next(cfg, ids, b, calls[0].0, calls[0].1), calls[1..])
  }

  lemma {:induction false} SlashOvershoots(cfg: Config, ids: Owners, b: Books, call: Call, env: Env)
    requires cfg.Valid() && call.Slash?
    ensures var b' := Next(cfg, ids, b, call, env);
      && b.overshoot <= b'.overshoot
      && (b.overshoot == b'.overshoot <==> Succeeds(cfg, ids, b, call, env) ==> WithinStake(ids, b, call))
  {
    if Succeeds(cfg, ids, b, call, env) {
      SlashNext(cfg, ids, b, call, env);
      OvershootOf(cfg, ids, b, call, env);
    }
    hide Next, Succeeds, AfterSlash, CanSlash, WithinStake;
  }

  lemma {:induction false} OvershootOf(cfg: Config, ids: Owners, b: Books, call: Call, env: Env)
    requires cfg.Valid() && call.Slash? && CanSlash(ids, b, call.who, call.ps, call.base, env)
    ensures var b' := AfterSlash(cfg, ids, b, call.who, call.ps, call.base, env);
      b.overshoot <= b'.overshoot && (b.overshoot == b'.overshoot <==> WithinStake(ids, b, call))
  {
    hide Get, Weight, SelfWeighed, MulFloor, Shares, SlashDemand, RaisedBoth, SlashBites, WeightsAt;
  }

  lemma {:induction false} OvershootStep(cfg: Config, ids: Owners, b: Books, call: Call, env: Env)
    requires cfg.Valid()
    ensures var b' := Next(cfg, ids, b, call, env);
      && b.overshoot <= b'.overshoot
      && (b.overshoot == b'.overshoot <==> Succeeds(cfg, ids, b, call, env) ==> WithinStake(ids, b, call))
  {
    StepKeeps(cfg, ids, b, call, env, 0);
    if call.Slash? {
      SlashOvershoots(cfg, ids, b, call, env);
    }
    hide Next, Succeeds;
  }

  lemma {:induction false} OvershootRun(cfg: Config, ids: Owners, b: Books, calls: seq<(Call, Env)>)
    requires cfg.Valid()
    ensures b.overshoot <= Run(cfg, ids, b, calls).overshoot
    ensures b.overshoot == Run(cfg, ids, b, calls).overshoot <==> AllWithinStake(cfg, ids, b, calls)
    decreases |calls|
  {
    hide Next, Succeeds, WithinStake;
    if calls != [] {
      OvershootStep(cfg, ids, b, calls[0].0, calls[0].1);
      OvershootRun(cfg, ids, Next(cfg, ids, b, calls[0].0, calls[0].1), calls[1..]);
    }
  }

  /** The recorded total stake is the sum of all stakes exactly when no slash went beyond its stake. */
  lemma {:induction false} TotalStakeExact(cfg: Config, ids: Owners, calls: seq<(Call, Env)>)
    requires cfg.Valid() && Distinct(ids)
    ensures var b := Run(cfg, ids, NO_BOOKS, calls);
      b.totalStake == StakeSum(b.commitments) + Sum(b.delegations, AnyAmount)
      <==> AllWithinStake(cfg, ids, NO_BOOKS, calls)
  {
    hide Run, AllWithinStake, Sum, StakeSum;
    RecordsAgree(cfg, ids, calls, 0, 0);
    OvershootRun(cfg, ids, NO_BOOKS, calls);
  }

  // ----- solvency -----

  /** If the call distributes to `cid`, the raise on today's weights is within the delegators' reward. */
  predicate Covered(b: Books, call: Call, cid: CommitmentId) {
    call.Distribute? && call.cid == cid && Staked(b, cid) ==>
      var c := b.commitments[cid];
      c.weights.value.delegReward * Raise(call.reward, WeightsAt(c, call.lastEpoch).delegReward)
      <= PER_TOKEN * call.reward
  }

  /** Every distribution of the run to `cid` is covered. */
  predicate AllCovered(cfg: Config, ids: Owners, b: Books, calls: seq<(Call, Env)>, cid: CommitmentId)
    requires cfg.Valid()
    decreases |calls|
  {
    calls != [] ==>
    && Covered(b, calls[0].0, cid)
    && AllCovered(cfg, ids, Next(cfg, ids, b, calls[0].0, calls[0].1), calls[1..], cid)
  }

  lemma {:induction false} ExcessOfDistribution(b: Books, call: Call, cid: CommitmentId)
    requires call.Distribute? && Staked(b, call.cid)
    ensures var divisor := WeightsAt(b.commitments[call.cid], call.lastEpoch).delegReward;
      var b' := AfterDistribute(b, call.cid, call.selfAmount, call.reward, divisor);
      && Get(b.excess, cid) <= Get(b'.excess, cid)
      && (Get(b.excess, cid) == Get(b'.excess, cid) <==> Covered(b, call, cid))
  {
    hide Raise, WeightsAt;
  }

  lemma {:induction false} ExcessStep(cfg: Config, ids: Owners, b: Books, call: Call, env: Env, cid: CommitmentId)
    requires cfg.Valid()
    ensures var b' := Next(cfg, ids, b, call, env);
      && Get(b.excess, cid) <= Get(b'.excess, cid)
      && (Get(b.excess, cid) == Get(b'.excess, cid) <==> Covered(b, call, cid))
  {
    hide Get, WeightsAt, Raise, AfterDistribute;
    StepKeeps(cfg, ids, b, call, env, 0);
    if call.Distribute? && Staked(b, call.cid) {
      ExcessOfDistribution(b, call, cid);
      DistributeNext(cfg, ids, b, call, env);
    }
    hide Next;
  }

  /** A pool's excess never shrinks, and stays what it was exactly when every distribution to it is covered. */
  lemma {:induction false} ExcessRun(cfg: Config, ids: Owners, b: Books, calls: seq<(Call, Env)>, cid: CommitmentId)
    requires cfg.Valid()
    ensures Get(b.excess, cid) <= Get(Run(cfg, ids, b, calls).excess, cid)
    ensures Get(b.excess, cid) == Get(Run(cfg, ids, b, calls).excess, cid) <==> AllCovered(cfg, ids, b, calls, cid)
    decreases |calls|
  {
    hide Next, Covered, Get;
    if calls != [] {
      ExcessStep(cfg, ids, b, calls[0].0, calls[0].1, cid);
      ExcessRun(cfg, ids, Next(cfg, ids, b, calls[0].0, calls[0].1), calls[1..], cid);
    }
  }

  // ----- rewards transferred twice -----

  /** What a call that moves a delegation out of a pool transfers a second time. */
  function AgainDue(cfg: Config, ids: Owners, b: Books, call: Call, env: Env, cid: CommitmentId): nat
    requires cfg.Valid()
  {
    if Moves(call) && call.cid == cid && CanApplySlash(ids, b, call.who, cid, env)
    then RewardDue(cfg, ids, b, call.who, cid, env) else 0
  }

  /** Every delegation that a successful call of the run moves out of `cid` has no reward due. */
  predicate AllPaidOnce(cfg: Config, ids: Owners, b: Books, calls: seq<(Call, Env)>, cid: CommitmentId)
    requires cfg.Valid()
    decreases |calls|
  {
    calls != [] ==>
    && (Succeeds(cfg, ids, b, calls[0].0, calls[0].1) ==> AgainDue(cfg, ids, b, calls[0].0, calls[0].1, cid) == 0)
    && AllPaidOnce(cfg, ids, Next(cfg, ids, b, calls[0].0, calls[0].1), calls[1..], cid)
  }

  lemma {:induction false} AgainStep(cfg: Config, ids: Owners, b: Books, call: Call, env: Env, cid: CommitmentId)
    requires cfg.Valid()
    ensures Get(Next(cfg, ids, b, call, env).again, cid)
         == Get(b.again, cid) + if Succeeds(cfg, ids, b, call, env) then AgainDue(cfg, ids, b, call, env, cid) else 0
  {
    StepKeeps(cfg, ids, b, call, env, 0);
    if Succeeds(cfg, ids, b, call, env) {
      if Moves(call) {
        MovingKeeps(cfg, ids, b, call, env, 0);
      }
    } else {
      assert Next(cfg, ids, b, call, env) == b;
    }
    hide Next, Succeeds, RewardDue, CanApplySlash;
  }

  /** What a pool paid again never shrinks, and stays what it was exactly when nothing was due at each move. */
  lemma {:induction false} AgainRun(cfg: Config, ids: Owners, b: Books, calls: seq<(Call, Env)>, cid: CommitmentId)
    requires cfg.Valid()
    ensures Get(b.again, cid) <= Get(Run(cfg, ids, b, calls).again, cid)
    ensures Get(b.again, cid) == Get(Run(cfg, ids, b, calls).again, cid) <==> AllPaidOnce(cfg, ids, b, calls, cid)
    decreases |calls|
  {
    hide Next, Succeeds, AgainDue, Get;
    if calls != [] {
      AgainStep(cfg, ids, b, calls[0].0, calls[0].1, cid);
      AgainRun(cfg, ids, Next(cfg, ids, b, calls[0].0, calls[0].1), calls[1..], cid);
    }
  }

  /** The delegation has nothing to accrue. */
  predicate Idle(d: Delegation, pool: Memory<PoolReward>) {
    var p := pool.GetLatest(d.stake.created);
    p.Some? ==> FloorShare(d.rewardWeight, p.value.rewardPerWeight) <= d.rewardDebt
  }

  lemma {:induction false} AccruedIdle(d: Delegation, pool: Memory<PoolReward>)
    ensures Idle(AccruedIn(d, pool), pool)
    ensures Idle(d, pool) ==> AccruedIn(d, pool).stake.accruedReward == d.stake.accruedReward
  {
    var p := pool.GetLatest(d.stake.created);
    if p.Some? {
      ShareBounds(d.rewardWeight, p.value.rewardPerWeight);
    }
    hide FloorShare, CeilShare;
  }

  lemma {:induction false} ShrunkIdle(cfg: Config, d: Delegation, c: Commitment, amount: nat, block: nat, epoch: nat)
    requires cfg.Valid() && Idle(d, c.pool) && CommitmentOk(cfg, c, block, epoch)
    ensures Idle(Shrunk(cfg, d, c, amount), c.pool)
    ensures Shrunk(cfg, d, c, amount).stake.accruedReward == d.stake.accruedReward
  {
    hide Weight, MulFloor, StakeOk;
    var d' := Shrunk(cfg, d, c, amount);
    ShareBounds(d'.rewardWeight, c.pool.value.rewardPerWeight);
    hide FloorShare, CeilShare;
  }

  /** Applying a slash leaves a delegation with nothing to accrue, and adds to its reward only what it could. */
  lemma {:induction false} SlashedIdle(cfg: Config, ids: Owners, b: Books, who: Account, cid: CommitmentId, env: Env)
    requires Sound(cfg, ids, b) && cfg.Valid() && CanApplySlash(ids, b, who, cid, env)
    ensures Delegates(b, who, cid) && Delegates(AfterApplySlash(cfg, ids, b, who, cid, env), who, cid)
    ensures var b' := AfterApplySlash(cfg, ids, b, who, cid, env);
      && b'.commitments[cid].pool == b.commitments[cid].pool
      && Idle(b'.delegations[(who, cid)], b.commitments[cid].pool)
      && (Idle(b.delegations[(who, cid)], b.commitments[cid].pool) ==>
            b'.delegations[(who, cid)].stake.accruedReward == b.delegations[(who, cid)].stake.accruedReward)
  {
    hide Sound, Get, Idle, AccruedIn, Shrunk, CommitmentOk, AfterShrink, AfterAccrue;
    PoolFacts(cfg, ids, b, cid);
    AccrueEntry(b, who, cid);
    var d, c, b1, due := b.delegations[(who, cid)], b.commitments[cid], AfterAccrue(b, who, cid), SlashDue(b, who, cid);
    AccruedIdle(d, c.pool);
    if due != 0 {
      ShrinkEntry(cfg, ids, b1, who, cid, due);
      var d1, left := AccruedIn(d, c.pool), Shrinkage(b1, who, cid, due);
      ShrunkIdle(cfg, d1, c, d1.stake.amount - left, b.block, b.epoch);
      RemainderIdle(Shrunk(cfg, d1, c, d1.stake.amount - left), c.pool, due - left);
    }
  }

  lemma {:induction false} PoolFacts(cfg: Config, ids: Owners, b: Books, cid: CommitmentId)
    requires Sound(cfg, ids, b) && cid in b.commitments
    ensures CommitmentOk(cfg, b.commitments[cid], b.block, b.epoch)
  {
  }

  lemma {:induction false} AccrueEntry(b: Books, who: Account, cid: CommitmentId)
    requires Delegates(b, who, cid)
    ensures var b' := AfterAccrue(b, who, cid);
      && Delegates(b', who, cid) && b'.commitments == b.commitments
      && b'.delegations[(who, cid)] == AccruedIn(b.delegations[(who, cid)], b.commitments[cid].pool)
  {
    hide AccruedIn;
  }

  lemma {:induction false} ShrinkEntry(cfg: Config, ids: Owners, b: Books, who: Account, cid: CommitmentId, target: nat)
    requires cfg.Valid() && Delegates(b, who, cid) && Shrinkage(b, who, cid, target) <= b.totalStake
    ensures var b', d := AfterShrink(cfg, ids, b, who, cid, target), b.delegations[(who, cid)];
      && Delegates(b', who, cid) && b'.commitments[cid].pool == b.commitments[cid].pool
      && b'.delegations[(who, cid)]
         == Shrunk(cfg, d, b.commitments[cid], d.stake.amount - Shrinkage(b, who, cid, target))
  {
    hide Shrunk, Rebalanced, Get, OwnStake;
  }

  lemma {:induction false} RemainderIdle(d: Delegation, pool: Memory<PoolReward>, remaining: nat)
    ensures Idle(d.(stake := d.stake.(accruedSlash := remaining)), pool) <==> Idle(d, pool)
  {
    hide FloorShare;
  }

  lemma {:induction false} PaidIdle(d: Delegation, pool: Memory<PoolReward>, paid: nat)
    ensures Idle(d.(stake := d.stake.(accruedReward := 0, paid := paid)), pool) <==> Idle(d, pool)
  {
    hide FloorShare;
  }

  /** Right after a withdrawal nothing is due, so compounding transfers nothing twice. */
  lemma {:induction false} NothingDueAfterWithdrawal(cfg: Config, ids: Owners, b: Books, who: Account,
                                                     cid: CommitmentId, env: Env, later: Env)
    requires Sound(cfg, ids, b) && cfg.Valid() && CanWithdraw(cfg, ids, b, who, cid, env)
    requires CanApplySlash(ids, AfterWithdraw(cfg, ids, b, who, cid, env), who, cid, later)
    ensures RewardDue(cfg, ids, AfterWithdraw(cfg, ids, b, who, cid, env), who, cid, later) == 0
  {
    WithdrawSound(cfg, ids, b, who, cid, env);
    hide Sound, Get, CanApplySlash, AfterApplySlash, Idle;
    SlashedIdle(cfg, ids, b, who, cid, env);
    var d := AfterApplySlash(cfg, ids, b, who, cid, env).delegations[(who, cid)];
    PaidIdle(d, b.commitments[cid].pool, d.stake.paid + d.stake.accruedReward);
    SlashedIdle(cfg, ids, AfterWithdraw(cfg, ids, b, who, cid, env), who, cid, later);
  }

  /**
   * Delegators' rewards paid, accrued and pending, with those paid again, never exceed what was
   * distributed to their pool, over every run in which each distribution to it is covered and no
   * delegation is moved out of it with a reward due.
   */
  lemma {:induction false} PoolSolvency(cfg: Config, ids: Owners, calls: seq<(Call, Env)>, cid: CommitmentId)
    requires cfg.Valid() && Distinct(ids)
    requires AllCovered(cfg, ids, NO_BOOKS, calls, cid) && AllPaidOnce(cfg, ids, NO_BOOKS, calls, cid)
    ensures var b := Run(cfg, ids, NO_BOOKS, calls);
      cid in b.commitments ==>
        PER_TOKEN * (Get(b.paid, cid) + Get(b.again, cid) + Sum(b.delegations, Accrued(cid)))
        + Sum(b.delegations, Pending(cid, b.commitments[cid].pool))
        <= PER_TOKEN * Get(b.distributed, cid)
  {
    hide Run, AllCovered, AllPaidOnce, Sum;
    EmptySound(cfg, ids);
    RunSound(cfg, ids, NO_BOOKS, calls);
    ExcessRun(cfg, ids, NO_BOOKS, calls, cid);
    AgainRun(cfg, ids, NO_BOOKS, calls, cid);
    var b := Run(cfg, ids, NO_BOOKS, calls);
    assert AllSolvent(b);
  }

  /**
   * A distribution is covered if no weight was recorded since the epoch it is for, if the weight of
   * that epoch is at least today's, and if there was no weight or there is no reward for delegators.
   */
  lemma {:induction false} CoveredWhen(b: Books, call: Call)
    requires call.Distribute? && Staked(b, call.cid)
    requires var c := b.commitments[call.cid];
      var divisor := WeightsAt(c, call.lastEpoch).delegReward;
      c.weights.time <= call.lastEpoch || c.weights.value.delegReward <= divisor || divisor == 0 || call.reward == 0
    ensures Covered(b, call, call.cid)
  {
    hide PerWeight;
    var c := b.commitments[call.cid];
    var divisor := WeightsAt(c, call.lastEpoch).delegReward;
    if divisor > 0 && call.reward > 0 {
      DivisorCovers(c.weights.value.delegReward, divisor, call.reward);
    }
  }

  // ----- epochs charged by slashing -----

  /** The epochs one call charges to a pool of a commitment. */
  function ChargedBy(cfg: Config, ids: Owners, b: Books, call: Call, env: Env, cid: CommitmentId, pool: PoolId): nat
    requires cfg.Valid()
  {
    if call.Slash? && Succeeds(cfg, ids, b, call, env) && ids[call.who] == cid && SlashBites(b, cid)
    then EpochsCharged(call.ps, pool, b.epoch - 1, LastSlashing(b, cid))
    else 0
  }

  function ChargedOver(cfg: Config, ids: Owners, b: Books, calls: seq<(Call, Env)>, cid: CommitmentId,
                       pool: PoolId): nat
    requires cfg.Valid()
    decreases |calls|
  {
    if calls == [] then 0
    else
      ChargedBy(cfg, ids, b, calls[0].0, calls[0].1, cid, pool)
      + ChargedOver(cfg, ids, Next(cfg, ids, b, calls[0].0, calls[0].1), calls[1..], cid, pool)
  }

  lemma {:induction false} SlashDates(cfg: Config, ids: Owners, b: Books, call: Call, env: Env, cid: CommitmentId)
    requires cfg.Valid() && call.Slash? && Succeeds(cfg, ids, b, call, env)
    ensures LastSlashing(Next(cfg, ids, b, call, env), cid)
         == if ids[call.who] == cid && SlashBites(b, cid) then b.epoch - 1 else LastSlashing(b, cid)
  {
    hide Get, Weight, MulFloor, SelfWeighed, OwnStake, Shares, SlashDemand, WeightsAt, RaisedBoth;
  }

  lemma {:induction false} ChargeStep(cfg: Config, ids: Owners, b: Books, call: Call, env: Env, cid: CommitmentId,
                                      pool: PoolId)
    requires cfg.Valid()
    ensures LastSlashing(b, cid) + ChargedBy(cfg, ids, b, call, env, cid, pool)
         <= LastSlashing(Next(cfg, ids, b, call, env), cid)
  {
    StepKeeps(cfg, ids, b, call, env, cid);
    if call.Slash? && Succeeds(cfg, ids, b, call, env) {
      SlashDates(cfg, ids, b, call, env, cid);
      ChargeBound(call.ps, pool, b.epoch - 1, b.commitments[ids[call.who]].lastSlashing);
    }
    hide Next, SlashBites, SlashDemand, EpochsCharged, OnePerPool, SlashSplit;
  }

  /** No epoch is charged twice: a pool is charged at most the epochs between the first and the last slash. */
  lemma {:induction false} NoEpochChargedTwice(cfg: Config, ids: Owners, b: Books, calls: seq<(Call, Env)>,
                                               cid: CommitmentId, pool: PoolId)
    requires cfg.Valid()
    ensures LastSlashing(b, cid) + ChargedOver(cfg, ids, b, calls, cid, pool)
         <= LastSlashing(Run(cfg, ids, b, calls), cid)
    decreases |calls|
  {
    hide Next, ChargedBy, LastSlashing;
    if calls != [] {
      ChargeStep(cfg, ids, b, calls[0].0, calls[0].1, cid, pool);
      NoEpochChargedTwice(cfg, ids, Next(cfg, ids, b, calls[0].0, calls[0].1), calls[1..], cid, pool);
    }
  }
}
