/** When staking operations succeed, whole runs of them, and what holds after every run. */
module StakingRuns {
  import opened Wrappers
  import opened StakingBase
  import opened StakingBooks
  import opened StakingEffects
  import opened Slashing

  /**
   * The caller's total balance, whether funds can be burnt and rewards transferred, whether the
   * checks on delegation ratio and overstaking pass, and whether the commission may rise.
   */
  datatype Env = Env(balance: nat, slashable: bool, payable: bool, admitted: bool, mayRaise: bool)

  const NO_BOOKS := Books(map[], map[], map[], 0, map[], 0, 0, map[], map[], map[], map[], 0)

  lemma {:induction false} EmptySound(cfg: Config, ids: Owners)
    requires cfg.Valid() && Distinct(ids)
    ensures Sound(cfg, ids, NO_BOOKS)
  {
  }

  lemma {:induction false} SoundConfig(cfg: Config, ids: Owners, b: Books)
    requires Sound(cfg, ids, b)
    ensures cfg.Valid() && Distinct(ids)
  {
  }

  // ----- committers -----

  predicate CanStake(cfg: Config, ids: Owners, b: Books, who: Account, amount: nat, period: nat, env: Env) {
    && amount != 0 && cfg.minStake <= amount && cfg.minPeriod <= period <= cfg.maxPeriod
    && who in ids && Get(b.delegatorTotal, who) + amount <= env.balance
    && (ids[who] in b.commitments ==> b.commitments[ids[who]].stake.None?)
  }

  predicate CanStakeMore(ids: Owners, b: Books, who: Account, extra: nat, period: Option<nat>, commission: Option<nat>,
                         env: Env) {
    && who in ids && Staked(b, ids[who])
    && var c := b.commitments[ids[who]];
    && c.stake.value.cooldown.None?
    && (extra != 0 ==> Get(b.delegatorTotal, who) + c.stake.value.amount + extra <= env.balance && env.admitted)
    && (period.Some? ==> c.stake.value.period <= period.value)
    && (commission.Some? && c.commission < commission.value ==> env.mayRaise)
  }

  predicate CanCoolCommitter(ids: Owners, b: Books, who: Account) {
    who in ids && Staked(b, ids[who]) && b.commitments[ids[who]].stake.value.cooldown.None?
  }

  predicate CanWithdrawCommitter(ids: Owners, b: Books, who: Account, env: Env) {
    && who in ids && Staked(b, ids[who])
    && (b.commitments[ids[who]].stake.value.accruedReward != 0 ==> env.payable)
  }

  predicate CanEnd(ids: Owners, b: Books, who: Account, env: Env) {
    && CanWithdrawCommitter(ids, b, who, env)
    && var s := b.commitments[ids[who]].stake.value;
    && s.cooldown.Some? && s.cooldown.value + s.period <= b.block && s.amount <= b.totalStake
  }

  predicate CanSlashCommitter(b: Books, who: Account, cid: CommitmentId, decrease: nat, env: Env) {
    && Staked(b, cid) && decrease <= b.totalStake
    && Get(b.delegatorTotal, who) + Minus(b.commitments[cid].stake.value.amount, decrease) <= env.balance
  }

  // ----- delegators -----

  predicate CanDelegate(cfg: Config, ids: Owners, b: Books, who: Account, cid: CommitmentId, amount: nat, period: nat,
                        env: Env) {
    && amount != 0 && cfg.minDelegation <= amount && cfg.minPeriod <= period <= cfg.maxPeriod
    && Staked(b, cid) && period <= b.commitments[cid].stake.value.period
      && b.commitments[cid].stake.value.cooldown.None?
    && Get(b.delegatorTotal, who) + OwnStake(ids, b.commitments, who) + amount <= env.balance
    && (who, cid) !in b.delegations && env.admitted
  }

  predicate CanShrink(ids: Owners, b: Books, who: Account, cid: CommitmentId, target: nat, env: Env) {
    && Delegates(b, who, cid)
    && var cut := Shrinkage(b, who, cid, target);
    && cut <= b.totalStake
    && Minus(Get(b.delegatorTotal, who), cut) + OwnStake(ids, b.commitments, who) <= env.balance
  }

  function SlashDue(b: Books, who: Account, cid: CommitmentId): nat
    requires Delegates(b, who, cid)
  {
    AfterAccrue(b, who, cid).delegations[(who, cid)].stake.accruedSlash
  }

  predicate CanApplySlash(ids: Owners, b: Books, who: Account, cid: CommitmentId, env: Env) {
    && Delegates(b, who, cid)
    && var due := SlashDue(b, who, cid);
    due != 0 ==>
      && CanShrink(ids, AfterAccrue(b, who, cid), who, cid, due, env)
      && (Shrinkage(b, who, cid, due) != 0 ==> env.slashable)
  }

  function AfterApplySlash(cfg: Config, ids: Owners, b: Books, who: Account, cid: CommitmentId, env: Env): Books
    requires cfg.Valid() && CanApplySlash(ids, b, who, cid, env)
  {
    var b1, due := AfterAccrue(b, who, cid), SlashDue(b, who, cid);
    if due == 0 then b1
    else
      AfterRemainder(AfterShrink(cfg, ids, b1, who, cid, due), who, cid, due - Shrinkage(b1, who, cid, due))
  }

  /** A slash is taken in full, or takes the whole stake. */
  lemma {:induction false} SlashTaken(cfg: Config, ids: Owners, b: Books, who: Account, cid: CommitmentId, env: Env)
    requires cfg.Valid() && CanApplySlash(ids, b, who, cid, env)
    ensures Delegates(AfterApplySlash(cfg, ids, b, who, cid, env), who, cid)
    ensures var s := AfterApplySlash(cfg, ids, b, who, cid, env).delegations[(who, cid)].stake;
      s.accruedSlash == 0 || s.amount == 0
  {
  }

  function RewardDue(cfg: Config, ids: Owners, b: Books, who: Account, cid: CommitmentId, env: Env): nat
    requires cfg.Valid() && CanApplySlash(ids, b, who, cid, env)
  {
    SlashTaken(cfg, ids, b, who, cid, env);
    AfterApplySlash(cfg, ids, b, who, cid, env).delegations[(who, cid)].stake.accruedReward
  }

  predicate CanWithdraw(cfg: Config, ids: Owners, b: Books, who: Account, cid: CommitmentId, env: Env)
    requires cfg.Valid()
  {
    CanApplySlash(ids, b, who, cid, env) && (RewardDue(cfg, ids, b, who, cid, env) != 0 ==> env.payable)
  }

  function AfterWithdraw(cfg: Config, ids: Owners, b: Books, who: Account, cid: CommitmentId, env: Env): Books
    requires cfg.Valid() && CanWithdraw(cfg, ids, b, who, cid, env)
  {
    SlashTaken(cfg, ids, b, who, cid, env);
    AfterPayout(AfterApplySlash(cfg, ids, b, who, cid, env), who, cid)
  }

  predicate CanCool(cfg: Config, ids: Owners, b: Books, who: Account, cid: CommitmentId, env: Env) {
    && CanApplySlash(ids, b, who, cid, env) && Staked(b, cid)
    && b.delegations[(who, cid)].stake.cooldown.None? && Live(b.delegations[(who, cid)], b.commitments[cid])
  }

  /** The cooldown a delegation has to wait for: its own or the committer's, whichever began first. */
  predicate CooldownOver(d: Delegation, c: Commitment, block: nat) {
    Live(d, c) ==>
      match (c.stake.value.cooldown, d.stake.cooldown)
      case (Some(x), Some(y)) => (if x < y then x else y) + d.stake.period <= block
      case (Some(x), None) => x + d.stake.period <= block
      case (None, Some(y)) => y + d.stake.period <= block
      case (None, None) => false
  }

  predicate CanLeave(cfg: Config, ids: Owners, b: Books, who: Account, cid: CommitmentId, checkCooldown: bool,
                     kickout: bool, env: Env)
    requires cfg.Valid()
  {
    && CanWithdraw(cfg, ids, b, who, cid, env)
    && var b1 := AfterWithdraw(cfg, ids, b, who, cid, env);
    && Delegates(b1, who, cid)
    && var d := b1.delegations[(who, cid)];
    && (checkCooldown ==> CooldownOver(d, b1.commitments[cid], b1.block))
    && (kickout ==> !Live(d, b1.commitments[cid]))
    && d.stake.amount <= b1.totalStake
  }

  // ----- moving a delegation -----

  /** A delegation is ended, without a check of its cooldown, and its stake delegated again. */
  predicate CanMove(cfg: Config, ids: Owners, b: Books, who: Account, cid: CommitmentId, to: CommitmentId, amount: nat,
                    period: nat, env: Env, rejoin: Env)
    requires cfg.Valid()
  {
    && CanLeave(cfg, ids, b, who, cid, false, false, env)
    && (RewardDue(cfg, ids, b, who, cid, env) != 0 ==> rejoin.payable)
    && CanDelegate(cfg, ids, AfterLeave(AfterWithdraw(cfg, ids, b, who, cid, env), who, cid), who, to, amount, period,
                   rejoin)
  }

  /** The reward, which ending the delegation has paid, is transferred again before the stake is delegated. */
  function AfterMove(cfg: Config, ids: Owners, b: Books, who: Account, cid: CommitmentId, to: CommitmentId, amount: nat,
                     period: nat, env: Env, rejoin: Env): Books
    requires cfg.Valid() && CanMove(cfg, ids, b, who, cid, to, amount, period, env, rejoin)
  {
    var left := AfterLeave(AfterWithdraw(cfg, ids, b, who, cid, env), who, cid);
    AfterJoin(cfg, ids, left, who, to, amount, period).(
      again := b.again[cid := Get(b.again, cid) + RewardDue(cfg, ids, b, who, cid, env)])
  }

  /** A live delegation outside its cooldown, for as long as before or longer. */
  predicate MayDelegateMore(b: Books, who: Account, cid: CommitmentId, longer: Option<nat>) {
    && Delegates(b, who, cid)
    && var d, c := b.delegations[(who, cid)], b.commitments[cid];
    d.stake.cooldown.None? && Live(d, c) && (longer.Some? ==> d.stake.period <= longer.value)
  }

  /** What a delegation is renewed with: the amount it had before any slash, and what is added. */
  function MoreAmount(b: Books, who: Account, cid: CommitmentId, extra: nat): nat
    requires Delegates(b, who, cid)
  {
    b.delegations[(who, cid)].stake.amount + extra
  }

  function MorePeriod(b: Books, who: Account, cid: CommitmentId, longer: Option<nat>): nat
    requires Delegates(b, who, cid)
  {
    if longer.Some? then longer.value else b.delegations[(who, cid)].stake.period
  }

  /** A live delegation may move, after some time unless its committer is in cooldown. */
  predicate MayRedelegate(cfg: Config, b: Books, who: Account, cid: CommitmentId, to: CommitmentId) {
    && Delegates(b, who, cid) && (who, to) !in b.delegations
    && var d, c := b.delegations[(who, cid)], b.commitments[cid];
    Live(d, c) && (c.stake.value.cooldown.None? ==> cfg.redelegationBlocks <= Minus(b.block, d.stake.created))
  }

  // ----- slashing a commitment -----

  datatype SlashShares = SlashShares(self: nat, delegations: nat, increase: nat)

  /** A slash split by the slash weights of the last epoch. */
  function Shares(w: Weights, total: nat): SlashShares
    requires w.selfSlash + w.delegSlash > 0
  {
    var product: nat := w.selfSlash * total;
    var self := product / (w.selfSlash + w.delegSlash);
    var rest := Minus(total, self);
    SlashShares(self, rest, if w.delegSlash == 0 || rest == 0 then 0 else PerWeight(rest, w.delegSlash))
  }

  function WeightsAt(c: Commitment, epoch: nat): Weights {
    match c.weights.GetLatest(epoch)
    case Some(w) => w
    case None => NO_WEIGHTS
  }

  function SlashDemand(b: Books, cid: CommitmentId, ps: Reports, base: nat): nat
    requires Staked(b, cid) && b.epoch > 0
  {
    var c := b.commitments[cid];
    SlashTotal(ps, c.stake.value.amount + c.delegTotal, base, b.epoch - 1, c.lastSlashing)
  }

  /** There is weight to take a slash from. */
  predicate SlashBites(b: Books, cid: CommitmentId)
    requires Staked(b, cid) && b.epoch > 0
  {
    var w := WeightsAt(b.commitments[cid], b.epoch - 1);
    w.selfSlash + w.delegSlash > 0
  }

  function SlashSplit(b: Books, cid: CommitmentId, ps: Reports, base: nat): SlashShares
    requires Staked(b, cid) && b.epoch > 0 && SlashBites(b, cid)
  {
    Shares(WeightsAt(b.commitments[cid], b.epoch - 1), SlashDemand(b, cid, ps, base))
  }

  predicate CanSlash(ids: Owners, b: Books, who: Account, ps: Reports, base: nat, env: Env) {
    && who in ids && Staked(b, ids[who]) && b.epoch > 0 && b.commitments[ids[who]].lastSlashing < b.epoch - 1
    && SlashDemand(b, ids[who], ps, base) != 0
    && (SlashBites(b, ids[who]) && SlashSplit(b, ids[who], ps, base).self != 0 ==>
          && CanSlashCommitter(b, who, ids[who], SlashSplit(b, ids[who], ps, base).self, env)
          && env.slashable)
  }

  function AfterSlash(cfg: Config, ids: Owners, b: Books, who: Account, ps: Reports, base: nat, env: Env): Books
    requires cfg.Valid() && CanSlash(ids, b, who, ps, base, env)
  {
    var cid := ids[who];
    if !SlashBites(b, cid) then b
    else
      var sh := SlashSplit(b, cid, ps, base);
      var b1 := if sh.self == 0 then b else AfterCommitterSlash(cfg, b, who, cid, sh.self);
      AfterPoolSlash(b1, cid, sh.increase, b.epoch - 1)
  }

  lemma {:induction false} SlashSound(cfg: Config, ids: Owners, b: Books, who: Account, ps: Reports, base: nat,
                                      env: Env)
    requires Sound(cfg, ids, b) && CanSlash(ids, b, who, ps, base, env)
    ensures Sound(cfg, ids, AfterSlash(cfg, ids, b, who, ps, base, env))
  {
    hide Sound, SlashDemand, Shares, WeightsAt, SlashBites, Get, Weight, MulFloor, AfterPoolSlash;
    SoundConfig(cfg, ids, b);
    var cid := ids[who];
    if SlashBites(b, cid) {
      var sh := SlashSplit(b, cid, ps, base);
      var b1 := b;
      if sh.self != 0 {
        CommitterSlashSound(cfg, ids, b, who, cid, sh.self);
        b1 := AfterCommitterSlash(cfg, b, who, cid, sh.self);
      }
      PoolSlashSound(cfg, ids, b1, cid, sh.increase, b.epoch - 1);
    }
  }

  /** What an operation is called with. */
  datatype Call =
    | Stake(who: Account, amount: nat, period: nat, commission: nat)
    | StakeMore(who: Account, extra: nat, longer: Option<nat>, rate: Option<nat>)
    | CoolCommitter(who: Account)
    | WithdrawCommitter(who: Account)
    | End(who: Account)
    | Slash(who: Account, ps: Reports, base: nat)
    | Distribute(cid: CommitmentId, selfAmount: nat, reward: nat, lastEpoch: nat)
    | Delegate(who: Account, cid: CommitmentId, amount: nat, period: nat)
    | Accrue(who: Account, cid: CommitmentId)
    | ApplySlash(who: Account, cid: CommitmentId)
    | Withdraw(who: Account, cid: CommitmentId)
    | Cool(who: Account, cid: CommitmentId)
    | Leave(who: Account, cid: CommitmentId, kickout: bool)
    | DelegateMore(who: Account, cid: CommitmentId, extra: nat, longer: Option<nat>, rejoin: Env)
    | Redelegate(who: Account, cid: CommitmentId, to: CommitmentId, rejoin: Env)
    | Pass(blocks: nat, epochs: nat)

  predicate Succeeds(cfg: Config, ids: Owners, b: Books, call: Call, env: Env)
    requires cfg.Valid()
  {
    match call
    case Stake(who, amount, period, _) => CanStake(cfg, ids, b, who, amount, period, env)
    case StakeMore(who, extra, longer, rate) => CanStakeMore(ids, b, who, extra, longer, rate, env)
    case CoolCommitter(who) => CanCoolCommitter(ids, b, who)
    case WithdrawCommitter(who) => CanWithdrawCommitter(ids, b, who, env)
    case End(who) => CanEnd(ids, b, who, env)
    case Slash(who, ps, base) => CanSlash(ids, b, who, ps, base, env)
    case Distribute(cid, _, _, _) => Staked(b, cid)
    case Delegate(who, cid, amount, period) => CanDelegate(cfg, ids, b, who, cid, amount, period, env)
    case Accrue(who, cid) => Delegates(b, who, cid)
    case ApplySlash(who, cid) => CanApplySlash(ids, b, who, cid, env)
    case Withdraw(who, cid) => CanWithdraw(cfg, ids, b, who, cid, env)
    case Cool(who, cid) => CanCool(cfg, ids, b, who, cid, env)
    case Leave(who, cid, kickout) => CanLeave(cfg, ids, b, who, cid, true, kickout, env)
    case DelegateMore(who, cid, extra, longer, rejoin) =>
      && MayDelegateMore(b, who, cid, longer)
      && CanMove(cfg, ids, b, who, cid, cid, MoreAmount(b, who, cid, extra), MorePeriod(b, who, cid, longer), env,
                 rejoin)
    case Redelegate(who, cid, to, rejoin) =>
      && MayRedelegate(cfg, b, who, cid, to)
      && CanMove(cfg, ids, b, who, cid, to, MoreAmount(b, who, cid, 0), MorePeriod(b, who, cid, None), env, rejoin)
    case Pass(_, _) => true
  }

  /** Two states agree on the terms of a delegation and of its commitment. */
  predicate SameEntry(b: Books, b': Books, who: Account, cid: CommitmentId)
    requires Delegates(b, who, cid)
  {
    && Delegates(b', who, cid) && b'.commitments[cid].stake == b.commitments[cid].stake && b'.block == b.block
    && b'.delegations[(who, cid)].stake.cooldown == b.delegations[(who, cid)].stake.cooldown
    && b'.delegations[(who, cid)].stake.created == b.delegations[(who, cid)].stake.created
  }

  lemma {:induction false} AccrueKeepsEntry(b: Books, who: Account, cid: CommitmentId)
    requires Delegates(b, who, cid)
    ensures SameEntry(b, AfterAccrue(b, who, cid), who, cid)
  {
  }

  /** Accruing leaves the amount of a delegation and the totals alone. */
  lemma {:induction false} AccruedAmount(b: Books, who: Account, cid: CommitmentId)
    requires Delegates(b, who, cid)
    ensures var b' := AfterAccrue(b, who, cid);
      && Delegates(b', who, cid) && b'.delegations[(who, cid)].stake.amount == b.delegations[(who, cid)].stake.amount
      && b' == b.(delegations := b'.delegations)
  {
  }

  lemma {:induction false} ShrinkKeepsEntry(cfg: Config, ids: Owners, b: Books, who: Account, cid: CommitmentId,
                                            target: nat)
    requires cfg.Valid() && Delegates(b, who, cid) && Shrinkage(b, who, cid, target) <= b.totalStake
    ensures SameEntry(b, AfterShrink(cfg, ids, b, who, cid, target), who, cid)
  {
  }

  lemma {:induction false} SlashKeepsEntry(cfg: Config, ids: Owners, b: Books, who: Account, cid: CommitmentId,
                                           env: Env)
    requires cfg.Valid() && CanApplySlash(ids, b, who, cid, env)
    ensures Delegates(b, who, cid)
    ensures SameEntry(b, AfterApplySlash(cfg, ids, b, who, cid, env), who, cid)
  {
    hide AfterAccrue, AfterShrink, Get;
    AccrueKeepsEntry(b, who, cid);
    if SlashDue(b, who, cid) != 0 {
      ShrinkKeepsEntry(cfg, ids, AfterAccrue(b, who, cid), who, cid, SlashDue(b, who, cid));
    }
  }

  lemma {:induction false} ApplySlashSound(cfg: Config, ids: Owners, b: Books, who: Account, cid: CommitmentId,
                                           env: Env)
    requires Sound(cfg, ids, b) && CanApplySlash(ids, b, who, cid, env)
    ensures Sound(cfg, ids, AfterApplySlash(cfg, ids, b, who, cid, env))
    ensures SameEntry(b, AfterApplySlash(cfg, ids, b, who, cid, env), who, cid)
  {
    hide Sound, AfterAccrue, AfterShrink, AfterRemainder, Get;
    SoundConfig(cfg, ids, b);
    SlashKeepsEntry(cfg, ids, b, who, cid, env);
    AccrueKeepsEntry(b, who, cid);
    AccrueSound(cfg, ids, b, who, cid);
    var b1, due := AfterAccrue(b, who, cid), SlashDue(b, who, cid);
    if due != 0 {
      ShrinkKeepsEntry(cfg, ids, b1, who, cid, due);
      ShrinkSound(cfg, ids, b1, who, cid, due);
      RemainderSound(cfg, ids, AfterShrink(cfg, ids, b1, who, cid, due), who, cid, due - Shrinkage(b1, who, cid, due));
    }
  }

  lemma {:induction false} WithdrawSound(cfg: Config, ids: Owners, b: Books, who: Account, cid: CommitmentId, env: Env)
    requires Sound(cfg, ids, b) && CanWithdraw(cfg, ids, b, who, cid, env)
    ensures Sound(cfg, ids, AfterWithdraw(cfg, ids, b, who, cid, env))
    ensures Delegates(AfterWithdraw(cfg, ids, b, who, cid, env), who, cid)
  {
    hide Sound, AfterApplySlash, CanApplySlash, Get;
    SoundConfig(cfg, ids, b);
    ApplySlashSound(cfg, ids, b, who, cid, env);
    PayoutSound(cfg, ids, AfterApplySlash(cfg, ids, b, who, cid, env), who, cid);
  }

  lemma {:induction false} AgainIrrelevant(cfg: Config, ids: Owners, b: Books, again: map<CommitmentId, nat>)
    requires Sound(cfg, ids, b)
    ensures Sound(cfg, ids, b.(again := again))
  {
    hide Weight, MulFloor, StakeOk, Get, DelegationOk, CommitmentOk;
    var b' := b.(again := again);
    forall c | c in b'.commitments
      ensures WeightsAreSums(b'.delegations, c, b'.commitments[c]) && Solvent(b', c, b'.commitments[c])
    {
      assert WeightsAreSums(b.delegations, c, b.commitments[c]) && Solvent(b, c, b.commitments[c]);
    }
  }

  lemma {:induction false} MoveSound(cfg: Config, ids: Owners, b: Books, who: Account, cid: CommitmentId,
                                     to: CommitmentId, amount: nat, period: nat, env: Env, rejoin: Env)
    requires Sound(cfg, ids, b) && cfg.Valid() && CanMove(cfg, ids, b, who, cid, to, amount, period, env, rejoin)
    ensures Sound(cfg, ids, AfterMove(cfg, ids, b, who, cid, to, amount, period, env, rejoin))
  {
    hide Sound, AfterWithdraw, CanWithdraw, AfterLeave, AfterJoin, RewardDue, Get, OwnStake;
    WithdrawSound(cfg, ids, b, who, cid, env);
    LeaveSound(cfg, ids, AfterWithdraw(cfg, ids, b, who, cid, env), who, cid);
    var left := AfterLeave(AfterWithdraw(cfg, ids, b, who, cid, env), who, cid);
    JoinSound(cfg, ids, left, who, to, amount, period);
    AgainIrrelevant(cfg, ids, AfterJoin(cfg, ids, left, who, to, amount, period),
                    AfterMove(cfg, ids, b, who, cid, to, amount, period, env, rejoin).again);
  }

  function Next(cfg: Config, ids: Owners, b: Books, call: Call, env: Env): Books
    requires cfg.Valid()
  {
    if !Succeeds(cfg, ids, b, call, env) then b
    else
      match call
      case Stake(who, amount, period, commission) => AfterStake(cfg, ids, b, who, amount, period, commission)
      case StakeMore(who, extra, longer, rate) => AfterStakeMore(cfg, ids, b, who, extra, longer, rate)
      case CoolCommitter(who) => AfterCommitterCooldown(cfg, b, ids[who])
      case WithdrawCommitter(who) => AfterCommitterWithdraw(b, ids[who])
      case End(who) => AfterEnd(b, who, ids[who])
      case Slash(who, ps, base) => AfterSlash(cfg, ids, b, who, ps, base, env)
      case Distribute(cid, selfAmount, reward, lastEpoch) =>
        AfterDistribute(b, cid, selfAmount, reward, WeightsAt(b.commitments[cid], lastEpoch).delegReward)
      case Delegate(who, cid, amount, period) => AfterJoin(cfg, ids, b, who, cid, amount, period)
      case Accrue(who, cid) => AfterAccrue(b, who, cid)
      case ApplySlash(who, cid) => AfterApplySlash(cfg, ids, b, who, cid, env)
      case Withdraw(who, cid) => AfterWithdraw(cfg, ids, b, who, cid, env)
      case Cool(who, cid) =>
        SlashKeepsEntry(cfg, ids, b, who, cid, env);
        AfterCool(cfg, AfterApplySlash(cfg, ids, b, who, cid, env), who, cid)
      case Leave(who, cid, kickout) => AfterLeave(AfterWithdraw(cfg, ids, b, who, cid, env), who, cid)
      case DelegateMore(who, cid, extra, longer, rejoin) =>
        var amount, period := MoreAmount(b, who, cid, extra), MorePeriod(b, who, cid, longer);
        AfterMove(cfg, ids, b, who, cid, cid, amount, period, env, rejoin)
      case Redelegate(who, cid, to, rejoin) =>
        var amount, period := MoreAmount(b, who, cid, 0), MorePeriod(b, who, cid, None);
        AfterMove(cfg, ids, b, who, cid, to, amount, period, env, rejoin)
      case Pass(blocks, epochs) => b.(block := b.block + blocks, epoch := b.epoch + epochs)
  }

  function Run(cfg: Config, ids: Owners, b: Books, calls: seq<(Call, Env)>): Books
    requires cfg.Valid()
    decreases |calls|
  {
    if calls == [] then b else Run(cfg, ids, Next(cfg, ids, b, calls[0].0, calls[0].1), calls[1..])
  }

  lemma {:induction false} NextSound(cfg: Config, ids: Owners, b: Books, call: Call, env: Env)
    requires Sound(cfg, ids, b)
    ensures Sound(cfg, ids, Next(cfg, ids, b, call, env))
  {
    hide Sound, AfterApplySlash, CanApplySlash, Get, AfterStake, AfterStakeMore, AfterCommitterCooldown,
         AfterCommitterWithdraw, AfterEnd, AfterSlash, CanSlash, AfterDistribute, AfterJoin,
         AfterAccrue, AfterWithdraw, AfterCool, AfterLeave, AfterMove, CanMove, MoreAmount, MorePeriod;
    SoundConfig(cfg, ids, b);
    if Succeeds(cfg, ids, b, call, env) {
      match call
      case Stake(who, amount, period, commission) => StakeSound(cfg, ids, b, who, amount, period, commission);
      case StakeMore(who, extra, longer, rate) => StakeMoreSound(cfg, ids, b, who, extra, longer, rate);
      case CoolCommitter(who) => CommitterCooldownSound(cfg, ids, b, who, ids[who]);
      case WithdrawCommitter(who) => CommitterWithdrawSound(cfg, ids, b, who, ids[who]);
      case End(who) => EndSound(cfg, ids, b, who, ids[who]);
      case Slash(who, ps, base) => SlashSound(cfg, ids, b, who, ps, base, env);
      case Distribute(cid, selfAmount, reward, lastEpoch) =>
        DistributeSound(cfg, ids, b, cid, selfAmount, reward, WeightsAt(b.commitments[cid], lastEpoch).delegReward);
      case Delegate(who, cid, amount, period) => JoinSound(cfg, ids, b, who, cid, amount, period);
      case Accrue(who, cid) => AccrueSound(cfg, ids, b, who, cid);
      case ApplySlash(who, cid) => ApplySlashSound(cfg, ids, b, who, cid, env);
      case Withdraw(who, cid) => WithdrawSound(cfg, ids, b, who, cid, env);
      case Cool(who, cid) =>
        ApplySlashSound(cfg, ids, b, who, cid, env);
        CoolSound(cfg, ids, AfterApplySlash(cfg, ids, b, who, cid, env), who, cid);
      case Leave(who, cid, kickout) =>
        WithdrawSound(cfg, ids, b, who, cid, env);
        LeaveSound(cfg, ids, AfterWithdraw(cfg, ids, b, who, cid, env), who, cid);
      case DelegateMore(who, cid, extra, longer, rejoin) =>
        MoveSound(cfg, ids, b, who, cid, cid, MoreAmount(b, who, cid, extra), MorePeriod(b, who, cid, longer), env,
                  rejoin);
      case Redelegate(who, cid, to, rejoin) =>
        MoveSound(cfg, ids, b, who, cid, to, MoreAmount(b, who, cid, 0), MorePeriod(b, who, cid, None), env, rejoin);
      case Pass(blocks, epochs) => TimeKeeps(cfg, ids, b, b.block + blocks, b.epoch + epochs);
    }
  }

  /** The books are sound after every run. */
  lemma {:induction false} RunSound(cfg: Config, ids: Owners, b: Books, calls: seq<(Call, Env)>)
    requires Sound(cfg, ids, b)
    ensures Sound(cfg, ids, Run(cfg, ids, b, calls))
    decreases |calls|
  {
    hide Sound, Next;
    SoundConfig(cfg, ids, b);
    if calls != [] {
      NextSound(cfg, ids, b, calls[0].0, calls[0].1);
      RunSound(cfg, ids, Next(cfg, ids, b, calls[0].0, calls[0].1), calls[1..]);
    }
  }
}
