/**
 * The recorded total of what is delegated to a commitment. It is never above the sum of the live
 * delegations, and equal to it unless a stale delegation is slashed after the committer staked again.
 */
module StakingTotals {
  import opened Wrappers
  import opened StakingBase
  import opened StakingSums
  import opened StakingBooks
  import opened StakingMoves
  import opened StakingEffects
  import opened StakingRuns
  import opened Slashing
  import opened StakingRules

  /** The sum of the live delegations to a commitment. */
  ghost function LiveSum(b: Books, cid: CommitmentId): nat
    requires Staked(b, cid)
  {
    Sum(b.delegations, AmountSince(cid, b.commitments[cid].stake.value.created))
  }

  ghost predicate TotalAt(b: Books, cid: CommitmentId, exact: bool)
    requires Staked(b, cid)
  {
    && b.commitments[cid].delegTotal <= LiveSum(b, cid)
    && (exact ==> b.commitments[cid].delegTotal == LiveSum(b, cid))
  }

  /** Every recorded total is at most the sum, or exactly the sum. */
  ghost predicate OnTotal(b: Books, exact: bool) {
    forall cid :: Staked(b, cid) ==> TotalAt(b, cid, exact)
  }

  // ----- a delegation replaced, added or removed -----

  function LiveAmount(d: Option<Delegation>, c: Commitment): nat {
    if d.Some? && Live(d.value, c) then d.value.stake.amount else 0
  }

  lemma {:induction false} LivePut(b: Books, b': Books, who: Account, cid: CommitmentId, now: Option<Delegation>,
                                   c: CommitmentId)
    requires Staked(b, c) && Staked(b', c) && b'.delegations == Put(b.delegations, (who, cid), now)
    requires b'.commitments[c].stake.value.created == b.commitments[c].stake.value.created
    ensures c != cid ==> LiveSum(b', c) == LiveSum(b, c)
    ensures c == cid ==>
      LiveSum(b', c) + LiveAmount(Existing(b.delegations, (who, cid)), b.commitments[c])
      == LiveSum(b, c) + LiveAmount(now, b.commitments[c])
  {
    SumPut(b.delegations, (who, cid), now, AmountSince(c, b.commitments[c].stake.value.created));
    hide Sum, Put;
  }

  /** One delegation changes, and the total of its commitment with it. */
  ghost predicate Changed(b: Books, b': Books, who: Account, cid: CommitmentId, now: Option<Delegation>) {
    && cid in b.commitments && cid in b'.commitments
    && b'.delegations == Put(b.delegations, (who, cid), now)
    && b'.commitments == b.commitments[cid := b'.commitments[cid]]
    && b'.commitments[cid].stake == b.commitments[cid].stake
  }

  lemma {:induction false} ChangedTotal(b: Books, b': Books, who: Account, cid: CommitmentId, now: Option<Delegation>,
                                        exact: bool, exact': bool)
    requires Changed(b, b', who, cid, now) && OnTotal(b, exact) && (exact' ==> exact)
    requires Staked(b, cid) ==>
      var c, c', was := b.commitments[cid], b'.commitments[cid], Existing(b.delegations, (who, cid));
      && LiveAmount(was, c) <= LiveSum(b, cid) + LiveAmount(now, c)
      && c'.delegTotal <= LiveSum(b, cid) + LiveAmount(now, c) - LiveAmount(was, c)
      && (exact' ==> c'.delegTotal == LiveSum(b, cid) + LiveAmount(now, c) - LiveAmount(was, c))
    ensures OnTotal(b', exact')
  {
    hide LiveSum, LiveAmount, Put;
    forall c | Staked(b', c)
      ensures TotalAt(b', c, exact')
    {
      assert Staked(b, c);
      assert TotalAt(b, c, exact);
      LivePut(b, b', who, cid, now, c);
    }
  }

  lemma {:induction false} LiveWithin(b: Books, who: Account, cid: CommitmentId)
    requires Staked(b, cid) && (who, cid) in b.delegations
    ensures LiveAmount(Some(b.delegations[(who, cid)]), b.commitments[cid]) <= LiveSum(b, cid)
  {
    SumMember(b.delegations, (who, cid), AmountSince(cid, b.commitments[cid].stake.value.created));
    hide Sum;
  }

  /** A change that leaves amount and beginning of a delegation alone. */
  lemma {:induction false} SameAmount(b: Books, b': Books, who: Account, cid: CommitmentId, d': Delegation, exact: bool)
    requires OnTotal(b, exact) && (who, cid) in b.delegations && Changed(b, b', who, cid, Some(d'))
    requires var s := b.delegations[(who, cid)].stake; d'.stake.amount == s.amount && d'.stake.created == s.created
    requires b'.commitments[cid].delegTotal == b.commitments[cid].delegTotal
    ensures OnTotal(b', exact)
  {
    assert Staked(b, cid) ==> TotalAt(b, cid, exact);
    hide LiveSum, OnTotal, Changed;
    ChangedTotal(b, b', who, cid, Some(d'), exact, exact);
  }

  lemma {:induction false} AccrueTotal(b: Books, who: Account, cid: CommitmentId, exact: bool)
    requires OnTotal(b, exact) && Delegates(b, who, cid)
    ensures OnTotal(AfterAccrue(b, who, cid), exact)
  {
    var d := b.delegations[(who, cid)];
    AccruedBond(d, b.commitments[cid].pool);
    AccruedAmount(b, who, cid);
    hide AccruedIn, OnTotal;
    SameAmount(b, AfterAccrue(b, who, cid), who, cid, AccruedIn(d, b.commitments[cid].pool), exact);
  }

  /** A delegation is left from before, of a committer that has staked again and has new delegations. */
  predicate Stale(b: Books, who: Account, cid: CommitmentId)
    requires Delegates(b, who, cid)
  {
    && Staked(b, cid) && !Live(b.delegations[(who, cid)], b.commitments[cid])
    && b.delegations[(who, cid)].stake.amount > 0 && b.commitments[cid].delegTotal > 0
  }

  lemma {:induction false} ShrunkAmount(cfg: Config, d: Delegation, c: Commitment, amount: nat)
    requires cfg.Valid()
    ensures Shrunk(cfg, d, c, amount).stake.amount == amount
    ensures Shrunk(cfg, d, c, amount).stake.created == d.stake.created
  {
    hide Weight, MulFloor, FloorShare, CeilShare;
  }

  lemma {:induction false} ShrinkChanges(cfg: Config, ids: Owners, b: Books, who: Account, cid: CommitmentId,
                                         target: nat)
    requires cfg.Valid() && Delegates(b, who, cid) && Shrinkage(b, who, cid, target) <= b.totalStake
    ensures var b', cut := AfterShrink(cfg, ids, b, who, cid, target), Shrinkage(b, who, cid, target);
      && (who, cid) in b'.delegations && Changed(b, b', who, cid, Some(b'.delegations[(who, cid)]))
      && var c, c', d, d' := b.commitments[cid], b'.commitments[cid],
                             b.delegations[(who, cid)].stake, b'.delegations[(who, cid)].stake;
      && c'.delegTotal == (if c.stake.None? then c.delegTotal else Minus(c.delegTotal, cut))
      && d'.amount == d.amount - cut && d'.created == d.created
  {
    var d, c := b.delegations[(who, cid)], b.commitments[cid];
    ShrunkAmount(cfg, d, c, d.stake.amount - Shrinkage(b, who, cid, target));
    hide Shrunk, Rebalanced, Get, OwnStake;
  }

  lemma {:induction false} ShrinkTotal(cfg: Config, ids: Owners, b: Books, who: Account, cid: CommitmentId, target: nat,
                                       exact: bool)
    requires cfg.Valid() && OnTotal(b, exact) && Delegates(b, who, cid)
    requires Shrinkage(b, who, cid, target) <= b.totalStake
    ensures OnTotal(AfterShrink(cfg, ids, b, who, cid, target), exact && (target == 0 || !Stale(b, who, cid)))
  {
    var b' := AfterShrink(cfg, ids, b, who, cid, target);
    ShrinkChanges(cfg, ids, b, who, cid, target);
    if Staked(b, cid) {
      assert TotalAt(b, cid, exact);
      LiveWithin(b, who, cid);
    }
    hide AfterShrink, Changed, OnTotal, LiveSum;
    ChangedTotal(b, b', who, cid, Some(b'.delegations[(who, cid)]), exact,
                 exact && (target == 0 || !Stale(b, who, cid)));
  }

  lemma {:induction false} RemainderTotal(b: Books, who: Account, cid: CommitmentId, remaining: nat, exact: bool)
    requires OnTotal(b, exact) && Delegates(b, who, cid)
    ensures OnTotal(AfterRemainder(b, who, cid, remaining), exact)
    ensures OnTotal(AfterPayout(b, who, cid), exact)
  {
    hide OnTotal, Get;
    var b1, b2 := AfterRemainder(b, who, cid, remaining), AfterPayout(b, who, cid);
    SameAmount(b, b1, who, cid, b1.delegations[(who, cid)], exact);
    SameAmount(b, b2, who, cid, b2.delegations[(who, cid)], exact);
  }

  /** Such a delegation has a slash due. */
  predicate SlashesStale(b: Books, who: Account, cid: CommitmentId) {
    Delegates(b, who, cid) && Stale(b, who, cid) && SlashDue(b, who, cid) > 0
  }

  lemma {:induction false} SlashTotal(cfg: Config, ids: Owners, b: Books, who: Account, cid: CommitmentId, env: Env,
                                      exact: bool)
    requires cfg.Valid() && OnTotal(b, exact) && CanApplySlash(ids, b, who, cid, env)
    ensures OnTotal(AfterApplySlash(cfg, ids, b, who, cid, env), exact && !SlashesStale(b, who, cid))
  {
    hide AfterShrink, OnTotal, AccruedIn, Get, OwnStake;
    var b1, due := AfterAccrue(b, who, cid), SlashDue(b, who, cid);
    AccrueTotal(b, who, cid, exact);
    AccruedAmount(b, who, cid);
    AccrueKeepsEntry(b, who, cid);
    if due != 0 {
      ShrinkTotal(cfg, ids, b1, who, cid, due, exact);
      ShrinkKeepsEntry(cfg, ids, b1, who, cid, due);
      RemainderTotal(AfterShrink(cfg, ids, b1, who, cid, due), who, cid, due - Shrinkage(b1, who, cid, due),
                     exact && !SlashesStale(b, who, cid));
    } else {
      Weaker(b1, exact, exact && !SlashesStale(b, who, cid));
    }
  }

  lemma {:induction false} Weaker(b: Books, exact: bool, exact': bool)
    requires OnTotal(b, exact) && (exact' ==> exact)
    ensures OnTotal(b, exact')
  {
    hide LiveSum;
  }

  lemma {:induction false} WithdrawTotal(cfg: Config, ids: Owners, b: Books, who: Account, cid: CommitmentId, env: Env,
                                         exact: bool)
    requires cfg.Valid() && OnTotal(b, exact) && CanWithdraw(cfg, ids, b, who, cid, env)
    ensures OnTotal(AfterWithdraw(cfg, ids, b, who, cid, env), exact && !SlashesStale(b, who, cid))
  {
    hide AfterApplySlash, CanApplySlash, OnTotal, AfterPayout;
    SlashTotal(cfg, ids, b, who, cid, env, exact);
    SlashTaken(cfg, ids, b, who, cid, env);
    RemainderTotal(AfterApplySlash(cfg, ids, b, who, cid, env), who, cid, 0, exact && !SlashesStale(b, who, cid));
  }

  lemma {:induction false} CoolTotal(cfg: Config, b: Books, who: Account, cid: CommitmentId, exact: bool)
    requires cfg.Valid() && OnTotal(b, exact) && Delegates(b, who, cid) && Staked(b, cid)
    ensures OnTotal(AfterCool(cfg, b, who, cid), exact)
  {
    hide OnTotal, Rebalanced, Weight, MulFloor, CeilShare;
    var b' := AfterCool(cfg, b, who, cid);
    SameAmount(b, b', who, cid, b'.delegations[(who, cid)], exact);
  }

  lemma {:induction false} LeaveTotal(b: Books, who: Account, cid: CommitmentId, exact: bool)
    requires OnTotal(b, exact) && Delegates(b, who, cid) && b.delegations[(who, cid)].stake.amount <= b.totalStake
    ensures OnTotal(AfterLeave(b, who, cid), exact)
  {
    if Staked(b, cid) {
      assert TotalAt(b, cid, exact);
      LiveWithin(b, who, cid);
    }
    hide OnTotal, Rebalanced, Get, Unlocked, LiveSum;
    ChangedTotal(b, AfterLeave(b, who, cid), who, cid, None, exact, exact);
  }

  lemma {:induction false} JoinTotal(cfg: Config, ids: Owners, b: Books, who: Account, cid: CommitmentId, amount: nat,
                                     period: nat, exact: bool)
    requires cfg.Valid() && OnTotal(b, exact) && Staked(b, cid) && (who, cid) !in b.delegations
    requires b.commitments[cid].stake.value.created <= b.block
    ensures OnTotal(AfterJoin(cfg, ids, b, who, cid, amount, period), exact)
  {
    assert TotalAt(b, cid, exact);
    hide OnTotal, Rebalanced, Get, OwnStake, LiveSum, Weight, CeilShare, FloorShare;
    var d := Joined(cfg, amount, period, b.block, b.commitments[cid].pool.value);
    ChangedTotal(b, AfterJoin(cfg, ids, b, who, cid, amount, period), who, cid, Some(d), exact, exact);
  }

  // ----- whole calls -----

  lemma {:induction false} TotalsOf(b: Books, b': Books, exact: bool)
    requires OnTotal(b, exact) && b'.commitments == b.commitments && b'.delegations == b.delegations
    ensures OnTotal(b', exact)
  {
    forall cid | Staked(b', cid)
      ensures TotalAt(b', cid, exact)
    {
      assert TotalAt(b, cid, exact);
    }
  }

  lemma {:induction false} CreatedBy(cfg: Config, ids: Owners, b: Books, cid: CommitmentId)
    requires Sound(cfg, ids, b) && Staked(b, cid)
    ensures b.commitments[cid].stake.value.created <= b.block
  {
    EntryFacts(cfg, ids, b, 0, cid);
    hide Sound, StakeOk;
  }

  lemma {:induction false} MoveTotal(cfg: Config, ids: Owners, b: Books, who: Account, cid: CommitmentId,
                                     to: CommitmentId, amount: nat, period: nat, env: Env, rejoin: Env, exact: bool)
    requires Sound(cfg, ids, b) && cfg.Valid() && OnTotal(b, exact)
    requires CanMove(cfg, ids, b, who, cid, to, amount, period, env, rejoin)
    ensures OnTotal(AfterMove(cfg, ids, b, who, cid, to, amount, period, env, rejoin),
                    exact && !SlashesStale(b, who, cid))
  {
    hide Sound, OnTotal, AfterWithdraw, CanWithdraw, AfterLeave, AfterJoin, RewardDue, Get, OwnStake, SlashesStale;
    var kept := exact && !SlashesStale(b, who, cid);
    var b1 := AfterWithdraw(cfg, ids, b, who, cid, env);
    var left := AfterLeave(b1, who, cid);
    WithdrawTotal(cfg, ids, b, who, cid, env, exact);
    LeaveTotal(b1, who, cid, kept);
    WithdrawSound(cfg, ids, b, who, cid, env);
    LeaveSound(cfg, ids, b1, who, cid);
    CreatedBy(cfg, ids, left, to);
    JoinTotal(cfg, ids, left, who, to, amount, period, kept);
    TotalsOf(AfterJoin(cfg, ids, left, who, to, amount, period),
             AfterMove(cfg, ids, b, who, cid, to, amount, period, env, rejoin), kept);
  }

  /** The call slashes a delegation left from before the committer staked again. */
  predicate HitsStale(b: Books, call: Call) {
    (call.ApplySlash? || call.Withdraw? || call.Leave?) && SlashesStale(b, call.who, call.cid)
  }

  /** Cooling and moving are for live delegations. */
  lemma {:induction false} OthersLive(cfg: Config, ids: Owners, b: Books, call: Call, env: Env)
    requires cfg.Valid() && Succeeds(cfg, ids, b, call, env) && (call.Cool? || call.DelegateMore? || call.Redelegate?)
    ensures !SlashesStale(b, call.who, call.cid)
  {
    hide CanMove, CanApplySlash, SlashDue;
  }

  lemma {:induction false} DelegatorTotalStep(cfg: Config, ids: Owners, b: Books, call: Call, env: Env, exact: bool)
    requires Sound(cfg, ids, b) && cfg.Valid() && OnTotal(b, exact) && Succeeds(cfg, ids, b, call, env)
    requires call.ApplySlash? || call.Withdraw? || call.Cool? || call.Leave?
    ensures OnTotal(Next(cfg, ids, b, call, env), exact && !HitsStale(b, call))
  {
    hide Sound, OnTotal, AfterApplySlash, CanApplySlash, AfterCool, AfterLeave, AfterPayout, CooldownOver, RewardDue,
         SlashesStale;
    var kept := exact && !SlashesStale(b, call.who, call.cid);
    if call.Cool? {
      OthersLive(cfg, ids, b, call, env);
    }
    match call
    case ApplySlash(who, cid) => SlashTotal(cfg, ids, b, who, cid, env, exact);
    case Withdraw(who, cid) => WithdrawTotal(cfg, ids, b, who, cid, env, exact);
    case Cool(who, cid) =>
      SlashTotal(cfg, ids, b, who, cid, env, exact);
      SlashKeepsEntry(cfg, ids, b, who, cid, env);
      CoolTotal(cfg, AfterApplySlash(cfg, ids, b, who, cid, env), who, cid, kept);
    case Leave(who, cid, _) =>
      WithdrawTotal(cfg, ids, b, who, cid, env, exact);
      LeaveTotal(AfterWithdraw(cfg, ids, b, who, cid, env), who, cid, kept);
  }

  lemma {:induction false} JoinTotalStep(cfg: Config, ids: Owners, b: Books, call: Call, env: Env, exact: bool)
    requires Sound(cfg, ids, b) && cfg.Valid() && OnTotal(b, exact) && Succeeds(cfg, ids, b, call, env)
    requires call.Delegate? || call.Accrue? || call.DelegateMore? || call.Redelegate?
    ensures OnTotal(Next(cfg, ids, b, call, env), exact && !HitsStale(b, call))
  {
    hide Sound, OnTotal, AfterJoin, AccruedIn, AfterMove, CanMove, SlashesStale, Get, OwnStake;
    if call.DelegateMore? || call.Redelegate? {
      OthersLive(cfg, ids, b, call, env);
    }
    match call
    case Delegate(who, cid, amount, period) =>
      CreatedBy(cfg, ids, b, cid);
      JoinTotal(cfg, ids, b, who, cid, amount, period, exact);
    case Accrue(who, cid) => AccrueTotal(b, who, cid, exact);
    case DelegateMore(who, cid, extra, longer, rejoin) =>
      MoveTotal(cfg, ids, b, who, cid, cid, MoreAmount(b, who, cid, extra), MorePeriod(b, who, cid, longer), env,
                rejoin, exact);
    case Redelegate(who, cid, to, rejoin) =>
      MoveTotal(cfg, ids, b, who, cid, to, MoreAmount(b, who, cid, 0), MorePeriod(b, who, cid, None), env,
                rejoin, exact);
  }

  // ----- committers' calls -----

  /** The delegations, and every stake's beginning and total, are the same. */
  ghost predicate SameTotals(b: Books, b': Books) {
    && b'.delegations == b.delegations
    && forall cid :: Staked(b', cid) ==>
         && Staked(b, cid) && b'.commitments[cid].delegTotal == b.commitments[cid].delegTotal
         && b'.commitments[cid].stake.value.created == b.commitments[cid].stake.value.created
  }

  lemma {:induction false} SameTotalsKeep(b: Books, b': Books, exact: bool)
    requires OnTotal(b, exact) && SameTotals(b, b')
    ensures OnTotal(b', exact)
  {
    forall cid | Staked(b', cid)
      ensures TotalAt(b', cid, exact)
    {
      assert TotalAt(b, cid, exact);
    }
  }

  /** Nobody is delegating to a stake that has just begun. */
  lemma {:induction false} NoneLive(cfg: Config, ids: Owners, b: Books, cid: CommitmentId)
    requires Sound(cfg, ids, b) && cfg.Valid() && !Staked(b, cid)
    ensures Sum(b.delegations, AmountSince(cid, b.block)) == 0
  {
    forall k | k in b.delegations
      ensures Value(AmountSince(cid, b.block), k, b.delegations[k]) == 0
    {
      EntryFacts(cfg, ids, b, k.0, k.1);
    }
    hide Sound, Sum;
    SumZero(b.delegations, AmountSince(cid, b.block));
  }

  lemma {:induction false} StakeTotal(cfg: Config, ids: Owners, b: Books, who: Account, amount: nat, period: nat,
                                      commission: nat, exact: bool)
    requires Sound(cfg, ids, b) && cfg.Valid() && OnTotal(b, exact) && who in ids && !Staked(b, ids[who])
    ensures OnTotal(AfterStake(cfg, ids, b, who, amount, period, commission), exact)
  {
    NoneLive(cfg, ids, b, ids[who]);
    hide Sound, Weight, Get, Sum;
    var b' := AfterStake(cfg, ids, b, who, amount, period, commission);
    forall cid | Staked(b', cid)
      ensures TotalAt(b', cid, exact)
    {
      if cid != ids[who] {
        assert TotalAt(b, cid, exact);
      }
    }
  }

  lemma {:induction false} CommitterTotalStep(cfg: Config, ids: Owners, b: Books, call: Call, env: Env, exact: bool)
    requires Sound(cfg, ids, b) && cfg.Valid() && OnTotal(b, exact) && Succeeds(cfg, ids, b, call, env)
    requires call.StakeMore? || call.CoolCommitter? || call.WithdrawCommitter? || call.End? || call.Pass?
    ensures OnTotal(Next(cfg, ids, b, call, env), exact)
  {
    hide Sound, OnTotal, Weight, MulFloor, Get, Unlocked;
    SameTotalsKeep(b, Next(cfg, ids, b, call, env), exact);
  }

  /** One commitment changes, but not its total or when its stake began. */
  lemma {:induction false} OneTotal(b: Books, b': Books, cid: CommitmentId, c: Commitment)
    requires Staked(b, cid) && c.stake.Some? && c.delegTotal == b.commitments[cid].delegTotal
    requires c.stake.value.created == b.commitments[cid].stake.value.created
    requires b'.commitments == b.commitments[cid := c] && b'.delegations == b.delegations
    ensures SameTotals(b, b')
  {
  }

  lemma {:induction false} DistributeTotal(b: Books, cid: CommitmentId, selfAmount: nat, reward: nat, divisor: nat,
                                           exact: bool)
    requires Staked(b, cid) && OnTotal(b, exact)
    ensures OnTotal(AfterDistribute(b, cid, selfAmount, reward, divisor), exact)
  {
    hide OnTotal, Get, Raise, RaisedBoth, Minus;
    var b' := AfterDistribute(b, cid, selfAmount, reward, divisor);
    OneTotal(b, b', cid, b'.commitments[cid]);
    SameTotalsKeep(b, b', exact);
  }

  lemma {:induction false} CommitterSlashTotal(cfg: Config, b: Books, who: Account, cid: CommitmentId, decrease: nat,
                                               exact: bool)
    requires cfg.Valid() && Staked(b, cid) && decrease <= b.totalStake && OnTotal(b, exact)
    ensures Staked(AfterCommitterSlash(cfg, b, who, cid, decrease), cid)
    ensures OnTotal(AfterCommitterSlash(cfg, b, who, cid, decrease), exact)
  {
    hide OnTotal, Get, Weight, MulFloor;
    var b' := AfterCommitterSlash(cfg, b, who, cid, decrease);
    OneTotal(b, b', cid, b'.commitments[cid]);
    SameTotalsKeep(b, b', exact);
  }

  lemma {:induction false} PoolSlashTotal(b: Books, cid: CommitmentId, increase: nat, lastEpoch: nat, exact: bool)
    requires Staked(b, cid) && OnTotal(b, exact)
    ensures OnTotal(AfterPoolSlash(b, cid, increase, lastEpoch), exact)
  {
    hide OnTotal, RaisedBoth;
    var b' := AfterPoolSlash(b, cid, increase, lastEpoch);
    OneTotal(b, b', cid, b'.commitments[cid]);
    SameTotalsKeep(b, b', exact);
  }

  lemma {:induction false} SlashedTotal(cfg: Config, ids: Owners, b: Books, who: Account, ps: Reports, base: nat,
                                        env: Env, exact: bool)
    requires cfg.Valid() && OnTotal(b, exact) && CanSlash(ids, b, who, ps, base, env)
    ensures OnTotal(AfterSlash(cfg, ids, b, who, ps, base, env), exact)
  {
    hide OnTotal, SlashDemand, SlashBites, SlashSplit, AfterCommitterSlash, AfterPoolSlash;
    var cid := ids[who];
    if SlashBites(b, cid) {
      var sh := SlashSplit(b, cid, ps, base);
      var b1 := b;
      if sh.self != 0 {
        CommitterSlashTotal(cfg, b, who, cid, sh.self, exact);
        b1 := AfterCommitterSlash(cfg, b, who, cid, sh.self);
      }
      PoolSlashTotal(b1, cid, sh.increase, b.epoch - 1, exact);
    }
  }

  lemma {:induction false} PoolTotalStep(cfg: Config, ids: Owners, b: Books, call: Call, env: Env, exact: bool)
    requires cfg.Valid() && OnTotal(b, exact) && Succeeds(cfg, ids, b, call, env) && (call.Slash? || call.Distribute?)
    ensures OnTotal(Next(cfg, ids, b, call, env), exact)
  {
    hide OnTotal, AfterSlash, CanSlash, AfterDistribute, WeightsAt;
    if call.Slash? {
      SlashedTotal(cfg, ids, b, call.who, call.ps, call.base, env, exact);
    } else {
      DistributeTotal(b, call.cid, call.selfAmount, call.reward,
                      WeightsAt(b.commitments[call.cid], call.lastEpoch).delegReward, exact);
    }
  }

  // ----- runs -----

  lemma {:induction false} NextTotal(cfg: Config, ids: Owners, b: Books, call: Call, env: Env, exact: bool)
    requires Sound(cfg, ids, b) && cfg.Valid() && OnTotal(b, exact)
    ensures OnTotal(Next(cfg, ids, b, call, env), exact && !(Succeeds(cfg, ids, b, call, env) && HitsStale(b, call)))
  {
    hide Sound, Next, OnTotal, HitsStale;
    if !Succeeds(cfg, ids, b, call, env) {
      Unchanged(cfg, ids, b, call, env);
    } else if call.Stake? {
      StakeNext(cfg, ids, b, call, env);
      hide Succeeds, AfterStake;
      StakeTotal(cfg, ids, b, call.who, call.amount, call.period, call.commission, exact);
      Weaker(Next(cfg, ids, b, call, env), exact, exact && !HitsStale(b, call));
    } else {
      hide Succeeds;
      if call.ApplySlash? || call.Withdraw? || call.Cool? || call.Leave? {
        DelegatorTotalStep(cfg, ids, b, call, env, exact);
      } else if call.Delegate? || call.Accrue? || call.DelegateMore? || call.Redelegate? {
        JoinTotalStep(cfg, ids, b, call, env, exact);
      } else {
        if call.Slash? || call.Distribute? {
          PoolTotalStep(cfg, ids, b, call, env, exact);
        } else {
          CommitterTotalStep(cfg, ids, b, call, env, exact);
        }
        Weaker(Next(cfg, ids, b, call, env), exact, exact && !HitsStale(b, call));
      }
    }
  }

  lemma {:induction false} StakeNext(cfg: Config, ids: Owners, b: Books, call: Call, env: Env)
    requires cfg.Valid() && call.Stake? && Succeeds(cfg, ids, b, call, env)
    ensures call.who in ids && !Staked(b, ids[call.who])
    ensures Next(cfg, ids, b, call, env) == AfterStake(cfg, ids, b, call.who, call.amount, call.period, call.commission)
  {
    hide AfterStake;
  }

  lemma {:induction false} Unchanged(cfg: Config, ids: Owners, b: Books, call: Call, env: Env)
    requires cfg.Valid() && !Succeeds(cfg, ids, b, call, env)
    ensures Next(cfg, ids, b, call, env) == b
  {
    hide Succeeds;
  }

  /** No successful call of the run slashes a delegation left from before the committer staked again. */
  predicate NoneStale(cfg: Config, ids: Owners, b: Books, calls: seq<(Call, Env)>)
    requires cfg.Valid()
    decreases |calls|
  {
    calls != [] ==>
    && !(Succeeds(cfg, ids, b, calls[0].0, calls[0].1) && HitsStale(b, calls[0].0))
    && NoneStale(cfg, ids, Next(cfg, ids, b, calls[0].0, calls[0].1), calls[1..])
  }

  lemma {:induction false} RunTotal(cfg: Config, ids: Owners, b: Books, calls: seq<(Call, Env)>, exact: bool)
    requires Sound(cfg, ids, b) && cfg.Valid() && OnTotal(b, exact) && (exact ==> NoneStale(cfg, ids, b, calls))
    ensures OnTotal(Run(cfg, ids, b, calls), exact)
    decreases |calls|
  {
    hide Sound, Next, OnTotal, Succeeds, HitsStale;
    if calls != [] {
      NextTotal(cfg, ids, b, calls[0].0, calls[0].1, exact);
      NextSound(cfg, ids, b, calls[0].0, calls[0].1);
      RunTotal(cfg, ids, Next(cfg, ids, b, calls[0].0, calls[0].1), calls[1..], exact);
    }
  }

  /**
   * In every reachable state the recorded total of a commitment's delegations is at most the sum of the
   * live ones, and it is that sum if no delegation left from before was slashed.
   */
  lemma {:induction false} DelegationTotal(cfg: Config, ids: Owners, calls: seq<(Call, Env)>, cid: CommitmentId)
    requires cfg.Valid() && Distinct(ids) && Staked(Run(cfg, ids, NO_BOOKS, calls), cid)
    ensures var b := Run(cfg, ids, NO_BOOKS, calls);
      && b.commitments[cid].delegTotal <= LiveSum(b, cid)
      && (NoneStale(cfg, ids, NO_BOOKS, calls) ==> b.commitments[cid].delegTotal == LiveSum(b, cid))
  {
    EmptySound(cfg, ids);
    assert OnTotal(NO_BOOKS, true);
    hide Run, Sound, LiveSum, NoneStale;
    RunTotal(cfg, ids, NO_BOOKS, calls, NoneStale(cfg, ids, NO_BOOKS, calls));
  }

  // ----- the other direction -----

  /** A slash keeps an exact total exact if and only if it takes nothing, or the delegation is not such a one. */
  lemma {:induction false} TotalKeptWhen(cfg: Config, ids: Owners, b: Books, who: Account, cid: CommitmentId,
                                         target: nat)
    requires cfg.Valid() && Delegates(b, who, cid) && Staked(b, cid) && TotalAt(b, cid, true)
    requires Shrinkage(b, who, cid, target) <= b.totalStake
    ensures var b' := AfterShrink(cfg, ids, b, who, cid, target);
      && Staked(b', cid) && (TotalAt(b', cid, true) <==> target == 0 || !Stale(b, who, cid))
  {
    var b' := AfterShrink(cfg, ids, b, who, cid, target);
    ShrinkChanges(cfg, ids, b, who, cid, target);
    LiveWithin(b, who, cid);
    hide AfterShrink, LiveSum;
    LivePut(b, b', who, cid, Some(b'.delegations[(who, cid)]), cid);
  }

  /** What leaves the live delegations and the total alone does not repair it. */
  lemma {:induction false} StillShort(b: Books, b': Books, who: Account, cid: CommitmentId, now: Option<Delegation>)
    requires Delegates(b, who, cid) && Changed(b, b', who, cid, now) && Staked(b, cid) && !TotalAt(b, cid, true)
    requires LiveAmount(now, b.commitments[cid]) == LiveAmount(Some(b.delegations[(who, cid)]), b.commitments[cid])
    requires b'.commitments[cid].delegTotal == b.commitments[cid].delegTotal
    ensures Staked(b', cid) && !TotalAt(b', cid, true)
  {
    LivePut(b, b', who, cid, now, cid);
    hide LiveSum;
  }

  lemma {:induction false} RemainderShort(b: Books, who: Account, cid: CommitmentId, remaining: nat)
    requires Delegates(b, who, cid) && Staked(b, cid) && !TotalAt(b, cid, true)
    ensures var b' := AfterRemainder(b, who, cid, remaining); Staked(b', cid) && !TotalAt(b', cid, true)
    ensures var b' := AfterPayout(b, who, cid); Staked(b', cid) && !TotalAt(b', cid, true)
  {
    hide TotalAt, Get;
    var b1, b2 := AfterRemainder(b, who, cid, remaining), AfterPayout(b, who, cid);
    StillShort(b, b1, who, cid, Some(b1.delegations[(who, cid)]));
    StillShort(b, b2, who, cid, Some(b2.delegations[(who, cid)]));
  }

  lemma {:induction false} LeaveShort(b: Books, who: Account, cid: CommitmentId)
    requires Delegates(b, who, cid) && Staked(b, cid) && !TotalAt(b, cid, true)
    requires !Live(b.delegations[(who, cid)], b.commitments[cid])
    requires b.delegations[(who, cid)].stake.amount <= b.totalStake
    ensures var b' := AfterLeave(b, who, cid); Staked(b', cid) && !TotalAt(b', cid, true)
  {
    hide TotalAt, Rebalanced, Get, Unlocked;
    StillShort(b, AfterLeave(b, who, cid), who, cid, None);
  }

  lemma {:induction false} SlashShort(cfg: Config, ids: Owners, b: Books, who: Account, cid: CommitmentId, env: Env)
    requires cfg.Valid() && CanApplySlash(ids, b, who, cid, env) && OnTotal(b, true) && SlashesStale(b, who, cid)
    ensures var b' := AfterApplySlash(cfg, ids, b, who, cid, env); Staked(b', cid) && !TotalAt(b', cid, true)
  {
    var b1, due := AfterAccrue(b, who, cid), SlashDue(b, who, cid);
    AccrueTotal(b, who, cid, true);
    AccruedAmount(b, who, cid);
    AccrueKeepsEntry(b, who, cid);
    assert TotalAt(b1, cid, true);
    hide AfterShrink, OnTotal, TotalAt, AccruedIn, Get, OwnStake;
    TotalKeptWhen(cfg, ids, b1, who, cid, due);
    ShrinkKeepsEntry(cfg, ids, b1, who, cid, due);
    RemainderShort(AfterShrink(cfg, ids, b1, who, cid, due), who, cid, due - Shrinkage(b1, who, cid, due));
  }

  lemma {:induction false} WithdrawShort(cfg: Config, ids: Owners, b: Books, who: Account, cid: CommitmentId, env: Env)
    requires cfg.Valid() && CanWithdraw(cfg, ids, b, who, cid, env) && OnTotal(b, true) && SlashesStale(b, who, cid)
    ensures var b' := AfterWithdraw(cfg, ids, b, who, cid, env); Staked(b', cid) && !TotalAt(b', cid, true)
  {
    hide AfterApplySlash, CanApplySlash, OnTotal, TotalAt, AfterPayout, SlashesStale;
    SlashShort(cfg, ids, b, who, cid, env);
    SlashTaken(cfg, ids, b, who, cid, env);
    RemainderShort(AfterApplySlash(cfg, ids, b, who, cid, env), who, cid, 0);
  }

  lemma {:induction false} WithdrawKeepsEntry(cfg: Config, ids: Owners, b: Books, who: Account, cid: CommitmentId,
                                              env: Env)
    requires cfg.Valid() && CanWithdraw(cfg, ids, b, who, cid, env)
    ensures Delegates(b, who, cid) && SameEntry(b, AfterWithdraw(cfg, ids, b, who, cid, env), who, cid)
  {
    hide AfterApplySlash, CanApplySlash, Get;
    SlashKeepsEntry(cfg, ids, b, who, cid, env);
  }

  lemma {:induction false} NextShort(cfg: Config, ids: Owners, b: Books, call: Call, env: Env)
    requires cfg.Valid() && OnTotal(b, true) && Succeeds(cfg, ids, b, call, env) && HitsStale(b, call)
    ensures var b' := Next(cfg, ids, b, call, env); Staked(b', call.cid) && !TotalAt(b', call.cid, true)
  {
    hide AfterApplySlash, CanApplySlash, OnTotal, TotalAt, AfterWithdraw, CanWithdraw, AfterLeave, CooldownOver,
         SlashDue;
    match call
    case ApplySlash(who, cid) => SlashShort(cfg, ids, b, who, cid, env);
    case Withdraw(who, cid) => WithdrawShort(cfg, ids, b, who, cid, env);
    case Leave(who, cid, _) =>
      WithdrawShort(cfg, ids, b, who, cid, env);
      WithdrawKeepsEntry(cfg, ids, b, who, cid, env);
      LeaveShort(AfterWithdraw(cfg, ids, b, who, cid, env), who, cid);
  }

  /** All recorded totals are exact in every state of the run. */
  ghost predicate AlwaysExact(cfg: Config, ids: Owners, b: Books, calls: seq<(Call, Env)>)
    requires cfg.Valid()
    decreases |calls|
  {
    OnTotal(b, true) && (calls != [] ==> AlwaysExact(cfg, ids, Next(cfg, ids, b, calls[0].0, calls[0].1), calls[1..]))
  }

  lemma {:induction false} ExactFrom(cfg: Config, ids: Owners, b: Books, calls: seq<(Call, Env)>)
    requires Sound(cfg, ids, b) && cfg.Valid() && OnTotal(b, true)
    ensures AlwaysExact(cfg, ids, b, calls) <==> NoneStale(cfg, ids, b, calls)
    decreases |calls|
  {
    if calls != [] {
      var call, env := calls[0].0, calls[0].1;
      var b' := Next(cfg, ids, b, call, env);
      if Succeeds(cfg, ids, b, call, env) && HitsStale(b, call) {
        NextShort(cfg, ids, b, call, env);
        assert !OnTotal(b', true);
      } else {
        hide OnTotal, Next, Succeeds, HitsStale, Sound;
        NextTotal(cfg, ids, b, call, env, true);
        NextSound(cfg, ids, b, call, env);
        ExactFrom(cfg, ids, b', calls[1..]);
      }
    }
    hide OnTotal, Next, Succeeds, HitsStale, Sound;
  }

  /**
   * Over a run from the beginning every recorded total is always the sum of the live delegations if and
   * only if no call slashes a delegation left from before its committer staked again.
   */
  lemma {:induction false} TotalsExactWhen(cfg: Config, ids: Owners, calls: seq<(Call, Env)>)
    requires cfg.Valid() && Distinct(ids)
    ensures AlwaysExact(cfg, ids, NO_BOOKS, calls) <==> NoneStale(cfg, ids, NO_BOOKS, calls)
  {
    EmptySound(cfg, ids);
    assert OnTotal(NO_BOOKS, true);
    hide OnTotal, Sound, AlwaysExact, NoneStale;
    ExactFrom(cfg, ids, NO_BOOKS, calls);
  }
}
