/**
 * The books after each operation. Locks are stated as what they should be, from the books after
 * the operation; how the operation computes them from half-written storage is not visible here.
 */
module StakingEffects {
  import opened Wrappers
  import opened StakingBase
  import opened StakingSums
  import opened StakingBooks
  import opened StakingMoves

  /** A value recorded at a time; times never run backwards, see `EntryFacts`. */
  function Recorded<V>(m: Memory<V>, t: nat, v: V): Memory<V> {
    match m.SetAt(t, v)
    case None => m
    case Some(m') => m'
  }

  predicate Staked(b: Books, cid: CommitmentId) {
    cid in b.commitments && b.commitments[cid].stake.Some?
  }

  predicate Delegates(b: Books, who: Account, cid: CommitmentId) {
    cid in b.commitments && (who, cid) in b.delegations
  }

  function SelfWeighed(cfg: Config, c: Commitment, epoch: nat): (r: Commitment)
    requires cfg.Valid() && c.stake.Some?
    ensures r == c.(weights := r.weights)
  {
    var w := Weight(cfg, c.stake.value.rewardable, c.stake.value.period);
    c.(weights := Recorded(c.weights, epoch, c.weights.value.(selfReward := w, selfSlash := w)))
  }

  /** The facts about the entries an operation looks at. */
  lemma {:induction false} EntryFacts(cfg: Config, ids: Owners, b: Books, who: Account, cid: CommitmentId)
    requires Sound(cfg, ids, b)
    ensures cfg.Valid() && Distinct(ids)
    ensures cid in b.commitments ==>
      CommitmentOk(cfg, b.commitments[cid], b.block, b.epoch) && b.commitments[cid].weights.time <= b.epoch
    ensures (who, cid) in b.delegations ==>
      cid in b.commitments && DelegationOk(cfg, b.delegations[(who, cid)], b.commitments[cid], b.block)
    ensures Get(b.locks, who) == Get(b.delegatorTotal, who) + OwnStake(ids, b.commitments, who)
  {
  }

  /** A commitment without stake can be staked on again, and all weights can be recorded. */
  lemma {:induction false} PoolReady(cfg: Config, ids: Owners, b: Books)
    requires Sound(cfg, ids, b)
    ensures cfg.Valid()
    ensures forall c :: c in b.commitments && b.commitments[c].stake.None? ==> b.commitments[c].pool.time < b.block
  {
  }

  /** A delegation counts towards its account's total and, when live, the weights of its commitment. */
  lemma {:induction false} EntryCounted(cfg: Config, ids: Owners, b: Books, who: Account, cid: CommitmentId)
    requires Sound(cfg, ids, b) && Delegates(b, who, cid)
    ensures var d, c := b.delegations[(who, cid)], b.commitments[cid];
      && d.stake.amount <= Get(b.delegatorTotal, who)
      && LiveReward(Some(d), c) <= c.weights.value.delegReward
      && LiveSlash(Some(d), c) <= c.weights.value.delegSlash
  {
    var d, c, k := b.delegations[(who, cid)], b.commitments[cid], (who, cid);
    SumMember(b.delegations, k, AmountOf(who));
    assert WeightsAreSums(b.delegations, cid, c);
    if c.stake.Some? {
      SumMember(b.delegations, k, RewardWeightSince(cid, c.stake.value.created));
      SumMember(b.delegations, k, SlashWeightSince(cid, c.stake.value.created));
    }
    hide Sum, StakeSum, Get;
  }

  // ----- committers -----

  function AfterStake(cfg: Config, ids: Owners, b: Books, who: Account, amount: nat, period: nat,
                      commission: nat): Books
    requires cfg.Valid() && who in ids
  {
    var cid, w := ids[who], Weight(cfg, amount, period);
    var stake := Some(NewStake(amount, b.block, period));
    var weights := NewMemory(b.epoch, Weights(w, w, 0, 0));
    var c' :=
      if cid in b.commitments then
        var pool := b.commitments[cid].pool;
        b.commitments[cid].(stake := stake, commission := commission, delegTotal := 0, weights := weights,
                            pool := Memory(Some((pool.time, pool.value)), b.block, NO_REWARDS))
      else Commitment(stake, commission, 0, weights, NewMemory(b.block, NO_REWARDS), 0);
    b.(commitments := b.commitments[cid := c'], totalStake := b.totalStake + amount,
       locks := b.locks[who := Get(b.delegatorTotal, who) + amount])
  }

  lemma {:induction false} StakeSound(cfg: Config, ids: Owners, b: Books, who: Account, amount: nat, period: nat,
                                      commission: nat)
    requires Sound(cfg, ids, b) && who in ids && period >= 1
    requires ids[who] in b.commitments ==> b.commitments[ids[who]].stake.None?
    ensures Sound(cfg, ids, AfterStake(cfg, ids, b, who, amount, period, commission))
  {
    hide Sound, Weight, MulFloor;
    EntryFacts(cfg, ids, b, who, ids[who]);
    var b' := AfterStake(cfg, ids, b, who, amount, period, commission);
    assert CommitmentOk(cfg, b'.commitments[ids[who]], b.block, b.epoch);
    hide CommitmentOk, Get;
    OpenKeeps(cfg, ids, b, b', who, ids[who], NewStake(amount, b.block, period));
  }

  function WithStake(b: Books, cid: CommitmentId, c': Commitment, who: Account): Books {
    b.(commitments := b.commitments[cid := c'], locks := b.locks[who := Get(b.delegatorTotal, who) + StakeOf(c')])
  }

  function MoreStake(s: Stake, extra: nat, period: Option<nat>): Stake {
    var s := if extra == 0 then s else s.(amount := s.amount + extra, rewardable := s.amount + extra);
    if period.Some? then s.(period := period.value) else s
  }

  function AfterStakeMore(cfg: Config, ids: Owners, b: Books, who: Account, extra: nat, period: Option<nat>,
                          commission: Option<nat>): Books
    requires cfg.Valid() && who in ids && Staked(b, ids[who])
  {
    var cid := ids[who];
    var c := b.commitments[cid];
    var c1 := c.(commission := if commission.Some? then commission.value else c.commission,
                 stake := Some(MoreStake(c.stake.value, extra, period)));
    var c' := SelfWeighed(cfg, c1, b.epoch);
    b.(commitments := b.commitments[cid := c'], totalStake := b.totalStake + extra,
       locks := if extra == 0 then b.locks else b.locks[who := Get(b.delegatorTotal, who) + StakeOf(c')])
  }

  lemma {:induction false} StakeMoreSound(cfg: Config, ids: Owners, b: Books, who: Account, extra: nat,
                                          period: Option<nat>, commission: Option<nat>)
    requires Sound(cfg, ids, b) && who in ids && Staked(b, ids[who])
    requires b.commitments[ids[who]].stake.value.cooldown.None?
    requires period.Some? ==> period.value >= b.commitments[ids[who]].stake.value.period
    ensures Sound(cfg, ids, AfterStakeMore(cfg, ids, b, who, extra, period, commission))
  {
    hide Sound, Weight, MulFloor;
    EntryFacts(cfg, ids, b, who, ids[who]);
    StakeChangeKeeps(cfg, ids, b, AfterStakeMore(cfg, ids, b, who, extra, period, commission), who, ids[who]);
  }

  /** A committer's stake slashed by `decrease`, which may exceed it. */
  function AfterCommitterSlash(cfg: Config, b: Books, who: Account, cid: CommitmentId, decrease: nat): Books
    requires cfg.Valid() && Staked(b, cid) && decrease <= b.totalStake
  {
    var c := b.commitments[cid];
    var s := c.stake.value;
    var c' := SelfWeighed(cfg, c.(stake := Some(Resized(cfg, s, Minus(s.amount, decrease)))), b.epoch);
    WithStake(b, cid, c', who).(totalStake := b.totalStake - decrease,
                                overshoot := b.overshoot + Minus(decrease, s.amount))
  }

  lemma {:induction false} CommitterSlashSound(cfg: Config, ids: Owners, b: Books, who: Account, cid: CommitmentId,
                                               decrease: nat)
    requires Sound(cfg, ids, b) && who in ids && ids[who] == cid && Staked(b, cid)
    requires decrease <= b.totalStake
    ensures Sound(cfg, ids, AfterCommitterSlash(cfg, b, who, cid, decrease))
  {
    hide Sound, Weight, MulFloor;
    EntryFacts(cfg, ids, b, who, cid);
    StakeChangeKeeps(cfg, ids, b, AfterCommitterSlash(cfg, b, who, cid, decrease), who, cid);
  }

  function AfterCommitterCooldown(cfg: Config, b: Books, cid: CommitmentId): Books
    requires cfg.Valid() && Staked(b, cid)
  {
    var c := b.commitments[cid];
    var s := c.stake.value.(cooldown := Some(b.block),
                            rewardable := MulFloor(cfg.cooldownRatio, c.stake.value.amount));
    var w := Weight(cfg, s.rewardable, s.period);
    b.(commitments := b.commitments[cid := c.(
         stake := Some(s), weights := Recorded(c.weights, b.epoch, c.weights.value.(selfReward := w)))])
  }

  lemma {:induction false} CommitterCooldownSound(cfg: Config, ids: Owners, b: Books, who: Account, cid: CommitmentId)
    requires Sound(cfg, ids, b) && who in ids && ids[who] == cid && Staked(b, cid)
    requires b.commitments[cid].stake.value.cooldown.None?
    ensures Sound(cfg, ids, AfterCommitterCooldown(cfg, b, cid))
  {
    hide Sound, Weight, MulFloor;
    EntryFacts(cfg, ids, b, who, cid);
    StakeChangeKeeps(cfg, ids, b, AfterCommitterCooldown(cfg, b, cid), who, cid);
  }

  /** The committer's accrued reward is paid. */
  function AfterCommitterWithdraw(b: Books, cid: CommitmentId): Books
    requires Staked(b, cid)
  {
    var c := b.commitments[cid];
    var s := c.stake.value;
    b.(commitments := b.commitments[cid := c.(stake := Some(s.(accruedReward := 0, paid := s.paid + s.accruedReward)))])
  }

  lemma {:induction false} CommitterWithdrawSound(cfg: Config, ids: Owners, b: Books, who: Account, cid: CommitmentId)
    requires Sound(cfg, ids, b) && who in ids && ids[who] == cid && Staked(b, cid)
    ensures Sound(cfg, ids, AfterCommitterWithdraw(b, cid))
  {
    hide Sound, Weight, MulFloor;
    EntryFacts(cfg, ids, b, who, cid);
    StakeChangeKeeps(cfg, ids, b, AfterCommitterWithdraw(b, cid), who, cid);
  }

  function Unlocked(locks: map<Account, nat>, who: Account, amount: nat): map<Account, nat> {
    var total := Minus(Get(locks, who), amount);
    if total == 0 then locks - {who} else locks[who := total]
  }

  /** The stake is returned. */
  function AfterEnd(b: Books, who: Account, cid: CommitmentId): Books
    requires Staked(b, cid) && StakeOf(b.commitments[cid]) <= b.totalStake
  {
    var c := b.commitments[cid];
    b.(commitments := b.commitments[cid := c.(stake := None, delegTotal := 0,
                                              weights := NewMemory(b.epoch, NO_WEIGHTS))],
       totalStake := b.totalStake - StakeOf(c), locks := Unlocked(b.locks, who, StakeOf(c)))
  }

  lemma {:induction false} EndSound(cfg: Config, ids: Owners, b: Books, who: Account, cid: CommitmentId)
    requires Sound(cfg, ids, b) && who in ids && ids[who] == cid && Staked(b, cid)
    requires StakeOf(b.commitments[cid]) <= b.totalStake
    requires var s := b.commitments[cid].stake.value; s.cooldown.Some? && s.cooldown.value + s.period <= b.block
    ensures Sound(cfg, ids, AfterEnd(b, who, cid))
  {
    hide Sound, Weight, MulFloor;
    EntryFacts(cfg, ids, b, who, cid);
    EndKeeps(cfg, ids, b, AfterEnd(b, who, cid), who, cid);
  }

  // ----- delegators -----

  /** Delegation weights with those of `was` taken out and those of `now` put in. */
  function Rebalanced(c: Commitment, was: Option<Delegation>, now: Option<Delegation>, epoch: nat): Memory<Weights>
  {
    var v := c.weights.value;
    Recorded(c.weights, epoch,
             v.(delegReward := Minus(v.delegReward, LiveReward(was, c)) + LiveReward(now, c),
                delegSlash := Minus(v.delegSlash, LiveSlash(was, c)) + LiveSlash(now, c)))
  }

  function AfterJoin(cfg: Config, ids: Owners, b: Books, who: Account, cid: CommitmentId, amount: nat,
                     period: nat): Books
    requires cfg.Valid() && Staked(b, cid)
  {
    var c := b.commitments[cid];
    var d := Joined(cfg, amount, period, b.block, c.pool.value);
    var total := Get(b.delegatorTotal, who) + amount;
    b.(commitments := b.commitments[cid := c.(delegTotal := c.delegTotal + amount,
                                              weights := Rebalanced(c, None, Some(d), b.epoch))],
       delegations := b.delegations[(who, cid) := d],
       totalStake := b.totalStake + amount, delegatorTotal := b.delegatorTotal[who := total],
       locks := b.locks[who := total + OwnStake(ids, b.commitments, who)])
  }

  lemma {:induction false} JoinSound(cfg: Config, ids: Owners, b: Books, who: Account, cid: CommitmentId, amount: nat,
                                     period: nat)
    requires Sound(cfg, ids, b) && Staked(b, cid)
    requires (who, cid) !in b.delegations && b.commitments[cid].stake.value.cooldown.None?
    ensures Sound(cfg, ids, AfterJoin(cfg, ids, b, who, cid, amount, period))
  {
    hide Sound, Weight, MulFloor, FloorShare, CeilShare, PendingOf, StakeOk, WeighedBy, SlashDebtOk;
    EntryFacts(cfg, ids, b, who, cid);
    var c, b' := b.commitments[cid], AfterJoin(cfg, ids, b, who, cid, amount, period);
    JoinedOk(cfg, c, cid, amount, period, b.block);
    JoinedOk(cfg, b'.commitments[cid], cid, amount, period, b.block);
    hide Worth, DelegationOk, CommitmentOk;
    ReplaceKeeps(cfg, ids, b, b', who, cid, Some(b'.delegations[(who, cid)]));
  }

  function AfterAccrue(b: Books, who: Account, cid: CommitmentId): Books
    requires Delegates(b, who, cid)
  {
    b.(delegations := b.delegations[(who, cid) := AccruedIn(b.delegations[(who, cid)], b.commitments[cid].pool)])
  }

  lemma {:induction false} AccrueSound(cfg: Config, ids: Owners, b: Books, who: Account, cid: CommitmentId)
    requires Sound(cfg, ids, b) && Delegates(b, who, cid)
    ensures Sound(cfg, ids, AfterAccrue(b, who, cid))
  {
    hide Sound;
    EntryFacts(cfg, ids, b, who, cid);
    var c, d := b.commitments[cid], b.delegations[(who, cid)];
    AccruedOk(cfg, d, c, cid, b.block);
    assert AccruedIn(d, c.pool).stake.created == d.stake.created;
    hide Worth, DelegationOk, CommitmentOk, AccruedIn, Get;
    ReplaceKeeps(cfg, ids, b, AfterAccrue(b, who, cid), who, cid, Some(AccruedIn(d, c.pool)));
  }

  /** The stake of a delegation lowered by at most `target`. */
  function AfterShrink(cfg: Config, ids: Owners, b: Books, who: Account, cid: CommitmentId, target: nat): Books
    requires cfg.Valid() && Delegates(b, who, cid)
    requires Shrinkage(b, who, cid, target) <= b.totalStake
  {
    var c, d := b.commitments[cid], b.delegations[(who, cid)];
    var cut := Shrinkage(b, who, cid, target);
    var d' := Shrunk(cfg, d, c, d.stake.amount - cut);
    var c' := if c.stake.None? then c
              else c.(delegTotal := Minus(c.delegTotal, cut), weights := Rebalanced(c, Some(d), Some(d'), b.epoch));
    var total := Minus(Get(b.delegatorTotal, who), cut);
    b.(commitments := b.commitments[cid := c'], delegations := b.delegations[(who, cid) := d'],
       totalStake := b.totalStake - cut, delegatorTotal := b.delegatorTotal[who := total],
       locks := b.locks[who := total + OwnStake(ids, b.commitments, who)])
  }

  function Shrinkage(b: Books, who: Account, cid: CommitmentId, target: nat): (r: nat)
    requires Delegates(b, who, cid)
    ensures r <= b.delegations[(who, cid)].stake.amount && r <= target
  {
    var amount := b.delegations[(who, cid)].stake.amount;
    if target > amount then amount else target
  }

  lemma {:induction false} ShrinkSound(cfg: Config, ids: Owners, b: Books, who: Account, cid: CommitmentId, target: nat)
    requires Sound(cfg, ids, b) && Delegates(b, who, cid)
    requires Shrinkage(b, who, cid, target) <= b.totalStake
    ensures Sound(cfg, ids, AfterShrink(cfg, ids, b, who, cid, target))
  {
    hide Sound, DelegationOk, CommitmentOk, Shrunk, Worth;
    ShrinkFacts(cfg, ids, b, who, cid, target);
    EntryCounted(cfg, ids, b, who, cid);
    var b' := AfterShrink(cfg, ids, b, who, cid, target);
    ReplaceKeeps(cfg, ids, b, b', who, cid, Some(b'.delegations[(who, cid)]));
  }

  lemma {:induction false} ShrinkFacts(cfg: Config, ids: Owners, b: Books, who: Account, cid: CommitmentId, target: nat)
    requires Sound(cfg, ids, b) && Delegates(b, who, cid)
    ensures cfg.Valid() && Shrinkage(b, who, cid, target) <= b.delegations[(who, cid)].stake.amount
    ensures b.commitments[cid].weights.time <= b.epoch
    ensures Get(b.locks, who) == Get(b.delegatorTotal, who) + OwnStake(ids, b.commitments, who)
    ensures var c, d := b.commitments[cid], b.delegations[(who, cid)];
      var amount := d.stake.amount - Shrinkage(b, who, cid, target);
      var d' := Shrunk(cfg, d, c, amount);
      && CommitmentOk(cfg, c, b.block, b.epoch)
      && (forall c': Commitment :: c'.stake == c.stake && c'.pool == c.pool ==> DelegationOk(cfg, d', c', b.block))
      && Worth(Some(d'), cid, c.pool) <= Worth(Some(d), cid, c.pool)
      && d'.rewardWeight <= d.rewardWeight && d'.slashWeight <= d.slashWeight
      && d'.stake.amount == amount && d'.stake.created == d.stake.created
  {
    hide Sound, Weight, MulFloor, FloorShare, CeilShare, PendingOf, StakeOk, WeighedBy, SlashDebtOk, Worth;
    EntryFacts(cfg, ids, b, who, cid);
    var c, d := b.commitments[cid], b.delegations[(who, cid)];
    ShrunkOk(cfg, d, c, cid, b.block, b.epoch, d.stake.amount - Shrinkage(b, who, cid, target));
  }

  /** The slash that could not be taken stays accrued. */
  function AfterRemainder(b: Books, who: Account, cid: CommitmentId, remaining: nat): Books
    requires Delegates(b, who, cid)
  {
    var d := b.delegations[(who, cid)];
    b.(delegations := b.delegations[(who, cid) := d.(stake := d.stake.(accruedSlash := remaining))])
  }

  /** The accrued reward is paid. */
  function AfterPayout(b: Books, who: Account, cid: CommitmentId): Books
    requires Delegates(b, who, cid)
  {
    var d := b.delegations[(who, cid)];
    var r := d.stake.accruedReward;
    b.(delegations := b.delegations[(who, cid) := d.(stake := d.stake.(accruedReward := 0, paid := d.stake.paid + r))],
       paid := b.paid[cid := Get(b.paid, cid) + r])
  }

  /** Accrued and paid amounts do not matter to the state of a delegation. */
  lemma {:induction false} SameOk(cfg: Config, d: Delegation, d': Delegation, c: Commitment, block: nat)
    requires cfg.Valid() && DelegationOk(cfg, d, c, block)
    requires d' == d.(stake := d.stake.(accruedReward := d'.stake.accruedReward, accruedSlash := d'.stake.accruedSlash,
                                        paid := d'.stake.paid))
    ensures DelegationOk(cfg, d', c, block)
  {
  }

  lemma {:induction false} RemainderSound(cfg: Config, ids: Owners, b: Books, who: Account, cid: CommitmentId,
                                          remaining: nat)
    requires Sound(cfg, ids, b) && Delegates(b, who, cid)
    ensures Sound(cfg, ids, AfterRemainder(b, who, cid, remaining))
  {
    hide Sound, Weight, MulFloor, FloorShare, CeilShare, PendingOf, StakeOk, WeighedBy, SlashDebtOk;
    EntryFacts(cfg, ids, b, who, cid);
    var b' := AfterRemainder(b, who, cid, remaining);
    var d, d', pool := b.delegations[(who, cid)], b'.delegations[(who, cid)], b.commitments[cid].pool;
    SameOk(cfg, d, d', b.commitments[cid], b.block);
    assert Worth(Some(d'), cid, pool) == Worth(Some(d), cid, pool);
    hide Worth, DelegationOk, CommitmentOk, Get;
    ReplaceKeeps(cfg, ids, b, b', who, cid, Some(d'));
  }

  lemma {:induction false} PayoutSound(cfg: Config, ids: Owners, b: Books, who: Account, cid: CommitmentId)
    requires Sound(cfg, ids, b) && Delegates(b, who, cid)
    ensures Sound(cfg, ids, AfterPayout(b, who, cid))
  {
    hide Sound, Weight, MulFloor, FloorShare, CeilShare, PendingOf, StakeOk, WeighedBy, SlashDebtOk;
    EntryFacts(cfg, ids, b, who, cid);
    var b' := AfterPayout(b, who, cid);
    var d, d', pool := b.delegations[(who, cid)], b'.delegations[(who, cid)], b.commitments[cid].pool;
    SameOk(cfg, d, d', b.commitments[cid], b.block);
    assert Worth(Some(d'), cid, pool) + PER_TOKEN * d.stake.accruedReward == Worth(Some(d), cid, pool);
    hide Worth, DelegationOk, CommitmentOk;
    ReplaceKeeps(cfg, ids, b, b', who, cid, Some(d'));
  }

  /** A live delegation enters its cooldown, back-dated to the committer's when that has begun. */
  function AfterCool(cfg: Config, b: Books, who: Account, cid: CommitmentId): Books
    requires cfg.Valid() && Delegates(b, who, cid) && Staked(b, cid)
  {
    var c, d := b.commitments[cid], b.delegations[(who, cid)];
    var start := if c.stake.value.cooldown.Some? then c.stake.value.cooldown.value else b.block;
    var d' := Cooled(cfg, d, c, start);
    b.(commitments := b.commitments[cid := c.(weights := Rebalanced(c, Some(d), Some(d'), b.epoch))],
       delegations := b.delegations[(who, cid) := d'])
  }

  lemma {:induction false} CoolSound(cfg: Config, ids: Owners, b: Books, who: Account, cid: CommitmentId)
    requires Sound(cfg, ids, b) && Delegates(b, who, cid) && Staked(b, cid)
    requires Live(b.delegations[(who, cid)], b.commitments[cid]) && b.delegations[(who, cid)].stake.cooldown.None?
    ensures Sound(cfg, ids, AfterCool(cfg, b, who, cid))
  {
    hide Sound, Weight, MulFloor, FloorShare, CeilShare, PendingOf, StakeOk, WeighedBy, SlashDebtOk;
    EntryFacts(cfg, ids, b, who, cid);
    var c, d := b.commitments[cid], b.delegations[(who, cid)];
    var b' := AfterCool(cfg, b, who, cid);
    var d' := b'.delegations[(who, cid)];
    EntryCounted(cfg, ids, b, who, cid);
    CooledOk(cfg, d, c, cid, b.block, b.epoch,
             if c.stake.value.cooldown.Some? then c.stake.value.cooldown.value else b.block);
    hide Worth;
    assert DelegationOk(cfg, d', b'.commitments[cid], b.block);
    hide DelegationOk, CommitmentOk, Cooled, Get;
    ReplaceKeeps(cfg, ids, b, b', who, cid, Some(d'));
  }

  /** The delegation is taken out and its stake returned. */
  function AfterLeave(b: Books, who: Account, cid: CommitmentId): Books
    requires Delegates(b, who, cid)
    requires b.delegations[(who, cid)].stake.amount <= b.totalStake
  {
    var c, d := b.commitments[cid], b.delegations[(who, cid)];
    var c' := if !Live(d, c) then c
              else c.(delegTotal := Minus(c.delegTotal, d.stake.amount),
                      weights := Rebalanced(c, Some(d), None, b.epoch));
    b.(commitments := b.commitments[cid := c'], delegations := b.delegations - {(who, cid)},
       totalStake := b.totalStake - d.stake.amount,
       delegatorTotal := b.delegatorTotal[who := Minus(Get(b.delegatorTotal, who), d.stake.amount)],
       locks := Unlocked(b.locks, who, d.stake.amount))
  }

  lemma {:induction false} LeaveSound(cfg: Config, ids: Owners, b: Books, who: Account, cid: CommitmentId)
    requires Sound(cfg, ids, b) && Delegates(b, who, cid)
    requires b.delegations[(who, cid)].stake.amount <= b.totalStake
    ensures Sound(cfg, ids, AfterLeave(b, who, cid))
  {
    hide Sound, Weight, MulFloor, FloorShare, CeilShare, PendingOf, StakeOk, WeighedBy, SlashDebtOk;
    EntryFacts(cfg, ids, b, who, cid);
    EntryCounted(cfg, ids, b, who, cid);
    hide DelegationOk, CommitmentOk, Value;
    ReplaceKeeps(cfg, ids, b, AfterLeave(b, who, cid), who, cid, None);
  }

  // ----- pools -----

  /** What a reward raises the reward per weight by; nothing without a reward or a weight to divide by. */
  function Raise(reward: nat, divisor: nat): nat {
    if divisor == 0 || reward == 0 then 0 else PerWeight(reward, divisor)
  }

  /** A committer's share is accrued and the delegators' reward spread over `divisor`. */
  function AfterDistribute(b: Books, cid: CommitmentId, selfAmount: nat, reward: nat, divisor: nat): Books
    requires Staked(b, cid)
  {
    var c := b.commitments[cid];
    var s := c.stake.value;
    var extra := Raise(reward, divisor);
    b.(commitments := b.commitments[cid := c.(
         stake := Some(s.(accruedReward := s.accruedReward + selfAmount)), pool := RaisedBoth(c.pool, extra, 0))],
       distributed := b.distributed[cid := Get(b.distributed, cid) + reward],
       excess := b.excess[cid := Get(b.excess, cid) + Minus(c.weights.value.delegReward * extra, PER_TOKEN * reward)])
  }

  lemma {:induction false} DistributeSound(cfg: Config, ids: Owners, b: Books, cid: CommitmentId, selfAmount: nat,
                                           reward: nat, divisor: nat)
    requires Sound(cfg, ids, b) && Staked(b, cid)
    ensures Sound(cfg, ids, AfterDistribute(b, cid, selfAmount, reward, divisor))
  {
    hide Sound, Weight, MulFloor, Raise;
    EntryFacts(cfg, ids, b, 0, cid);
    var b' := AfterDistribute(b, cid, selfAmount, reward, divisor);
    assert CommitmentOk(cfg, b'.commitments[cid], b.block, b.epoch);
    var extra := Raise(reward, divisor);
    hide CommitmentOk, Get, RaisedBoth, Minus;
    PoolRaiseKeeps(cfg, ids, b, b', cid, reward, extra, 0);
  }

  /** The delegators' part of a slash is spread over the pool, and the slash dated. */
  function AfterPoolSlash(b: Books, cid: CommitmentId, increase: nat, lastEpoch: nat): Books
    requires Staked(b, cid)
  {
    var c := b.commitments[cid];
    b.(commitments := b.commitments[cid := c.(pool := RaisedBoth(c.pool, 0, increase), lastSlashing := lastEpoch)])
  }

  lemma {:induction false} PoolSlashSound(cfg: Config, ids: Owners, b: Books, cid: CommitmentId, increase: nat,
                                          lastEpoch: nat)
    requires Sound(cfg, ids, b) && Staked(b, cid)
    ensures Sound(cfg, ids, AfterPoolSlash(b, cid, increase, lastEpoch))
  {
    hide Sound, Weight, MulFloor;
    EntryFacts(cfg, ids, b, 0, cid);
    var b' := AfterPoolSlash(b, cid, increase, lastEpoch);
    assert CommitmentOk(cfg, b'.commitments[cid], b.block, b.epoch);
    hide CommitmentOk;
    var b1 := b'.(distributed := b.distributed[cid := Get(b.distributed, cid)],
                  excess := b.excess[cid := Get(b.excess, cid)]);
    PoolRaiseKeeps(cfg, ids, b, b1, cid, 0, 0, increase);
    SameLedger(cfg, ids, b1, b');
  }

  /** Only the amounts in the ledger matter, not whether a zero is written down. */
  lemma {:induction false} SameLedger(cfg: Config, ids: Owners, b: Books, b': Books)
    requires Sound(cfg, ids, b)
    requires b' == b.(distributed := b'.distributed, excess := b'.excess)
    requires forall c :: Get(b'.distributed, c) == Get(b.distributed, c) && Get(b'.excess, c) == Get(b.excess, c)
    ensures Sound(cfg, ids, b')
  {
    hide Weight, MulFloor, Sum, StakeSum, StakeOk, Get, DelegationOk, CommitmentOk;
    forall c | c in b'.commitments
      ensures WeightsAreSums(b'.delegations, c, b'.commitments[c]) && Solvent(b', c, b'.commitments[c])
    {
      assert WeightsAreSums(b.delegations, c, b.commitments[c]) && Solvent(b, c, b.commitments[c]);
    }
  }
}
