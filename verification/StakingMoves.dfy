/** What each operation does to one delegation, and why the books allow it. */
module StakingMoves {
  import opened Wrappers
  import opened StakingBase
  import opened StakingBooks

  /** A new delegation owes what its weight would have earned so far, rounded up. */
  function Joined(cfg: Config, amount: nat, period: nat, block: nat, p: PoolReward): Delegation
    requires cfg.Valid()
  {
    var w := Weight(cfg, amount, period);
    Delegation(NewStake(amount, block, period), w, w, CeilShare(w, p.rewardPerWeight), FloorShare(w, p.slashPerWeight))
  }

  /** Debts as of now. */
  function Settled(d: Delegation, p: PoolReward): Delegation {
    d.(rewardDebt := CeilShare(d.rewardWeight, p.rewardPerWeight),
       slashDebt := FloorShare(d.slashWeight, p.slashPerWeight))
  }

  /** Rewards and slashes since the last settlement are accrued. */
  function AccruedBy(d: Delegation, p: PoolReward): Delegation {
    var reward := Minus(FloorShare(d.rewardWeight, p.rewardPerWeight), d.rewardDebt);
    var slash := Minus(FloorShare(d.slashWeight, p.slashPerWeight), d.slashDebt);
    Settled(d.(stake := d.stake.(accruedReward := d.stake.accruedReward + reward,
                                 accruedSlash := d.stake.accruedSlash + slash)), p)
  }

  function AccruedIn(d: Delegation, pool: Memory<PoolReward>): Delegation {
    var p := pool.GetLatest(d.stake.created);
    if p.Some? then AccruedBy(d, p.value) else d
  }

  function Resized(cfg: Config, s: Stake, amount: nat): Stake {
    s.(amount := amount, rewardable := if s.cooldown.Some? then MulFloor(cfg.cooldownRatio, amount) else amount)
  }

  function Reweigh(cfg: Config, d: Delegation, p: PoolReward): Delegation
    requires cfg.Valid()
  {
    Settled(d.(rewardWeight := Weight(cfg, d.stake.rewardable, d.stake.period),
               slashWeight := Weight(cfg, d.stake.amount, d.stake.period)), p)
  }

  /** A delegation after its stake shrank to `amount`: reweighed only if it is live. */
  function Shrunk(cfg: Config, d: Delegation, c: Commitment, amount: nat): Delegation
    requires cfg.Valid()
  {
    var d' := d.(stake := Resized(cfg, d.stake, amount));
    if Live(d, c) then Reweigh(cfg, d', c.pool.value) else d'
  }

  /** A live delegation entering its cooldown at `start`. */
  function Cooled(cfg: Config, d: Delegation, c: Commitment, start: nat): Delegation
    requires cfg.Valid()
  {
    var s := d.stake.(cooldown := Some(start), rewardable := MulFloor(cfg.cooldownRatio, d.stake.amount));
    var w := Weight(cfg, s.rewardable, s.period);
    d.(stake := s, rewardWeight := w, rewardDebt := CeilShare(w, c.pool.value.rewardPerWeight))
  }

  /** A delegation with rewardable amount beyond its amount is corrected; see `SanitizeIdle`. */
  function Sanitized(cfg: Config, d: Delegation): Delegation
    requires cfg.Valid()
  {
    if d.stake.rewardable <= d.stake.amount then d
    else
      var s := Resized(cfg, d.stake, d.stake.amount);
      d.(stake := s, rewardWeight := Weight(cfg, s.rewardable, s.period))
  }

  lemma {:induction false} SanitizeIdle(cfg: Config, d: Delegation)
    requires cfg.Valid() && StakeOk(cfg, d.stake)
    ensures Sanitized(cfg, d) == d
  {
    RewardableWithinAmount(cfg, d.stake);
  }

  /** Settled debts leave nothing pending. */
  lemma {:induction false} SettledWorth(d: Delegation, cid: CommitmentId, pool: Memory<PoolReward>)
    requires pool.GetLatest(d.stake.created).Some?
    requires d.rewardDebt == CeilShare(d.rewardWeight, pool.GetLatest(d.stake.created).value.rewardPerWeight)
    ensures Worth(Some(d), cid, pool) == PER_TOKEN * d.stake.accruedReward
  {
    NothingPending(d.rewardWeight, pool.GetLatest(d.stake.created).value.rewardPerWeight);
  }

  lemma {:induction false} JoinedOk(cfg: Config, c: Commitment, cid: CommitmentId, amount: nat, period: nat, block: nat)
    requires cfg.Valid() && c.stake.Some? && c.stake.value.cooldown.None? && c.pool.time <= block
    ensures var d := Joined(cfg, amount, period, block, c.pool.value);
      DelegationOk(cfg, d, c, block) && Worth(Some(d), cid, c.pool) == 0
  {
    SettledWorth(Joined(cfg, amount, period, block, c.pool.value), cid, c.pool);
  }

  /** Accruing moves pending to accrued, rounding down, and a slash debt is never above the slash. */
  lemma {:induction false} AccruedOk(cfg: Config, d: Delegation, c: Commitment, cid: CommitmentId, block: nat)
    requires cfg.Valid() && DelegationOk(cfg, d, c, block)
    ensures var d' := AccruedIn(d, c.pool);
      && DelegationOk(cfg, d', c, block)
      && Worth(Some(d'), cid, c.pool) <= Worth(Some(d), cid, c.pool)
      && d'.rewardWeight == d.rewardWeight && d'.slashWeight == d.slashWeight && d'.stake.amount == d.stake.amount
  {
    hide FloorShare, CeilShare, Weight, MulFloor, PendingOf;
    var p := c.pool.GetLatest(d.stake.created);
    if p.Some? {
      var d' := AccruedIn(d, c.pool);
      SettledWorth(d', cid, c.pool);
      AccrualCovered(d.rewardWeight, p.value.rewardPerWeight, d.rewardDebt);
    }
  }

  lemma {:induction false} ResizedWeights(cfg: Config, s: Stake, amount: nat)
    requires cfg.Valid() && StakeOk(cfg, s) && amount <= s.amount
    ensures StakeOk(cfg, Resized(cfg, s, amount))
    ensures Weight(cfg, Resized(cfg, s, amount).rewardable, s.period) <= Weight(cfg, s.rewardable, s.period)
    ensures Weight(cfg, amount, s.period) <= Weight(cfg, s.amount, s.period)
  {
    MulFloorMonotone(cfg.cooldownRatio, amount, s.amount);
    WeightMonotone(cfg, Resized(cfg, s, amount).rewardable, s.rewardable, s.period);
    WeightMonotone(cfg, amount, s.amount, s.period);
  }

  /** Shrinking lowers live weights and promises nothing new. */
  lemma {:induction false} ShrunkOk(cfg: Config, d: Delegation, c: Commitment, cid: CommitmentId, block: nat,
                                    epoch: nat, amount: nat)
    requires cfg.Valid() && DelegationOk(cfg, d, c, block) && CommitmentOk(cfg, c, block, epoch)
    requires amount <= d.stake.amount
    ensures var d' := Shrunk(cfg, d, c, amount);
      && DelegationOk(cfg, d', c, block)
      && Worth(Some(d'), cid, c.pool) <= Worth(Some(d), cid, c.pool)
      && d'.rewardWeight <= d.rewardWeight && d'.slashWeight <= d.slashWeight
      && d'.stake.amount == amount && Live(d', c) == Live(d, c)
  {
    ResizedWeights(cfg, d.stake, amount);
    hide FloorShare, CeilShare, StakeOk, Weight, MulFloor, PendingOf;
    if Live(d, c) {
      SettledWorth(Shrunk(cfg, d, c, amount), cid, c.pool);
    }
  }

  lemma {:induction false} CooledOk(cfg: Config, d: Delegation, c: Commitment, cid: CommitmentId, block: nat,
                                    epoch: nat, start: nat)
    requires cfg.Valid() && DelegationOk(cfg, d, c, block) && CommitmentOk(cfg, c, block, epoch)
    requires Live(d, c)
    ensures var d' := Cooled(cfg, d, c, start);
      && DelegationOk(cfg, d', c, block)
      && Worth(Some(d'), cid, c.pool) <= Worth(Some(d), cid, c.pool)
      && (d.stake.cooldown.None? ==> d'.rewardWeight <= d.rewardWeight)
      && d'.slashWeight == d.slashWeight && d'.stake.amount == d.stake.amount && Live(d', c)
  {
    var d' := Cooled(cfg, d, c, start);
    MulFloorBound(cfg.cooldownRatio, d.stake.amount);
    WeightMonotone(cfg, d'.stake.rewardable, d.stake.amount, d.stake.period);
    SettledWorth(d', cid, c.pool);
    hide FloorShare, CeilShare, Weight, MulFloor, PendingOf;
  }
}
