/**
 * The books of staking as one value, what holds of them in every reachable state, and why each kind
 * of change keeps it: a delegation replaced, a committer's stake changed, a pool raised, a
 * commitment opened or ended, time passing.
 *
 * Five entries are not in the chain's storage. `paid` and `distributed` are, per commitment, the
 * delegator rewards taken out of and put into its pool. `excess` is what distributions with too
 * small a divisor promised beyond the reward, in units of one `PER_TOKEN`th. `again` are rewards of
 * the pool that were transferred a second time. `overshoot` is by how much committer slashes went
 * beyond the stakes they hit.
 */
module StakingBooks {
  import opened Wrappers
  import opened StakingBase
  import opened StakingSums

  datatype Books = Books(
    commitments: Commitments, delegations: Delegations, delegatorTotal: map<Account, nat>, totalStake: nat,
    locks: map<Account, nat>, block: nat, epoch: nat,
    paid: map<CommitmentId, nat>, distributed: map<CommitmentId, nat>, excess: map<CommitmentId, nat>,
    again: map<CommitmentId, nat>, overshoot: nat)

  /** Which account owns which commitment id. */
  type Owners = map<Account, CommitmentId>

  ghost predicate Distinct(ids: Owners) {
    forall a, b :: a in ids && b in ids && ids[a] == ids[b] ==> a == b
  }

  predicate Live(d: Delegation, c: Commitment) {
    c.stake.Some? && c.stake.value.created <= d.stake.created
  }

  /** The rewardable amount is all of it, or the reduced part during a cooldown. */
  predicate StakeOk(cfg: Config, s: Stake) {
    s.rewardable == if s.cooldown.Some? then MulFloor(cfg.cooldownRatio, s.amount) else s.amount
  }

  predicate WeighedBy(cfg: Config, d: Delegation)
    requires cfg.Valid()
  {
    && d.rewardWeight == Weight(cfg, d.stake.rewardable, d.stake.period)
    && d.slashWeight == Weight(cfg, d.stake.amount, d.stake.period)
  }

  predicate DelegationOk(cfg: Config, d: Delegation, c: Commitment, block: nat)
    requires cfg.Valid()
  {
    && StakeOk(cfg, d.stake) && d.stake.created <= block
    && (Live(d, c) ==> WeighedBy(cfg, d))
    && (Live(d, c) && c.stake.value.cooldown.Some? ==> d.stake.created <= c.stake.value.cooldown.value)
    && (c.stake.None? ==> d.stake.created < block)
    && SlashDebtOk(d, c.pool)
  }

  predicate SlashDebtOk(d: Delegation, pool: Memory<PoolReward>) {
    var p := pool.GetLatest(d.stake.created);
    p.Some? ==> d.slashDebt <= FloorShare(d.slashWeight, p.value.slashPerWeight)
  }

  predicate CommitmentOk(cfg: Config, c: Commitment, block: nat, epoch: nat) {
    && c.weights.time <= epoch && c.pool.time <= block
    && (c.pool.past.Some? ==> c.pool.past.value.0 < c.pool.time)
    && match c.stake
       case None => c.pool.time < block
       case Some(s) =>
         && StakeOk(cfg, s) && s.created == c.pool.time && 1 <= s.period
         && (s.cooldown.Some? ==> s.created <= s.cooldown.value <= block)
  }

  ghost predicate AllCommitmentsOk(cfg: Config, b: Books) {
    forall c :: c in b.commitments ==> CommitmentOk(cfg, b.commitments[c], b.block, b.epoch)
  }

  ghost predicate AllDelegationsOk(cfg: Config, b: Books)
    requires cfg.Valid()
  {
    forall k :: k in b.delegations ==>
      k.1 in b.commitments && DelegationOk(cfg, b.delegations[k], b.commitments[k.1], b.block)
  }

  /** The current delegation weights are the sums over the live delegations. */
  ghost predicate WeightsAreSums(ds: Delegations, cid: CommitmentId, c: Commitment) {
    c.stake.Some? ==>
      && c.weights.value.delegReward == Sum(ds, RewardWeightSince(cid, c.stake.value.created))
      && c.weights.value.delegSlash == Sum(ds, SlashWeightSince(cid, c.stake.value.created))
  }

  ghost predicate AllWeightsAreSums(b: Books) {
    forall c :: c in b.commitments ==> WeightsAreSums(b.delegations, c, b.commitments[c])
  }

  ghost predicate TotalsAreSums(b: Books) {
    && (forall a :: Get(b.delegatorTotal, a) == Sum(b.delegations, AmountOf(a)))
    && b.totalStake + b.overshoot == StakeSum(b.commitments) + Sum(b.delegations, AnyAmount)
  }

  function OwnStake(ids: Owners, cs: Commitments, who: Account): nat {
    if who in ids && ids[who] in cs then StakeOf(cs[ids[who]]) else 0
  }

  ghost predicate LocksAreTotals(ids: Owners, b: Books) {
    forall a :: Get(b.locks, a) == Get(b.delegatorTotal, a) + OwnStake(ids, b.commitments, a)
  }

  /** Rewards paid, accrued and pending are covered by rewards distributed. */
  ghost predicate Solvent(b: Books, cid: CommitmentId, c: Commitment) {
    PER_TOKEN * (Get(b.paid, cid) + Sum(b.delegations, Accrued(cid))) + Sum(b.delegations, Pending(cid, c.pool))
    <= PER_TOKEN * Get(b.distributed, cid) + Get(b.excess, cid)
  }

  ghost predicate AllSolvent(b: Books) {
    && (forall c :: c in b.commitments ==> Solvent(b, c, b.commitments[c]))
    && (forall c :: c !in b.commitments ==> Get(b.paid, c) == 0)
  }

  /** What holds in every reachable state. */
  ghost predicate Sound(cfg: Config, ids: Owners, b: Books) {
    && cfg.Valid() && Distinct(ids)
    && AllCommitmentsOk(cfg, b) && AllDelegationsOk(cfg, b) && AllWeightsAreSums(b)
    && TotalsAreSums(b) && LocksAreTotals(ids, b) && AllSolvent(b)
  }

  /** Sanitizing never has anything to correct. */
  lemma {:induction false} RewardableWithinAmount(cfg: Config, s: Stake)
    requires cfg.Valid() && StakeOk(cfg, s)
    ensures s.rewardable <= s.amount
  {
    MulFloorBound(cfg.cooldownRatio, s.amount);
  }

  // ----- a delegation replaced, added or removed -----

  function AmountIn(d: Option<Delegation>): nat {
    if d.Some? then d.value.stake.amount else 0
  }

  function Existing(ds: Delegations, k: Key): Option<Delegation> {
    if k in ds then Some(ds[k]) else None
  }

  /** The worth of a delegation to the ledger: accrued and pending. */
  function Worth(d: Option<Delegation>, cid: CommitmentId, pool: Memory<PoolReward>): nat {
    if d.None? then 0
    else PER_TOKEN * d.value.stake.accruedReward + Value(Pending(cid, pool), (0, cid), d.value)
  }

  function LiveReward(d: Option<Delegation>, c: Commitment): nat {
    if d.Some? && Live(d.value, c) then d.value.rewardWeight else 0
  }

  function LiveSlash(d: Option<Delegation>, c: Commitment): nat {
    if d.Some? && Live(d.value, c) then d.value.slashWeight else 0
  }

  /** Commitments that differ in the recorded delegation weights only, by what `was` and `now` weigh. */
  ghost predicate Reweighed(c: Commitment, c': Commitment, was: Option<Delegation>, now: Option<Delegation>,
                            epoch: nat)
  {
    && c' == c.(weights := c'.weights, delegTotal := c'.delegTotal) && c'.weights.time <= epoch
    && (c'.weights == c.weights
        || Some(c'.weights) == c.weights.SetAt(epoch, c.weights.value.(delegReward := c'.weights.value.delegReward,
                                                                       delegSlash := c'.weights.value.delegSlash)))
    && (c.stake.Some? ==>
          && c'.weights.value.delegReward + LiveReward(was, c) == c.weights.value.delegReward + LiveReward(now, c)
          && c'.weights.value.delegSlash + LiveSlash(was, c) == c.weights.value.delegSlash + LiveSlash(now, c))
  }

  /** One delegation of `who` to `cid` changes, and everything recorded about it with it. */
  ghost predicate Replaced(cfg: Config, ids: Owners, b: Books, b': Books, who: Account, cid: CommitmentId,
                           now: Option<Delegation>)
    requires cfg.Valid() && cid in b.commitments
  {
    var k := (who, cid);
    var was := Existing(b.delegations, k);
    && b'.delegations == Put(b.delegations, k, now)
    && cid in b'.commitments && b'.commitments == b.commitments[cid := b'.commitments[cid]]
    && Reweighed(b.commitments[cid], b'.commitments[cid], was, now, b.epoch)
    && b'.block == b.block && b'.epoch == b.epoch
    && (now.Some? ==> DelegationOk(cfg, now.value, b'.commitments[cid], b.block))
    && (forall a :: a != who ==> Get(b'.delegatorTotal, a) == Get(b.delegatorTotal, a))
    && Get(b'.delegatorTotal, who) + AmountIn(was) == Get(b.delegatorTotal, who) + AmountIn(now)
    && b'.totalStake + AmountIn(was) == b.totalStake + AmountIn(now) && b'.overshoot == b.overshoot
    && (forall a :: a != who ==> Get(b'.locks, a) == Get(b.locks, a))
    && Get(b'.locks, who) == Get(b'.delegatorTotal, who) + OwnStake(ids, b.commitments, who)
    && (forall c :: c != cid ==> Get(b'.paid, c) == Get(b.paid, c))
    && PER_TOKEN * Get(b'.paid, cid) + Worth(now, cid, b.commitments[cid].pool)
       <= PER_TOKEN * Get(b.paid, cid) + Worth(was, cid, b.commitments[cid].pool)
    && b'.distributed == b.distributed && b'.excess == b.excess
  }

  lemma {:induction false} ReplaceOthers(ds: Delegations, k: Key, now: Option<Delegation>, c: CommitmentId, t: nat,
                                         pool: Memory<PoolReward>)
    requires c != k.1
    ensures var ds' := Put(ds, k, now);
      && Sum(ds', RewardWeightSince(c, t)) == Sum(ds, RewardWeightSince(c, t))
      && Sum(ds', SlashWeightSince(c, t)) == Sum(ds, SlashWeightSince(c, t))
      && Sum(ds', Accrued(c)) == Sum(ds, Accrued(c))
      && Sum(ds', Pending(c, pool)) == Sum(ds, Pending(c, pool))
  {
    SumPut(ds, k, now, RewardWeightSince(c, t));
    SumPut(ds, k, now, SlashWeightSince(c, t));
    SumPut(ds, k, now, Accrued(c));
    SumPut(ds, k, now, Pending(c, pool));
    hide Sum, Put, PendingOf;
  }

  lemma {:induction false} ReplaceWeights(b: Books, c': Commitment, who: Account, cid: CommitmentId,
                                          now: Option<Delegation>)
    requires cid in b.commitments && AllWeightsAreSums(b)
    requires Reweighed(b.commitments[cid], c', Existing(b.delegations, (who, cid)), now, b.epoch)
    ensures WeightsAreSums(Put(b.delegations, (who, cid), now), cid, c')
  {
    var k := (who, cid);
    if c'.stake.Some? {
      var t := c'.stake.value.created;
      SumPut(b.delegations, k, now, RewardWeightSince(cid, t));
      SumPut(b.delegations, k, now, SlashWeightSince(cid, t));
      hide Sum, Put;
      assert WeightsAreSums(b.delegations, cid, b.commitments[cid]);
    }
  }

  lemma {:induction false} ReplaceSolvent(b: Books, b': Books, who: Account, cid: CommitmentId, now: Option<Delegation>)
    requires cid in b.commitments && cid in b'.commitments && b'.commitments[cid].pool == b.commitments[cid].pool
    requires Solvent(b, cid, b.commitments[cid])
    requires b'.delegations == Put(b.delegations, (who, cid), now)
    requires b'.distributed == b.distributed && b'.excess == b.excess
    requires PER_TOKEN * Get(b'.paid, cid) + Worth(now, cid, b.commitments[cid].pool)
          <= PER_TOKEN * Get(b.paid, cid) + Worth(Existing(b.delegations, (who, cid)), cid, b.commitments[cid].pool)
    ensures Solvent(b', cid, b'.commitments[cid])
  {
    var k, pool := (who, cid), b.commitments[cid].pool;
    SumPut(b.delegations, k, now, Accrued(cid));
    SumPut(b.delegations, k, now, Pending(cid, pool));
    hide Sum, Put, PendingOf, Get;
  }

  lemma {:induction false} ReplaceTotals(b: Books, b': Books, who: Account, cid: CommitmentId, now: Option<Delegation>)
    requires TotalsAreSums(b) && cid in b.commitments
    requires b'.delegations == Put(b.delegations, (who, cid), now)
    requires cid in b'.commitments && b'.commitments == b.commitments[cid := b'.commitments[cid]]
    requires b'.commitments[cid].stake == b.commitments[cid].stake
    requires forall a :: a != who ==> Get(b'.delegatorTotal, a) == Get(b.delegatorTotal, a)
    requires var was := Existing(b.delegations, (who, cid));
      && Get(b'.delegatorTotal, who) + AmountIn(was) == Get(b.delegatorTotal, who) + AmountIn(now)
      && b'.totalStake + AmountIn(was) == b.totalStake + AmountIn(now) && b'.overshoot == b.overshoot
    ensures TotalsAreSums(b')
  {
    var k := (who, cid);
    forall a
      ensures Get(b'.delegatorTotal, a) == Sum(b'.delegations, AmountOf(a))
    {
      SumPut(b.delegations, k, now, AmountOf(a));
    }
    SumPut(b.delegations, k, now, AnyAmount);
    StakePut(b.commitments, cid, b'.commitments[cid]);
  }

  lemma {:induction false} ReplaceKeeps(cfg: Config, ids: Owners, b: Books, b': Books, who: Account, cid: CommitmentId,
                                        now: Option<Delegation>)
    requires Sound(cfg, ids, b) && cid in b.commitments && Replaced(cfg, ids, b, b', who, cid, now)
    ensures Sound(cfg, ids, b')
  {
    ReplaceLocks(cfg, ids, b, b', who, cid, now);
    hide Sum, StakeSum, Worth, Get, Value, DelegationOk, LocksAreTotals, AllWeightsAreSums, AllSolvent, TotalsAreSums,
         AllCommitmentsOk, AllDelegationsOk, OwnStake, Put, Distinct;
    ReplaceTotals(b, b', who, cid, now);
    ReplaceEntries(cfg, b, b', who, cid, now);
    ReplaceRest(b, b', who, cid, now);
  }

  lemma {:induction false} ReplaceLocks(cfg: Config, ids: Owners, b: Books, b': Books, who: Account, cid: CommitmentId,
                                        now: Option<Delegation>)
    requires cfg.Valid() && LocksAreTotals(ids, b) && cid in b.commitments
    requires Replaced(cfg, ids, b, b', who, cid, now)
    ensures LocksAreTotals(ids, b')
  {
    hide Worth, Get, Value, DelegationOk, Put;
    forall a
      ensures Get(b'.locks, a) == Get(b'.delegatorTotal, a) + OwnStake(ids, b'.commitments, a)
    {
      assert OwnStake(ids, b'.commitments, a) == OwnStake(ids, b.commitments, a);
    }
  }

  lemma {:induction false} ReplaceEntries(cfg: Config, b: Books, b': Books, who: Account, cid: CommitmentId,
                                          now: Option<Delegation>)
    requires cfg.Valid() && AllCommitmentsOk(cfg, b) && AllDelegationsOk(cfg, b) && cid in b.commitments
    requires b'.delegations == Put(b.delegations, (who, cid), now)
    requires cid in b'.commitments && b'.commitments == b.commitments[cid := b'.commitments[cid]]
    requires Reweighed(b.commitments[cid], b'.commitments[cid], Existing(b.delegations, (who, cid)), now, b.epoch)
    requires b'.block == b.block && b'.epoch == b.epoch
    requires now.Some? ==> DelegationOk(cfg, now.value, b'.commitments[cid], b.block)
    ensures AllCommitmentsOk(cfg, b') && AllDelegationsOk(cfg, b')
  {
    hide StakeOk, WeighedBy, SlashDebtOk, FloorShare;
    assert CommitmentOk(cfg, b.commitments[cid], b.block, b.epoch);
    forall k | k in b'.delegations
      ensures k.1 in b'.commitments && DelegationOk(cfg, b'.delegations[k], b'.commitments[k.1], b.block)
    {
      assert k == (who, cid) || (k in b.delegations && b'.delegations[k] == b.delegations[k]);
    }
  }

  lemma {:induction false} ReplaceRest(b: Books, b': Books, who: Account, cid: CommitmentId, now: Option<Delegation>)
    requires AllWeightsAreSums(b) && AllSolvent(b) && cid in b.commitments
    requires b'.delegations == Put(b.delegations, (who, cid), now)
    requires cid in b'.commitments && b'.commitments == b.commitments[cid := b'.commitments[cid]]
    requires Reweighed(b.commitments[cid], b'.commitments[cid], Existing(b.delegations, (who, cid)), now, b.epoch)
    requires forall c :: c != cid ==> Get(b'.paid, c) == Get(b.paid, c)
    requires PER_TOKEN * Get(b'.paid, cid) + Worth(now, cid, b.commitments[cid].pool)
          <= PER_TOKEN * Get(b.paid, cid) + Worth(Existing(b.delegations, (who, cid)), cid, b.commitments[cid].pool)
    requires b'.distributed == b.distributed && b'.excess == b.excess
    ensures AllWeightsAreSums(b') && AllSolvent(b')
  {
    hide Sum, Worth, Get, Value, Put;
    forall c | c in b'.commitments
      ensures WeightsAreSums(b'.delegations, c, b'.commitments[c]) && Solvent(b', c, b'.commitments[c])
    {
      if c == cid {
        ReplaceWeights(b, b'.commitments[cid], who, cid, now);
        ReplaceSolvent(b, b', who, cid, now);
      } else {
        assert b'.commitments[c] == b.commitments[c];
        assert WeightsAreSums(b.delegations, c, b.commitments[c]) && Solvent(b, c, b.commitments[c]);
        var v := b.commitments[c];
        ReplaceOthers(b.delegations, (who, cid), now, c, if v.stake.Some? then v.stake.value.created else 0, v.pool);
      }
    }
  }

  /** With the delegations untouched, only the changed commitment has to be looked at. */
  lemma {:induction false} RestKeeps(b: Books, b': Books, cid: CommitmentId)
    requires AllWeightsAreSums(b) && AllSolvent(b)
    requires cid in b'.commitments && b'.commitments == b.commitments[cid := b'.commitments[cid]]
    requires b'.delegations == b.delegations && b'.paid == b.paid
    requires forall c :: c != cid ==> Get(b'.distributed, c) == Get(b.distributed, c)
    requires forall c :: c != cid ==> Get(b'.excess, c) == Get(b.excess, c)
    requires WeightsAreSums(b.delegations, cid, b'.commitments[cid]) && Solvent(b', cid, b'.commitments[cid])
    ensures AllWeightsAreSums(b') && AllSolvent(b')
  {
    hide Sum, Get, PER_TOKEN;
    forall c | c in b'.commitments
      ensures WeightsAreSums(b'.delegations, c, b'.commitments[c]) && Solvent(b', c, b'.commitments[c])
    {
      if c != cid {
        assert WeightsAreSums(b.delegations, c, b.commitments[c]) && Solvent(b, c, b.commitments[c]);
      }
    }
  }

  // ----- the committer's own stake -----

  /** The stake of `owner` changes, not when it was created. */
  ghost predicate StakeChanged(cfg: Config, ids: Owners, b: Books, b': Books, owner: Account, cid: CommitmentId)
    requires cid in b.commitments
  {
    && owner in ids && ids[owner] == cid
    && cid in b'.commitments && b'.commitments == b.commitments[cid := b'.commitments[cid]]
    && SameTerms(cfg, b.commitments[cid], b'.commitments[cid], b.block, b.epoch)
    && b'.commitments[cid].pool == b.commitments[cid].pool
    && b'.delegations == b.delegations && b'.delegatorTotal == b.delegatorTotal
    && b'.totalStake + b'.overshoot + StakeOf(b.commitments[cid])
       == b.totalStake + b.overshoot + StakeOf(b'.commitments[cid])
    && (forall a :: a != owner ==> Get(b'.locks, a) == Get(b.locks, a))
    && Get(b'.locks, owner) == Get(b.delegatorTotal, owner) + StakeOf(b'.commitments[cid])
    && b'.block == b.block && b'.epoch == b.epoch
    && b'.paid == b.paid && b'.distributed == b.distributed && b'.excess == b.excess
  }

  /** Created at the same time, with the same delegation weights, and not leaving a cooldown. */
  ghost predicate SameTerms(cfg: Config, c: Commitment, c': Commitment, block: nat, epoch: nat) {
    && c.stake.Some? && c'.stake.Some? && c'.stake.value.created == c.stake.value.created
    && c'.pool.time == c.pool.time && c'.pool.past == c.pool.past
    && c'.weights.value.delegReward == c.weights.value.delegReward
    && c'.weights.value.delegSlash == c.weights.value.delegSlash
    && CommitmentOk(cfg, c', block, epoch)
    && (c'.stake.value.cooldown == c.stake.value.cooldown
        || (c.stake.value.cooldown.None? && c'.stake.value.cooldown == Some(block)))
  }

  lemma {:induction false} StakeTotals(b: Books, b': Books, cid: CommitmentId)
    requires TotalsAreSums(b) && cid in b.commitments
    requires cid in b'.commitments && b'.commitments == b.commitments[cid := b'.commitments[cid]]
    requires b'.delegations == b.delegations && b'.delegatorTotal == b.delegatorTotal
    requires b'.totalStake + b'.overshoot + StakeOf(b.commitments[cid])
          == b.totalStake + b.overshoot + StakeOf(b'.commitments[cid])
    ensures TotalsAreSums(b')
  {
    hide Sum, StakeOf, Get;
    StakePut(b.commitments, cid, b'.commitments[cid]);
  }

  lemma {:induction false} StakeLocks(ids: Owners, b: Books, b': Books, owner: Account, cid: CommitmentId,
                                      c': Commitment)
    requires Distinct(ids) && LocksAreTotals(ids, b) && owner in ids && ids[owner] == cid
    requires b'.commitments == b.commitments[cid := c'] && b'.delegatorTotal == b.delegatorTotal
    requires forall a :: a != owner ==> Get(b'.locks, a) == Get(b.locks, a)
    requires Get(b'.locks, owner) == Get(b.delegatorTotal, owner) + StakeOf(c')
    ensures LocksAreTotals(ids, b')
  {
    hide StakeOf, Get;
    forall a
      ensures Get(b'.locks, a) == Get(b'.delegatorTotal, a) + OwnStake(ids, b'.commitments, a)
    {
      assert a != owner ==> OwnStake(ids, b'.commitments, a) == OwnStake(ids, b.commitments, a);
    }
  }

  /** Entries stay as they should be when a commitment keeps its terms. */
  lemma {:induction false} TermsKeepEntries(cfg: Config, b: Books, b': Books, cid: CommitmentId)
    requires cfg.Valid() && AllCommitmentsOk(cfg, b) && AllDelegationsOk(cfg, b) && cid in b.commitments
    requires cid in b'.commitments && b'.commitments == b.commitments[cid := b'.commitments[cid]]
    requires SameTerms(cfg, b.commitments[cid], b'.commitments[cid], b.block, b.epoch)
    requires b.commitments[cid].pool.value.slashPerWeight <= b'.commitments[cid].pool.value.slashPerWeight
    requires b'.delegations == b.delegations && b'.block == b.block && b'.epoch == b.epoch
    ensures AllCommitmentsOk(cfg, b') && AllDelegationsOk(cfg, b')
  {
    hide StakeOk, WeighedBy, FloorShare;
    var c, c' := b.commitments[cid], b'.commitments[cid];
    forall k | k in b'.delegations
      ensures k.1 in b'.commitments && DelegationOk(cfg, b'.delegations[k], b'.commitments[k.1], b.block)
    {
      var d := b.delegations[k];
      assert DelegationOk(cfg, d, b.commitments[k.1], b.block);
      if k.1 == cid {
        FloorShareMonotone(d.slashWeight, c.pool.value.slashPerWeight, c'.pool.value.slashPerWeight);
      }
    }
  }

  lemma {:induction false} StakeChangeKeeps(cfg: Config, ids: Owners, b: Books, b': Books, owner: Account,
                                            cid: CommitmentId)
    requires Sound(cfg, ids, b) && cid in b.commitments && StakeChanged(cfg, ids, b, b', owner, cid)
    ensures Sound(cfg, ids, b')
  {
    StakeTotals(b, b', cid);
    StakeLocks(ids, b, b', owner, cid, b'.commitments[cid]);
    TermsKeepEntries(cfg, b, b', cid);
    assert WeightsAreSums(b.delegations, cid, b.commitments[cid]) && Solvent(b, cid, b.commitments[cid]);
    hide Sum, Get, PER_TOKEN, AllSolvent, AllWeightsAreSums, CommitmentOk, LocksAreTotals, TotalsAreSums,
         AllCommitmentsOk, AllDelegationsOk, Distinct;
    RestKeeps(b, b', cid);
  }

  // ----- a pool raised -----

  function RaisedBoth(pool: Memory<PoolReward>, extra: nat, slash: nat): Memory<PoolReward> {
    pool.(value := PoolReward(pool.value.rewardPerWeight + extra, pool.value.slashPerWeight + slash))
  }

  /** A pool's per-weight reward and slash go up, for a reward distributed. */
  ghost predicate PoolRaised(cfg: Config, b: Books, b': Books, cid: CommitmentId, reward: nat, extra: nat, slash: nat)
    requires cid in b.commitments
  {
    && cid in b'.commitments && b'.commitments == b.commitments[cid := b'.commitments[cid]]
    && SameTerms(cfg, b.commitments[cid], b'.commitments[cid], b.block, b.epoch)
    && StakeOf(b'.commitments[cid]) == StakeOf(b.commitments[cid])
    && b'.commitments[cid].pool == RaisedBoth(b.commitments[cid].pool, extra, slash)
    && b' == b.(commitments := b'.commitments, distributed := b'.distributed, excess := b'.excess)
    && b'.distributed == b.distributed[cid := Get(b.distributed, cid) + reward]
    && b'.excess == b.excess[cid := Get(b.excess, cid)
                              + Minus(b.commitments[cid].weights.value.delegReward * extra, PER_TOKEN * reward)]
  }

  lemma {:induction false} RaiseSolvent(b: Books, b': Books, cid: CommitmentId, c: Commitment, reward: nat, extra: nat,
                                        slash: nat)
    requires Solvent(b, cid, c) && WeightsAreSums(b.delegations, cid, c)
    requires c.stake.Some? && c.stake.value.created == c.pool.time
    requires b'.delegations == b.delegations && b'.paid == b.paid
    requires Get(b'.distributed, cid) == Get(b.distributed, cid) + reward
    requires Get(b'.excess, cid)
          == Get(b.excess, cid) + Minus(c.weights.value.delegReward * extra, PER_TOKEN * reward)
    ensures Solvent(b', cid, c.(pool := RaisedBoth(c.pool, extra, slash)))
  {
    SumSame(b.delegations, Pending(cid, RaisedBoth(c.pool, extra, slash)), Pending(cid, Raised(c.pool, extra)));
    PendingGrows(b.delegations, cid, c.pool, extra);
    hide Sum, Get, Raised, RaisedBoth;
  }

  lemma {:induction false} PoolRaiseKeeps(cfg: Config, ids: Owners, b: Books, b': Books, cid: CommitmentId, reward: nat,
                                          extra: nat, slash: nat)
    requires Sound(cfg, ids, b) && cid in b.commitments && PoolRaised(cfg, b, b', cid, reward, extra, slash)
    ensures Sound(cfg, ids, b')
  {
    StakeTotals(b, b', cid);
    TermsKeepEntries(cfg, b, b', cid);
    RaiseLocks(ids, b, b', cid);
    assert CommitmentOk(cfg, b.commitments[cid], b.block, b.epoch);
    assert WeightsAreSums(b.delegations, cid, b.commitments[cid]) && Solvent(b, cid, b.commitments[cid]);
    RaiseSolvent(b, b', cid, b.commitments[cid], reward, extra, slash);
    hide Sum, PER_TOKEN, AllSolvent, AllWeightsAreSums, CommitmentOk, LocksAreTotals, TotalsAreSums,
         AllCommitmentsOk, AllDelegationsOk, Distinct, RaisedBoth, Minus;
    RestKeeps(b, b', cid);
  }

  lemma {:induction false} RaiseLocks(ids: Owners, b: Books, b': Books, cid: CommitmentId)
    requires LocksAreTotals(ids, b) && cid in b.commitments && cid in b'.commitments
    requires b'.commitments == b.commitments[cid := b'.commitments[cid]]
    requires StakeOf(b'.commitments[cid]) == StakeOf(b.commitments[cid])
    requires b'.delegatorTotal == b.delegatorTotal && b'.locks == b.locks
    ensures LocksAreTotals(ids, b')
  {
    hide Get, StakeOf;
    forall a
      ensures Get(b'.locks, a) == Get(b'.delegatorTotal, a) + OwnStake(ids, b'.commitments, a)
    {
      assert OwnStake(ids, b'.commitments, a) == OwnStake(ids, b.commitments, a);
    }
  }

  // ----- a commitment opened or ended -----

  /** The stake of a commitment that had none: delegations to an earlier stake become stale. */
  ghost predicate Opened(cfg: Config, ids: Owners, b: Books, b': Books, owner: Account, cid: CommitmentId, s: Stake) {
    && owner in ids && ids[owner] == cid && (cid in b.commitments ==> b.commitments[cid].stake.None?)
    && cid in b'.commitments && b'.commitments == b.commitments[cid := b'.commitments[cid]]
    && var c' := b'.commitments[cid];
    && c'.stake == Some(s) && s.created == b.block && s.cooldown.None?
    && CommitmentOk(cfg, c', b.block, b.epoch)
    && c'.weights.value.delegReward == 0 && c'.weights.value.delegSlash == 0
    && c'.pool.time == b.block
    && (cid in b.commitments ==>
          c'.pool == Memory(Some((b.commitments[cid].pool.time, b.commitments[cid].pool.value)), b.block, NO_REWARDS))
    && b'.locks == b.locks[owner := Get(b.delegatorTotal, owner) + s.amount]
    && b' == b.(commitments := b'.commitments, totalStake := b.totalStake + s.amount, locks := b'.locks)
  }

  lemma {:induction false} OpenEntries(cfg: Config, ids: Owners, b: Books, b': Books, owner: Account,
                                       cid: CommitmentId, s: Stake)
    requires cfg.Valid() && AllCommitmentsOk(cfg, b) && AllDelegationsOk(cfg, b)
    requires Opened(cfg, ids, b, b', owner, cid, s)
    ensures AllCommitmentsOk(cfg, b') && AllDelegationsOk(cfg, b')
    ensures forall k :: k in b.delegations && k.1 == cid ==>
      cid in b.commitments && b.delegations[k].stake.created < b.block
  {
    hide StakeOk, WeighedBy, FloorShare, Get;
    forall k | k in b'.delegations
      ensures k.1 in b'.commitments && DelegationOk(cfg, b'.delegations[k], b'.commitments[k.1], b.block)
    {
      assert k.1 in b.commitments && DelegationOk(cfg, b.delegations[k], b.commitments[k.1], b.block);
    }
  }

  lemma {:induction false} OpenSums(b: Books, cid: CommitmentId, c': Commitment)
    requires forall k :: k in b.delegations && k.1 == cid ==>
      cid in b.commitments && b.delegations[k].stake.created < b.block
    requires c'.pool.time == b.block
    requires cid in b.commitments ==>
      c'.pool == Memory(Some((b.commitments[cid].pool.time, b.commitments[cid].pool.value)), b.block, NO_REWARDS)
    requires AllSolvent(b)
    ensures Sum(b.delegations, RewardWeightSince(cid, b.block)) == 0
    ensures Sum(b.delegations, SlashWeightSince(cid, b.block)) == 0
    ensures Solvent(b, cid, c')
  {
    hide Get;
    SumZero(b.delegations, RewardWeightSince(cid, b.block));
    SumZero(b.delegations, SlashWeightSince(cid, b.block));
    if cid in b.commitments {
      assert Solvent(b, cid, b.commitments[cid]);
      SumBelow(b.delegations, Pending(cid, c'.pool), Pending(cid, b.commitments[cid].pool));
    } else {
      SumZero(b.delegations, Pending(cid, c'.pool));
      SumZero(b.delegations, Accrued(cid));
    }
    hide Sum;
  }

  lemma {:induction false} OpenTotals(b: Books, b': Books, cid: CommitmentId, s: Stake)
    requires TotalsAreSums(b) && (cid in b.commitments ==> b.commitments[cid].stake.None?)
    requires cid in b'.commitments && b'.commitments == b.commitments[cid := b'.commitments[cid]]
    requires b'.commitments[cid].stake == Some(s)
    requires b'.delegations == b.delegations && b'.delegatorTotal == b.delegatorTotal
    requires b'.totalStake == b.totalStake + s.amount && b'.overshoot == b.overshoot
    ensures TotalsAreSums(b')
  {
    hide Sum, Get;
    StakePut(b.commitments, cid, b'.commitments[cid]);
  }

  lemma {:induction false} OpenKeeps(cfg: Config, ids: Owners, b: Books, b': Books, owner: Account, cid: CommitmentId,
                                     s: Stake)
    requires Sound(cfg, ids, b) && Opened(cfg, ids, b, b', owner, cid, s)
    ensures Sound(cfg, ids, b')
  {
    OpenEntries(cfg, ids, b, b', owner, cid, s);
    OpenSums(b, cid, b'.commitments[cid]);
    OpenTotals(b, b', cid, s);
    StakeLocks(ids, b, b', owner, cid, b'.commitments[cid]);
    hide Sum, PER_TOKEN, AllSolvent, AllWeightsAreSums, CommitmentOk, LocksAreTotals, TotalsAreSums,
         AllCommitmentsOk, AllDelegationsOk, Distinct, NO_REWARDS;
    RestKeeps(b, b', cid);
  }

  /** The stake of `owner` is taken out after its cooldown. */
  ghost predicate Ended(cfg: Config, ids: Owners, b: Books, b': Books, owner: Account, cid: CommitmentId)
    requires cid in b.commitments
  {
    && owner in ids && ids[owner] == cid
    && cid in b'.commitments && b'.commitments == b.commitments[cid := b'.commitments[cid]]
    && var c, c' := b.commitments[cid], b'.commitments[cid];
    && c.stake.Some? && c.stake.value.cooldown.Some?
    && c.stake.value.cooldown.value + c.stake.value.period <= b.block
    && c'.stake.None? && c'.pool == c.pool && c'.weights.time <= b.epoch
    && b'.totalStake + StakeOf(c) == b.totalStake
    && Get(b'.locks, owner) + StakeOf(c) == Get(b.locks, owner)
    && (forall a :: a != owner ==> Get(b'.locks, a) == Get(b.locks, a))
    && b' == b.(commitments := b'.commitments, totalStake := b'.totalStake, locks := b'.locks)
  }

  lemma {:induction false} EndEntries(cfg: Config, ids: Owners, b: Books, b': Books, owner: Account, cid: CommitmentId)
    requires cfg.Valid() && AllCommitmentsOk(cfg, b) && AllDelegationsOk(cfg, b)
    requires cid in b.commitments && Ended(cfg, ids, b, b', owner, cid)
    ensures AllCommitmentsOk(cfg, b') && AllDelegationsOk(cfg, b')
  {
    hide StakeOk, WeighedBy, FloorShare, Get, SlashDebtOk;
    assert CommitmentOk(cfg, b.commitments[cid], b.block, b.epoch);
    forall k | k in b'.delegations
      ensures k.1 in b'.commitments && DelegationOk(cfg, b'.delegations[k], b'.commitments[k.1], b.block)
    {
      assert k.1 in b.commitments && DelegationOk(cfg, b.delegations[k], b.commitments[k.1], b.block);
    }
  }

  lemma {:induction false} EndKeeps(cfg: Config, ids: Owners, b: Books, b': Books, owner: Account, cid: CommitmentId)
    requires Sound(cfg, ids, b) && cid in b.commitments && Ended(cfg, ids, b, b', owner, cid)
    ensures Sound(cfg, ids, b')
  {
    EndEntries(cfg, ids, b, b', owner, cid);
    StakeTotals(b, b', cid);
    assert OwnStake(ids, b.commitments, owner) == StakeOf(b.commitments[cid]);
    StakeLocks(ids, b, b', owner, cid, b'.commitments[cid]);
    assert WeightsAreSums(b.delegations, cid, b.commitments[cid]) && Solvent(b, cid, b.commitments[cid]);
    hide Sum, PER_TOKEN, AllSolvent, AllWeightsAreSums, CommitmentOk, LocksAreTotals, TotalsAreSums,
         AllCommitmentsOk, AllDelegationsOk, Distinct, Get, StakeOf;
    RestKeeps(b, b', cid);
  }

  // ----- time -----

  lemma {:induction false} TimeKeeps(cfg: Config, ids: Owners, b: Books, block: nat, epoch: nat)
    requires Sound(cfg, ids, b) && b.block <= block && b.epoch <= epoch
    ensures Sound(cfg, ids, b.(block := block, epoch := epoch))
  {
    hide Sum, StakeSum, Value, Get, StakeOk, WeighedBy, SlashDebtOk;
    var b' := b.(block := block, epoch := epoch);
    forall c | c in b'.commitments
      ensures WeightsAreSums(b'.delegations, c, b'.commitments[c]) && Solvent(b', c, b'.commitments[c])
    {
      assert WeightsAreSums(b.delegations, c, b.commitments[c]) && Solvent(b, c, b.commitments[c]);
    }
    forall k | k in b'.delegations
      ensures k.1 in b'.commitments && DelegationOk(cfg, b'.delegations[k], b'.commitments[k.1], block)
    {
      assert DelegationOk(cfg, b.delegations[k], b.commitments[k.1], b.block);
    }
  }
}
