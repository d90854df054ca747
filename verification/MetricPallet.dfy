/** Pools, their ratios and totals, and committing metrics and claiming for them, on storage. */
module MetricPallet {
  import opened Wrappers
  import opened StakingBase
  import opened MapSums
  import opened SlidingBuffers
  import opened ProvisionalBuffers
  import opened MetricRewards
  import opened MetricRuns

  class Pallet {
    var s: State

    ghost predicate Valid()
      reads this
    {
      Good(s)
    }

    constructor ()
      ensures Valid() && s == NO_STATE
    {
      s := NO_STATE;
      new;
      EmptyGood();
    }

    /** A new epoch, with the reward for the one just ended. */
    method AdvanceEpoch(reward: nat)
      requires Valid()
      modifies this
      ensures Valid() && s == NewEpoch(old(s), reward)
    {
      hide Good;
      NewEpochGood(s, reward);
      s := s.(epoch := s.epoch + 1, ratios := RatiosAt(s.shares, s.epoch), reward := reward);
      s := s.(entitled := map[], paid := 0);
    }

    method CreatePool(p: PoolId, ratio: nat) returns (ok: bool)
      requires Valid()
      modifies this
      ensures Valid() && ok == Created(old(s), p, ratio).Some?
      ensures s == if ok then Created(old(s), p, ratio).value else old(s)
    {
      hide Good, Validated;
      var before := s;
      if Created(s, p, ratio).Some? {
        CreatedGood(s, p, ratio);
      }
      if p in s.pools {
        return false;
      }
      s := s.(pools := s.pools[p := Empty(0)], shares := s.shares[p := Provisional(ratio, None)]);
      ok := ValidateMetricPools(s.shares, s.epoch);
      if !ok {
        s := before;
      }
    }

    /** Sets a pool's ratio from an epoch on; the last epoch counts as the present. */
    method ModifyPool(p: PoolId, from: nat, ratio: nat) returns (ok: bool)
      requires Valid()
      modifies this
      ensures Valid() && ok == Modified(old(s), p, from, ratio).Some?
      ensures s == if ok then Modified(old(s), p, from, ratio).value else old(s)
    {
      hide Good, Validated, ValueAt;
      var before := s;
      if Modified(s, p, from, ratio).Some? {
        ModifiedGood(s, p, from, ratio);
      }
      if p !in s.shares {
        return false;
      }
      var previous := if s.epoch == 0 then 0 else s.epoch - 1;
      var share := s.shares[p].Set(previous, from, ratio);
      if share.None? {
        return false;
      }
      s := s.(shares := s.shares[p := share.value]);
      if LastTotal(s, p) > 0 {
        s := s.(ratios := s.ratios[p := Max(Amount(s.ratios, p), share.value.Get(previous))]);
      }
      ok := ValidateMetricPools(s.shares, s.epoch);
      if !ok {
        s := before;
      }
    }

    /** Adds a metric to the pool's and the manager's sums; returns the manager's sum of the last epoch. */
    method UpdateMetricsEpochSum(m: Manager, p: PoolId, x: nat) returns (claim: Option<nat>)
      requires InTime(s)
      modifies this
      ensures s == Recorded(old(s), m, p, x) && claim == Claim(old(s), m, p)
    {
      hide PartFor, InTime, Added, ValueAt;
      var before := s;
      var e := s.epoch;
      SumsInTime(s, (m, p));
      AddedValues(s.sums, (m, p), e, x, (m, p));
      LastValue(s, m, p);
      var known := p in s.pools;
      if known {
        s := s.(pools := Added(s.pools, p, e, x));
      } else {
        s := s.(unseen := Added(s.unseen, p, e, x));
      }
      var prevEpoch := BufferOf(s.sums, (m, p)).epoch;
      s := s.(sums := Added(s.sums, (m, p), e, x));
      claim := None;
      if prevEpoch < e && e - prevEpoch == 1 {
        claim := Some(ValueAt(s.sums, (m, p), prevEpoch));
      }
      if known && claim.Some? {
        s := s.(entitled := s.entitled[p := Amount(s.entitled, p) + PartFor(before, p, claim.value)]);
      }
    }

    /** The reward for claims of the last epoch; nothing if a pool is unknown. */
    method DoClaim(claims: seq<(PoolId, nat)>) returns (reward: nat)
      ensures reward == RewardFor(s, claims)
    {
      hide PartFor, MulFloor;
      var parts := 0;
      assert claims[0..] == claims;
      for i := 0 to |claims|
        invariant PartsOf(s, claims).None? <==> PartsOf(s, claims[i..]).None?
        invariant PartsOf(s, claims).Some? ==> PartsOf(s, claims).value == parts + PartsOf(s, claims[i..]).value
      {
        assert claims[i..][0] == claims[i] && claims[i..][1..] == claims[i + 1..];
        if claims[i].0 !in s.pools {
          return 0;
        }
        parts := parts + PartFor(s, claims[i].0, claims[i].1);
      }
      return MulFloor(Minimum(QUINTILL, parts), s.reward);
    }

    /** Commits a processor's metrics, each pool's first of the epoch, and claims for the last epoch. */
    method Commit(m: Manager, ms: seq<Metric>) returns (reward: nat)
      requires Valid()
      modifies this
      ensures Valid() && s == Committed(old(s), m, ms)
      ensures s.paid == old(s).paid + reward
    {
      hide Good, RecordedAll, Claims, RewardFor, SameLast;
      CommittedGood(s, m, ms);
      ghost var before := s;
      ClaimsEntitled(before, m, ms);
      var claims := RecordMetrics(m, ms);
      reward := DoClaim(claims);
      s := s.(paid := s.paid + reward);
    }

    method RecordMetrics(m: Manager, ms: seq<Metric>) returns (claims: seq<(PoolId, nat)>)
      requires Valid()
      modifies this
      ensures s == RecordedAll(old(s), m, ms) && claims == Claims(old(s), m, ms)
    {
      hide Good, Recorded, Claim;
      claims := [];
      ghost var before := s;
      assert ms[0..] == ms;
      for i := 0 to |ms|
        invariant s.epoch == before.epoch && Good(s)
        invariant RecordedAll(before, m, ms) == RecordedAll(s, m, ms[i..])
        invariant Claims(before, m, ms) == claims + Claims(s, m, ms[i..])
      {
        assert ms[i..][0] == ms[i] && ms[i..][1..] == ms[i + 1..];
        GoodInTime(s);
        RecordedGood(s, m, ms[i].pool, ms[i].value);
        ghost var was := s;
        var claim := UpdateMetricsEpochSum(m, ms[i].pool, ms[i].value);
        if claim.Some? {
          claims := claims + [(ms[i].pool, claim.value)];
        }
        assert Claims(was, m, ms[i..])
            == (if claim.Some? then [(ms[i].pool, claim.value)] else []) + Claims(s, m, ms[i + 1..]);
      }
      assert ms[|ms|..] == [];
    }
  }

  lemma {:induction false} LastValue(s: State, m: Manager, p: PoolId)
    ensures Claim(s, m, p).Some? ==> Claim(s, m, p).value == ValueAt(s.sums, (m, p), s.epoch - 1)
  {
  }

  // ----- validating ratios -----

  /** Whether the ratios for an epoch add up to at most one; stops as soon as they do not. */
  method RatiosFit(shares: map<PoolId, Provisional>, e: nat) returns (ok: bool)
    ensures ok <==> Total(RatiosAt(shares, e)) <= QUINTILL
  {
    hide Total;
    var sum, rest := 0, RatiosAt(shares, e);
    while rest != map[]
      invariant sum + Total(rest) == Total(RatiosAt(shares, e))
      decreases |rest|
    {
      var p :| p in rest;
      TotalPick(rest, p);
      sum := sum + rest[p];
      if sum > QUINTILL {
        return false;
      }
      rest := rest - {p};
    }
    NoTotal(rest);
    return sum <= QUINTILL;
  }

  lemma {:induction false} NoTotal(m: map<PoolId, nat>)
    requires m == map[]
    ensures Total(m) == 0
  {
  }

  /** Tests the current epoch and every later one in which some pool's ratio changes. */
  method ValidateMetricPools(shares: map<PoolId, Provisional>, e: nat) returns (ok: bool)
    ensures ok <==> Validated(shares, e)
  {
    hide Total, RatiosAt;
    var epochs := {e} + set p | p in shares && shares[p].NextEpoch(e).Some? :: shares[p].NextEpoch(e).value;
    ghost var all := epochs;
    EpochsTested(shares, e, all);
    while epochs != {}
      invariant epochs <= all
      invariant forall f :: f in all && f !in epochs ==> Total(RatiosAt(shares, f)) <= QUINTILL
      decreases |epochs|
    {
      var f :| f in epochs;
      ok := RatiosFit(shares, f);
      if !ok {
        return false;
      }
      epochs := epochs - {f};
    }
    return true;
  }

  lemma {:induction false} EpochsTested(shares: map<PoolId, Provisional>, e: nat, epochs: set<nat>)
    requires epochs == {e} + set p | p in shares && shares[p].NextEpoch(e).Some? :: shares[p].NextEpoch(e).value
    ensures Validated(shares, e) <==> forall f :: f in epochs ==> Total(RatiosAt(shares, f)) <= QUINTILL
  {
    hide Total, RatiosAt;
    forall p | p in shares && shares[p].NextEpoch(e).Some?
      ensures shares[p].NextEpoch(e).value in epochs
    {
    }
  }
}
