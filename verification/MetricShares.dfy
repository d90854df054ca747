/**
 * Metric rewards from below: a manager's part is less than two short of its exact part, and once all
 * managers with metrics in a pool have claimed, less than two for each of them is left of its ratio.
 */
module MetricShares {
  import opened Wrappers
  import opened StakingBase
  import opened Arithmetic
  import opened MapSums
  import opened SlidingBuffers
  import opened ProvisionalBuffers
  import opened MetricRewards
  import opened MetricRuns

  // ----- one part -----

  lemma {:induction false} PartLow(ratio: nat, sum: nat, total: nat)
    requires 0 < total && sum <= total && ratio <= QUINTILL
    ensures ratio * sum < (Part(ratio, sum, total) + 2) * total
  {
    var f := sum * QUINTILL / total;
    FloorOf(sum * QUINTILL, total);
    PartBound(sum, total, QUINTILL);
    FloorOf(ratio * f, QUINTILL);
    assert Part(ratio, sum, total) == MulFloor(ratio, f);
    LowChain(ratio, sum, total, f, MulFloor(ratio, f));
  }

  lemma {:induction false} LowChain(ratio: nat, sum: nat, total: nat, f: nat, part: nat)
    requires 0 < total && ratio <= QUINTILL && sum * QUINTILL <= (f + 1) * total && ratio * f < (part + 1) * QUINTILL
    ensures ratio * sum < (part + 2) * total
  {
    MulMonotone(ratio, sum * QUINTILL, (f + 1) * total);
    assert ratio * ((f + 1) * total) == (ratio * f + ratio) * total;
    MulMonotone(total, ratio * f + ratio + 1, (part + 2) * QUINTILL);
    assert (ratio * f + ratio + 1) * total == (ratio * f + ratio) * total + total;
    assert total * ((part + 2) * QUINTILL) == ((part + 2) * total) * QUINTILL;
    assert ratio * (sum * QUINTILL) == (ratio * sum) * QUINTILL;
    Below(ratio * sum, (part + 2) * total);
  }

  lemma {:induction false} Below(x: nat, y: nat)
    requires x * QUINTILL < y * QUINTILL
    ensures x < y
  {
  }

  // ----- who has claimed -----

  /** A manager's sum of the last epoch. */
  function SumOf(s: State, k: (Manager, PoolId)): nat
    requires s.epoch > 0
  {
    ValueAt(s.sums, k, s.epoch - 1)
  }

  /** The sums of the last epoch. */
  ghost function Holders(s: State, p: PoolId): map<(Manager, PoolId), nat>
    requires s.epoch > 0
  {
    map k | k in s.sums && k.1 == p && SumOf(s, k) > 0 :: SumOf(s, k)
  }

  /** Those of managers that have had a metric since. */
  ghost function Claimers(s: State, p: PoolId): map<(Manager, PoolId), nat>
    requires s.epoch > 0
  {
    map k | k in s.sums && k.1 == p && s.sums[k].epoch == s.epoch && SumOf(s, k) > 0 :: SumOf(s, k)
  }

  lemma {:induction false} ClaimerAt(s: State, p: PoolId, k: (Manager, PoolId))
    requires s.epoch > 0
    ensures k in Holders(s, p) <==> k.1 == p && SumOf(s, k) > 0
    ensures k in Holders(s, p) ==> Holders(s, p)[k] == SumOf(s, k)
    ensures k in Claimers(s, p) <==> k.1 == p && BufferOf(s.sums, k).epoch == s.epoch && SumOf(s, k) > 0
    ensures k in Claimers(s, p) ==> Claimers(s, p)[k] == SumOf(s, k)
  {
  }

  lemma {:induction false} ClaimersSame(s: State, s': State, p: PoolId)
    requires s.epoch > 0 && s'.epoch == s.epoch && s'.sums == s.sums
    ensures Claimers(s', p) == Claimers(s, p) && Holders(s', p) == Holders(s, p)
  {
    hide ValueAt;
  }

  lemma {:induction false} RecordedSum(s: State, m: Manager, q: PoolId, x: nat, k: (Manager, PoolId))
    requires s.epoch > 0 && InTime(s)
    ensures var s' := Recorded(s, m, q, x);
      && SumOf(s', k) == SumOf(s, k)
      && BufferOf(s'.sums, k).epoch == if k == (m, q) then s.epoch else BufferOf(s.sums, k).epoch
  {
    hide PartFor;
    SumsInTime(s, (m, q));
    AddedValues(s.sums, (m, q), s.epoch, x, k);
  }

  /** What a first metric claims for is the manager's sum. */
  lemma {:induction false} ClaimIsSum(s: State, m: Manager, q: PoolId)
    requires s.epoch > 0 && InTime(s)
    ensures Claim(s, m, q).Some? ==> Claim(s, m, q).value == SumOf(s, (m, q)) && (m, q) !in Claimers(s, q)
    ensures Claim(s, m, q).None? && SumOf(s, (m, q)) > 0 ==> BufferOf(s.sums, (m, q)).epoch == s.epoch
  {
    SumsInTime(s, (m, q));
    ClaimerAt(s, q, (m, q));
    hide Claimers, Holders;
  }

  lemma {:induction false} RecordedHolders(s: State, m: Manager, q: PoolId, x: nat, p: PoolId)
    requires s.epoch > 0 && InTime(s)
    ensures Holders(Recorded(s, m, q, x), p) == Holders(s, p)
  {
    hide Holders, Recorded, InTime, SumOf;
    var s' := Recorded(s, m, q, x);
    forall k
      ensures k in Holders(s', p) <==> k in Holders(s, p)
      ensures k in Holders(s, p) ==> Holders(s', p)[k] == Holders(s, p)[k]
    {
      RecordedSum(s, m, q, x, k);
      ClaimerAt(s, p, k);
      ClaimerAt(s', p, k);
    }
  }

  lemma {:induction false} RecordedClaimers(s: State, m: Manager, q: PoolId, x: nat, p: PoolId)
    requires s.epoch > 0 && InTime(s)
    ensures var claim := Claim(s, m, q);
      Claimers(Recorded(s, m, q, x), p)
      == if p == q && claim.Some? && claim.value > 0 then Claimers(s, p)[(m, p) := claim.value] else Claimers(s, p)
  {
    hide Claimers, Holders, Recorded, InTime, SumOf, Claim;
    var s', claim := Recorded(s, m, q, x), Claim(s, m, q);
    var before := Claimers(s, p);
    var after := if p == q && claim.Some? && claim.value > 0 then before[(m, p) := claim.value] else before;
    ClaimIsSum(s, m, q);
    forall k
      ensures k in Claimers(s', p) <==> k in after
      ensures k in after ==> Claimers(s', p)[k] == after[k]
    {
      RecordedSum(s, m, q, x, k);
      ClaimerAt(s, p, k);
      ClaimerAt(s', p, k);
    }
  }

  // ----- what is left of a ratio -----

  /** A pool that had metrics and missed none, with this ratio, and less than two missing for each claim. */
  ghost predicate Near(s: State, p: PoolId, ratio: nat)
    requires s.epoch > 0
  {
    var total, n := ValueAt(s.pools, p, s.epoch - 1), |Claimers(s, p)|;
    ratio * Total(Claimers(s, p)) + n <= (Amount(s.entitled, p) + 2 * n) * total
  }

  ghost predicate Full(s: State, p: PoolId, ratio: nat)
    requires s.epoch > 0
  {
    && ratio <= QUINTILL && ShareAt(s, p, Last(s)) == ratio && Amount(s.ratios, p) == ratio
    && ValueAt(s.pools, p, s.epoch - 1) > 0 && ValueAt(s.unseen, p, s.epoch - 1) == 0
  }

  /** No sum is beyond the pool's total. */
  lemma {:induction false} SumWithin(s: State, p: PoolId, k: (Manager, PoolId))
    requires s.epoch > 0 && PoolOk(s, p) && ValueAt(s.unseen, p, s.epoch - 1) == 0 && k.1 == p
    ensures SumOf(s, k) <= ValueAt(s.pools, p, s.epoch - 1)
  {
    hide Total, Claimed, Entitled, Noted;
    var m := ManagerSums(s.sums, p, s.epoch - 1);
    TotalPick(m, k);
  }

  lemma {:induction false} AddClaimer(m: map<(Manager, PoolId), nat>, k: (Manager, PoolId), x: nat)
    requires k !in m
    ensures Total(m[k := x]) == Total(m) + x && |m[k := x]| == |m| + 1
  {
    hide Total;
    assert m[k := x] - {k} == m - {k};
    TotalChange(m, m[k := x], k);
    assert m[k := x].Keys == m.Keys + {k};
  }

  lemma {:induction false} NearGrows(ratio: nat, total: nat, entitled: nat, part: nat, claimed: nat, sum: nat, n: nat)
    requires ratio * claimed + n <= (entitled + 2 * n) * total && ratio * sum + 1 <= (part + 2) * total
    ensures ratio * (claimed + sum) + (n + 1) <= (entitled + part + 2 * (n + 1)) * total
  {
    assert ratio * (claimed + sum) == ratio * claimed + ratio * sum;
    assert (entitled + 2 * n) * total + (part + 2) * total == (entitled + part + 2 * (n + 1)) * total;
  }

  lemma {:induction false} NearMore(ratio: nat, total: nat, entitled: nat, part: nat, claimed: nat, n: nat)
    requires ratio * claimed + n <= (entitled + 2 * n) * total
    ensures ratio * claimed + n <= (entitled + part + 2 * n) * total
  {
    MulMonotone(total, entitled + 2 * n, entitled + part + 2 * n);
  }

  lemma {:induction false} NearStep(s: State, s': State, p: PoolId, ratio: nat, k: (Manager, PoolId), sum: nat,
                                    part: nat)
    requires s.epoch > 0 && s'.epoch == s.epoch && Near(s, p, ratio) && (sum > 0 ==> k !in Claimers(s, p))
    requires Claimers(s', p) == if sum > 0 then Claimers(s, p)[k := sum] else Claimers(s, p)
    requires Amount(s'.entitled, p) == Amount(s.entitled, p) + part
    requires ValueAt(s'.pools, p, s.epoch - 1) == ValueAt(s.pools, p, s.epoch - 1)
    requires sum > 0 ==> ratio * sum < (part + 2) * ValueAt(s.pools, p, s.epoch - 1)
    ensures Near(s', p, ratio)
  {
    hide Total, Claimers, ValueAt;
    var m, total := Claimers(s, p), ValueAt(s.pools, p, s.epoch - 1);
    if sum > 0 {
      AddClaimer(m, k, sum);
      NearGrows(ratio, total, Amount(s.entitled, p), part, Total(m), sum, |m|);
    } else {
      NearMore(ratio, total, Amount(s.entitled, p), part, Total(m), |m|);
    }
  }

  lemma {:induction false} PoolKnown(s: State, p: PoolId, ratio: nat)
    requires s.epoch > 0 && Full(s, p, ratio)
    ensures p in s.pools && LastTotal(s, p) == ValueAt(s.pools, p, s.epoch - 1)
  {
  }

  lemma {:induction false} RecordedNear(s: State, m: Manager, q: PoolId, x: nat, p: PoolId, ratio: nat)
    requires s.epoch > 0 && Good(s) && Full(s, p, ratio) && Near(s, p, ratio)
    ensures var s' := Recorded(s, m, q, x);
      Full(s', p, ratio) && Near(s', p, ratio) && Holders(s', p) == Holders(s, p)
  {
    hide Good, Claimers, Holders, Recorded, Near, Part, Claim, InTime, ValueAt, PoolOk, ShareAt, SumOf;
    var s', claim := Recorded(s, m, q, x), Claim(s, m, q);
    GoodInTime(s);
    PoolOf(s, p);
    PoolKnown(s, p, ratio);
    RecordedFields(s, m, q, x, p);
    RecordedValues(s, m, q, x, p);
    RecordedHolders(s, m, q, x, p);
    RecordedClaimers(s, m, q, x, p);
    ShareKept(s, s', p);
    ClaimIsSum(s, m, q);
    SumWithin(s, p, (m, p));
    var part := if p == q && claim.Some? then PartFor(s, p, claim.value) else 0;
    var sum := if p == q && claim.Some? then claim.value else 0;
    if sum > 0 {
      PartLow(ratio, sum, LastTotal(s, p));
    }
    NearStep(s, s', p, ratio, (m, p), sum, part);
  }

  lemma {:induction false} PoolOf(s: State, p: PoolId)
    requires Good(s)
    ensures PoolOk(s, p)
  {
  }

  lemma {:induction false} ShareKept(s: State, s': State, p: PoolId)
    requires s'.shares == s.shares && s'.epoch == s.epoch
    ensures ShareAt(s', p, Last(s')) == ShareAt(s, p, Last(s))
  {
  }

  lemma {:induction false} RecordedAllNear(s: State, m: Manager, ms: seq<Metric>, p: PoolId, ratio: nat)
    requires s.epoch > 0 && Good(s) && Full(s, p, ratio) && Near(s, p, ratio)
    ensures var s' := RecordedAll(s, m, ms);
      Full(s', p, ratio) && Near(s', p, ratio) && Holders(s', p) == Holders(s, p)
    decreases |ms|
  {
    hide Good, Full, Near, Holders, Recorded;
    if ms != [] {
      RecordedGood(s, m, ms[0].pool, ms[0].value);
      RecordedNear(s, m, ms[0].pool, ms[0].value, p, ratio);
      RecordedAllNear(Recorded(s, m, ms[0].pool, ms[0].value), m, ms[1..], p, ratio);
    }
  }

  // ----- an epoch -----

  /** The step does not begin an epoch, nor change the ratio claims on the pool are paid by. */
  ghost predicate Steady(s: State, step: Step, p: PoolId) {
    && !step.Epoch?
    && (step.Modify? && step.pool == p && After(s, step).Some? ==>
          s.epoch <= step.from || step.ratio == ShareAt(s, p, Last(s)))
  }

  ghost predicate AllSteady(s: State, turns: seq<Step>, p: PoolId)
    decreases |turns|
  {
    turns == [] || (Steady(s, turns[0], p) && AllSteady(Next(s, turns[0]), turns[1..], p))
  }

  lemma {:induction false} ModifiedFull(s: State, q: PoolId, from: nat, ratio': nat, p: PoolId, ratio: nat)
    requires s.epoch > 0 && Full(s, p, ratio) && Steady(s, Modify(q, from, ratio'), p)
    requires Modified(s, q, from, ratio').Some?
    ensures Full(Modified(s, q, from, ratio').value, p, ratio)
  {
    hide ValueAt, Validated;
    ModifiedFields(s, q, from, ratio');
    ModifyExact(s, q, from, ratio', p);
  }

  lemma {:induction false} CreatedFull(s: State, q: PoolId, ratio': nat, p: PoolId, ratio: nat)
    requires s.epoch > 0 && Full(s, p, ratio) && Created(s, q, ratio').Some?
    ensures var s' := Created(s, q, ratio').value;
      && Full(s', p, ratio) && ValueAt(s'.pools, p, s.epoch - 1) == ValueAt(s.pools, p, s.epoch - 1)
      && s' == s.(pools := s'.pools, shares := s'.shares)
  {
    hide Validated;
    PoolKnown(s, p, ratio);
  }

  lemma {:induction false} NearSame(s: State, s': State, p: PoolId, ratio: nat)
    requires s.epoch > 0 && s'.epoch == s.epoch && s'.sums == s.sums && s'.entitled == s.entitled && Near(s, p, ratio)
    requires ValueAt(s'.pools, p, s.epoch - 1) == ValueAt(s.pools, p, s.epoch - 1)
    ensures Near(s', p, ratio) && Holders(s', p) == Holders(s, p)
  {
    hide Claimers, Holders, ValueAt, Total;
    ClaimersSame(s, s', p);
  }

  lemma {:induction false} NextNear(s: State, step: Step, p: PoolId, ratio: nat)
    requires s.epoch > 0 && Good(s) && Full(s, p, ratio) && Near(s, p, ratio) && Steady(s, step, p)
    ensures var s' := Next(s, step);
      s'.epoch == s.epoch && Full(s', p, ratio) && Near(s', p, ratio) && Holders(s', p) == Holders(s, p)
  {
    hide Good, Near, Holders, Created, Modified, RecordedAll, Claims, RewardFor, Full, Steady, ValueAt;
    if After(s, step).Some? {
      match step
      case Epoch(_) =>
        NotSteady(s, step, p);
      case Create(q, ratio') =>
        CreatedFull(s, q, ratio', p, ratio);
        NearSame(s, Created(s, q, ratio').value, p, ratio);
      case Modify(q, from, ratio') =>
        ModifiedFull(s, q, from, ratio', p, ratio);
        ModifiedFields(s, q, from, ratio');
        NearSame(s, Modified(s, q, from, ratio').value, p, ratio);
      case Commit(m, ms) =>
        RecordedAllNear(s, m, ms, p, ratio);
        var s' := RecordedAll(s, m, ms);
        PaidFull(s', s'.paid + RewardFor(s', Claims(s, m, ms)), p, ratio);
        NearSame(s', Committed(s, m, ms), p, ratio);
    }
  }

  lemma {:induction false} NotSteady(s: State, step: Step, p: PoolId)
    requires Steady(s, step, p)
    ensures !step.Epoch?
  {
  }

  lemma {:induction false} PaidFull(s: State, paid: nat, p: PoolId, ratio: nat)
    requires s.epoch > 0 && Full(s, p, ratio)
    ensures Full(s.(paid := paid), p, ratio)
  {
  }

  /** The manager has a metric for the pool. */
  predicate HasMetric(turns: seq<Step>, m: Manager, p: PoolId) {
    turns != [] && (Measures(turns[0], m, p) || HasMetric(turns[1..], m, p))
  }

  predicate Measures(step: Step, m: Manager, p: PoolId) {
    step.Commit? && step.m == m && exists i :: 0 <= i < |step.ms| && step.ms[i].pool == p
  }

  lemma {:induction false} TurnsNear(s: State, turns: seq<Step>, p: PoolId, ratio: nat)
    requires s.epoch > 0 && Good(s) && Full(s, p, ratio) && Near(s, p, ratio) && AllSteady(s, turns, p)
    ensures var s' := Run(s, turns);
      && s'.epoch == s.epoch && Good(s') && Full(s', p, ratio) && Near(s', p, ratio) && Holders(s', p) == Holders(s, p)
    decreases |turns|
  {
    hide Good, Near, Holders, Full, Steady, Next;
    if turns != [] {
      NextGood(s, turns[0]);
      NextNear(s, turns[0], p, ratio);
      TurnsNear(Next(s, turns[0]), turns[1..], p, ratio);
    }
  }

  lemma {:induction false} SteadyEpoch(s: State, turns: seq<Step>, p: PoolId)
    requires AllSteady(s, turns, p)
    ensures SameEpoch(turns)
    decreases |turns|
  {
    hide Next;
    if turns != [] {
      SteadyEpoch(Next(s, turns[0]), turns[1..], p);
      forall i | 0 <= i < |turns|
        ensures !turns[i].Epoch?
      {
        if i > 0 {
          assert turns[i] == turns[1..][i - 1];
        }
      }
    }
  }

  lemma {:induction false} TurnsCount(s: State, turns: seq<Step>, m: Manager, p: PoolId)
    requires Good(s) && SameEpoch(turns) && HasMetric(turns, m, p)
    ensures Counted(Run(s, turns), m, p)
    decreases |turns|
  {
    hide Good, Counted, RecordedAll, Claims, RewardFor;
    var step, rest := turns[0], turns[1..];
    NextGood(s, step);
    assert SameEpoch(rest);
    if Measures(step, m, p) {
      RecordedAllCounted(s, m, step.ms, m, p);
      CountedPaid(RecordedAll(s, m, step.ms), Next(s, step), m, p);
      RunCounted(Next(s, step), rest, m, p);
    } else {
      TurnsCount(Next(s, step), rest, m, p);
    }
  }

  lemma {:induction false} CountedPaid(s: State, s': State, m: Manager, p: PoolId)
    requires Counted(s, m, p) && s'.sums == s.sums && s'.epoch == s.epoch
    ensures Counted(s', m, p)
  {
  }

  lemma {:induction false} AllClaimed(s: State, p: PoolId)
    requires s.epoch > 0 && forall k :: k in Holders(s, p) ==> Counted(s, k.0, p)
    ensures Claimers(s, p) == Holders(s, p)
  {
    hide Claimers, Holders, SumOf;
    forall k
      ensures k in Claimers(s, p) <==> k in Holders(s, p)
      ensures k in Claimers(s, p) ==> Claimers(s, p)[k] == Holders(s, p)[k]
    {
      ClaimerAt(s, p, k);
    }
  }

  lemma {:induction false} HoldersSum(s: State, p: PoolId)
    requires s.epoch > 0 && PoolOk(s, p) && ValueAt(s.unseen, p, s.epoch - 1) == 0
    ensures Total(Holders(s, p)) == ValueAt(s.pools, p, s.epoch - 1)
  {
    hide Total, Claimed, Entitled, Noted;
    var all, some := ManagerSums(s.sums, p, s.epoch - 1), Holders(s, p);
    TotalBelow(all, some);
    TotalBelow(some, all);
  }

  lemma {:induction false} Claimable(s: State, p: PoolId, ratio: nat)
    requires s.epoch > 0 && PoolOk(s, p) && Full(s, p, ratio) && Near(s, p, ratio) && Claimers(s, p) == Holders(s, p)
    ensures Amount(s.entitled, p) <= ratio < Amount(s.entitled, p) + 2 * |Holders(s, p)|
  {
    hide PoolOk, Claimers, Holders, ValueAt;
    HoldersSum(s, p);
    WithinRatio(s, p);
    NoSum();
    assert Holders(s, p) != map[];
    hide Total;
    NoneLeft(ratio, ValueAt(s.pools, p, s.epoch - 1), Amount(s.entitled, p), |Holders(s, p)|);
  }

  lemma {:induction false} NoneLeft(ratio: nat, total: nat, entitled: nat, n: nat)
    requires 0 < n && ratio * total + n <= (entitled + 2 * n) * total
    ensures ratio < entitled + 2 * n
  {
    if ratio >= entitled + 2 * n {
      MulMonotone(total, entitled + 2 * n, ratio);
    }
  }

  lemma {:induction false} NoSum()
    ensures Total<(Manager, PoolId)>(map[]) == 0
  {
  }

  lemma {:induction false} NoClaimers(s: State, p: PoolId, ratio: nat)
    requires s.epoch > 0 && forall k :: k !in Claimers(s, p)
    ensures Near(s, p, ratio)
  {
    hide Claimers, ValueAt, Total;
    var m := Claimers(s, p);
    TotalZero(m);
    assert |m| == 0 by { assert m == map[]; }
  }

  lemma {:induction false} NewEpochNear(s: State, reward: nat, p: PoolId)
    requires Good(s)
    ensures var s' := NewEpoch(s, reward);
      && s'.epoch > 0 && Near(s', p, ShareAt(s, p, s.epoch)) && ShareAt(s, p, s.epoch) <= QUINTILL
      && (LastTotal(s', p) > 0 && ValueAt(s'.unseen, p, s.epoch) == 0 ==> Full(s', p, ShareAt(s, p, s.epoch)))
  {
    var s' := NewEpoch(s, reward);
    RatioWithin(s, p);
    hide Total, Near, Claimers, PoolOk, Rational;
    forall k
      ensures k !in Claimers(s', p)
    {
      SumsInTime(s, k);
      ClaimerAt(s', p, k);
    }
    NoClaimers(s', p, ShareAt(s, p, s.epoch));
  }

  lemma {:induction false} RatioWithin(s: State, p: PoolId)
    requires Good(s)
    ensures ShareAt(s, p, s.epoch) <= QUINTILL
  {
    hide Total, PoolOk;
    TotalPick(RatiosAt(s.shares, s.epoch), p);
  }

  /**
   * In every run: if a pool missed no metric of an epoch, every manager with a sum in it has a metric
   * for it in the next epoch, and its ratio stays, less than two for each of them is left of the ratio.
   */
  lemma {:induction false} RatioSpent(steps: seq<Step>, reward: nat, turns: seq<Step>, p: PoolId)
    requires AllSteady(Next(Run(NO_STATE, steps), Epoch(reward)), turns, p)
    requires var s := Next(Run(NO_STATE, steps), Epoch(reward));
      && s.epoch > 0 && LastTotal(s, p) > 0 && ValueAt(s.unseen, p, s.epoch - 1) == 0
      && forall k :: k in Holders(s, p) ==> HasMetric(turns, k.0, p)
    ensures var s0 := Next(Run(NO_STATE, steps), Epoch(reward));
      var ratio, entitled := ShareAt(s0, p, s0.epoch - 1), Amount(Run(s0, turns).entitled, p);
      entitled <= ratio < entitled + 2 * |Holders(s0, p)|
  {
    hide Run, Good, Total, Near, Claimers, Holders, HasMetric, AllSteady, ValueAt, PoolOk;
    EmptyGood();
    RunGood(NO_STATE, steps);
    var s := Run(NO_STATE, steps);
    var s0 := NewEpoch(s, reward);
    NewEpochGood(s, reward);
    NewEpochNear(s, reward, p);
    var ratio := ShareAt(s, p, s.epoch);
    TurnsNear(s0, turns, p, ratio);
    SteadyEpoch(s0, turns, p);
    var s' := Run(s0, turns);
    forall k | k in Holders(s', p)
      ensures Counted(s', k.0, p)
    {
      TurnsCount(s0, turns, k.0, p);
    }
    AllClaimed(s', p);
    PoolOf(s', p);
    Claimable(s', p, ratio);
  }

  // ----- what is paid -----

  /** Claims are all for known pools: then the parts are exactly those entitled to. */
  lemma {:induction false} ClaimsExact(s: State, m: Manager, ms: seq<Metric>)
    requires Good(s) && forall i :: 0 <= i < |ms| ==> ms[i].pool in s.pools
    ensures var s', parts := RecordedAll(s, m, ms), PartsOf(s, Claims(s, m, ms));
      parts.Some? && Total(s'.entitled) == Total(s.entitled) + parts.value
    decreases |ms|
  {
    hide Good, Recorded, Total, PartFor, Claim, InTime, ValueAt;
    if ms != [] {
      var p, x := ms[0].pool, ms[0].value;
      var s1 := Recorded(s, m, p, x);
      GoodInTime(s);
      RecordedGood(s, m, p, x);
      RecordedSame(s, m, p, x);
      RecordedTotal(s, m, p, x);
      ClaimsExact(s1, m, ms[1..]);
      var rest := Claims(s1, m, ms[1..]);
      PartsSame(s, s1, rest);
      if Claim(s, m, p).Some? {
        assert Claims(s, m, ms)[0] == (p, Claim(s, m, p).value) && Claims(s, m, ms)[1..] == rest;
      }
    }
  }

  /** A claim for an unknown pool makes the whole commit's reward nothing. */
  lemma {:induction false} UnknownPoolPaysNothing(s: State, m: Manager, ms: seq<Metric>, i: nat)
    requires i < |Claims(s, m, ms)| && Claims(s, m, ms)[i].0 !in RecordedAll(s, m, ms).pools
    ensures Committed(s, m, ms).paid == RecordedAll(s, m, ms).paid
  {
    hide RecordedAll, Claims;
    NoParts(RecordedAll(s, m, ms), Claims(s, m, ms), i);
  }

  lemma {:induction false} NoParts(s: State, claims: seq<(PoolId, nat)>, i: nat)
    requires i < |claims| && claims[i].0 !in s.pools
    ensures PartsOf(s, claims).None?
    decreases |claims|
  {
    hide PartFor;
    if i > 0 && claims[0].0 in s.pools {
      NoParts(s, claims[1..], i - 1);
    }
  }

  /** A manager is paid the reward by the parts its metrics entitle it to, at most the whole, rounded down. */
  lemma {:induction false} CommitPays(s: State, m: Manager, ms: seq<Metric>)
    requires Good(s) && forall i :: 0 <= i < |ms| ==> ms[i].pool in s.pools
    ensures var s' := Committed(s, m, ms);
      var parts, pay := Total(s'.entitled) - Total(s.entitled), s'.paid - s.paid;
      && 0 <= parts && 0 <= pay && s'.reward == s.reward
      && pay * QUINTILL <= (if parts < QUINTILL then parts else QUINTILL) * s.reward < (pay + 1) * QUINTILL
  {
    hide Good, Total, PartsOf, RecordedAll, Claims;
    ClaimsExact(s, m, ms);
    ClaimsEntitled(s, m, ms);
    var s' := RecordedAll(s, m, ms);
    PartsSame(s, s', Claims(s, m, ms));
    var parts := PartsOf(s, Claims(s, m, ms)).value;
    FloorOf(Minimum(QUINTILL, parts) * s.reward, QUINTILL);
  }
}
