/** The records of staking and delegation, the history buffer they use and the rounding of shares. */
module StakingBase {
  import opened Wrappers
  import opened Arithmetic

  type Account = nat
  type CommitmentId = nat
  type Key = (Account, CommitmentId)

  const PER_TOKEN: nat := 1_000_000_000_000_000_000_000_000_000_000
  const QUINTILL: nat := 1_000_000_000_000_000_000

  /** The configured limits; the ratio is in parts of `QUINTILL`. */
  datatype Config = Config(minStake: nat, minDelegation: nat, minPeriod: nat, maxPeriod: nat, cooldownRatio: nat,
                           redelegationBlocks: nat)
  {
    predicate Valid() {
      1 <= minPeriod && 1 <= maxPeriod && cooldownRatio <= QUINTILL
    }
  }

  datatype Stake = Stake(amount: nat, rewardable: nat, created: nat, period: nat, cooldown: Option<nat>,
                         accruedReward: nat, accruedSlash: nat, paid: nat)

  datatype Weights = Weights(selfReward: nat, selfSlash: nat, delegReward: nat, delegSlash: nat)

  datatype PoolReward = PoolReward(rewardPerWeight: nat, slashPerWeight: nat)

  datatype Commitment = Commitment(stake: Option<Stake>, commission: nat, delegTotal: nat,
                                   weights: Memory<Weights>, pool: Memory<PoolReward>, lastSlashing: nat)

  datatype Delegation = Delegation(stake: Stake, rewardWeight: nat, slashWeight: nat, rewardDebt: nat, slashDebt: nat)

  const NO_WEIGHTS := Weights(0, 0, 0, 0)
  const NO_REWARDS := PoolReward(0, 0)

  function NewStake(amount: nat, created: nat, period: nat): Stake {
    Stake(amount, amount, created, period, None, 0, 0, 0)
  }

  function Get<K>(m: map<K, nat>, k: K): nat {
    if k in m then m[k] else 0
  }

  function Minus(a: nat, b: nat): nat {
    if a < b then 0 else a - b
  }

  // ----- history of one past and one current value -----

  datatype Memory<V> = Memory(past: Option<(nat, V)>, time: nat, value: V)
  {
    /** The value valid at time `t`, as far as remembered. */
    function GetLatest(t: nat): Option<V> {
      if t >= time then Some(value)
      else if past.Some? && t >= past.value.0 then Some(past.value.1)
      else None
    }

    /** Setting the value at time `t`; fails for a time before the current value's. */
    function SetAt(t: nat, v: V): Option<Memory<V>> {
      if t < time then None
      else if t == time then Some(Memory(past, time, v))
      else Some(Memory(Some((time, value)), t, v))
    }
  }

  function NewMemory<V>(t: nat, v: V): Memory<V> {
    Memory(None, t, v)
  }

  /** A set value is read back from its time on; before, what was read is read or forgotten. */
  lemma {:induction false} MemoryHistory<V>(m: Memory<V>, t: nat, v: V, u: nat)
    requires m.time <= t && (m.past.Some? ==> m.past.value.0 < m.time)
    ensures var m' := m.SetAt(t, v);
      && m'.Some? && (m'.value.past.Some? ==> m'.value.past.value.0 < m'.value.time)
      && (u >= t ==> m'.value.GetLatest(u) == Some(v))
      && (m.time <= u < t ==> m'.value.GetLatest(u) == Some(m.value))
      && (u < m.time && m.time < t ==> m'.value.GetLatest(u) == None)
      && (u < m.time == t ==> m'.value.GetLatest(u) == m.GetLatest(u))
  {
  }

  // ----- rounding -----

  function MulFloor(parts: nat, x: nat): nat {
    parts * x / QUINTILL
  }

  lemma {:induction false} MulFloorBound(parts: nat, x: nat)
    requires parts <= QUINTILL
    ensures MulFloor(parts, x) <= x
  {
    assert parts * x <= QUINTILL * x;
  }

  lemma {:induction false} MulFloorMonotone(parts: nat, x: nat, y: nat)
    requires x <= y
    ensures MulFloor(parts, x) <= MulFloor(parts, y)
  {
    assert parts * x <= parts * y;
    DivMonotone(parts * x, parts * y, QUINTILL);
  }

  /** The weight of an amount bound for a cooldown period. */
  function Weight(cfg: Config, amount: nat, period: nat): nat
    requires cfg.maxPeriod > 0
  {
    amount * period / cfg.maxPeriod
  }

  lemma {:induction false} WeightMonotone(cfg: Config, a: nat, b: nat, period: nat)
    requires cfg.maxPeriod > 0 && a <= b
    ensures Weight(cfg, a, period) <= Weight(cfg, b, period)
  {
    assert a * period <= b * period;
    DivMonotone(a * period, b * period, cfg.maxPeriod);
  }

  /** A share of a per-weight amount, rounded down. */
  function FloorShare(weight: nat, perWeight: nat): nat {
    weight * perWeight / PER_TOKEN
  }

  /** The same rounded up, as debts are. */
  function CeilShare(weight: nat, perWeight: nat): nat {
    (weight * perWeight + PER_TOKEN - 1) / PER_TOKEN
  }

  lemma {:induction false} ShareBounds(weight: nat, perWeight: nat)
    ensures PER_TOKEN * FloorShare(weight, perWeight) <= weight * perWeight <= PER_TOKEN * CeilShare(weight, perWeight)
    ensures FloorShare(weight, perWeight) <= CeilShare(weight, perWeight) <= FloorShare(weight, perWeight) + 1
  {
    var x := weight * perWeight;
    assert x == PER_TOKEN * (x / PER_TOKEN) + x % PER_TOKEN;
    var y := x + PER_TOKEN - 1;
    assert y == PER_TOKEN * (y / PER_TOKEN) + y % PER_TOKEN;
  }

  lemma {:induction false} FloorShareMonotone(weight: nat, p: nat, q: nat)
    requires p <= q
    ensures FloorShare(weight, p) <= FloorShare(weight, q)
  {
    assert weight * p <= weight * q;
    DivMonotone(weight * p, weight * q, PER_TOKEN);
  }

  /** What a delegation could still accrue, in units of one `PER_TOKEN`th. */
  function PendingOf(weight: nat, perWeight: nat, debt: nat): nat {
    Minus(weight * perWeight, PER_TOKEN * debt)
  }

  lemma {:induction false} NothingPending(weight: nat, perWeight: nat)
    ensures PendingOf(weight, perWeight, CeilShare(weight, perWeight)) == 0
  {
    ShareBounds(weight, perWeight);
  }

  /** An accrual is covered by what was pending. */
  lemma {:induction false} AccrualCovered(weight: nat, perWeight: nat, debt: nat)
    ensures PER_TOKEN * Minus(FloorShare(weight, perWeight), debt) <= PendingOf(weight, perWeight, debt)
  {
    ShareBounds(weight, perWeight);
  }

  lemma {:induction false} PendingGrowth(weight: nat, perWeight: nat, extra: nat, debt: nat)
    ensures PendingOf(weight, perWeight + extra, debt) <= PendingOf(weight, perWeight, debt) + weight * extra
  {
    assert weight * (perWeight + extra) == weight * perWeight + weight * extra;
  }

  /**
   * Rounding down a distribution by its divisor never gives out more than was distributed, for
   * every reward, exactly when the divisor is at least the weight paid out on.
   */
  lemma {:induction false} DivisorExact(weight: nat, divisor: nat)
    requires divisor > 0
    ensures weight <= divisor <==> forall reward: nat :: weight * PerWeight(reward, divisor) <= PER_TOKEN * reward
  {
    if weight <= divisor {
      forall reward: nat
        ensures weight * PerWeight(reward, divisor) <= PER_TOKEN * reward
      {
        DivisorCovers(weight, divisor, reward);
      }
    } else {
      assert PerWeight(divisor, divisor) == PER_TOKEN by { ExactQuotient(divisor); }
      assert weight * PER_TOKEN > PER_TOKEN * divisor;
    }
  }

  lemma {:induction false} ExactQuotient(d: nat)
    requires d > 0
    ensures PER_TOKEN * d / d == PER_TOKEN
  {
  }

  /** The per-weight amount a reward is distributed as. */
  function PerWeight(reward: nat, divisor: nat): nat
    requires divisor > 0
  {
    reward * PER_TOKEN / divisor
  }

  lemma {:induction false} DivisorCovers(weight: nat, divisor: nat, reward: nat)
    requires divisor > 0 && weight <= divisor
    ensures weight * PerWeight(reward, divisor) <= PER_TOKEN * reward
  {
    var q := PerWeight(reward, divisor);
    assert divisor * q <= reward * PER_TOKEN;
    assert weight * q <= divisor * q;
  }
}
