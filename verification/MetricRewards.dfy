/**
 * Rewards for measured compute. During an epoch the metrics of each manager are summed up per pool;
 * a manager's first metric in the next epoch claims its part of that epoch's reward, in proportion
 * to its sum, pool by pool.
 *
 * `unseen` is what was summed up for a pool that did not exist. `entitled` are the parts of the
 * reward claimed per pool, `paid` what was paid for them, both for the epoch before the current one,
 * and `ratios` the highest ratios that pools with metrics have had for that epoch in the current one.
 */
module MetricRewards {
  import opened Wrappers
  import opened StakingBase
  import opened Arithmetic
  import opened MapSums
  import opened SlidingBuffers
  import opened ProvisionalBuffers

  type PoolId = nat
  type Manager = nat
  type Sums = map<(Manager, PoolId), Sliding<nat>>

  datatype State = State(
    epoch: nat, pools: map<PoolId, Sliding<nat>>, shares: map<PoolId, Provisional>, sums: Sums,
    unseen: map<PoolId, Sliding<nat>>, ratios: map<PoolId, nat>, reward: nat, entitled: map<PoolId, nat>, paid: nat)

  const NO_STATE := State(0, map[], map[], map[], map[], map[], 0, map[], 0)

  function BufferOf<K>(m: map<K, Sliding<nat>>, k: K): Sliding<nat> {
    if k in m then m[k] else Empty(0)
  }

  function ValueAt<K>(m: map<K, Sliding<nat>>, k: K, e: nat): nat {
    BufferOf(m, k).Get(e, 0)
  }

  /** Adding to the value of an epoch. */
  function Added<K>(m: map<K, Sliding<nat>>, k: K, e: nat, x: nat): map<K, Sliding<nat>> {
    m[k := BufferOf(m, k).Set(e, ValueAt(m, k, e) + x, 0)]
  }

  lemma {:induction false} AddedValues<K>(m: map<K, Sliding<nat>>, k: K, e: nat, x: nat, j: K)
    requires BufferOf(m, k).epoch <= e
    ensures ValueAt(Added(m, k, e, x), j, e) == ValueAt(m, j, e) + if j == k then x else 0
    ensures e > 0 ==> ValueAt(Added(m, k, e, x), j, e - 1) == ValueAt(m, j, e - 1)
    ensures BufferOf(Added(m, k, e, x), k).epoch == e
  {
  }

  // ----- recording a metric -----

  /** A manager's part of a pool's reward, in parts of `QUINTILL`. */
  function Part(ratio: nat, sum: nat, total: nat): nat {
    if total == 0 then 0 else MulFloor(ratio, Minimum(QUINTILL, sum * QUINTILL / total))
  }

  function Minimum(a: nat, b: nat): nat {
    if a < b then a else b
  }

  lemma {:induction false} PartBoundary(ratio: nat, sum: nat, total: nat)
    ensures Part(ratio, sum, total) * total <= ratio * sum
    ensures total == 0 ==> Part(ratio, sum, total) == 0
  {
    if total > 0 {
      var f := Minimum(QUINTILL, sum * QUINTILL / total);
      FloorOf(sum * QUINTILL, total);
      MulMonotone(total, f, sum * QUINTILL / total);
      FloorOf(ratio * f, QUINTILL);
      Chain(MulFloor(ratio, f), total, ratio, f, sum);
    }
  }

  lemma {:induction false} Chain(part: nat, total: nat, ratio: nat, f: nat, sum: nat)
    requires f * total <= sum * QUINTILL && part * QUINTILL <= ratio * f
    ensures part * total <= ratio * sum
  {
    MulMonotone(total, part * QUINTILL, ratio * f);
    MulMonotone(ratio, f * total, sum * QUINTILL);
    assert total * (part * QUINTILL) == (part * total) * QUINTILL;
    assert total * (ratio * f) == ratio * (f * total);
    assert ratio * (sum * QUINTILL) == (ratio * sum) * QUINTILL;
    ScaleDown(part * total, ratio * sum);
  }

  lemma {:induction false} ScaleDown(x: nat, y: nat)
    requires x * QUINTILL <= y * QUINTILL
    ensures x <= y
  {
  }

  /** The sum a manager's first metric of an epoch claims for: none unless it had metrics the epoch before. */
  function Claim(s: State, m: Manager, p: PoolId): Option<nat> {
    var b := BufferOf(s.sums, (m, p));
    if b.epoch + 1 == s.epoch then Some(b.cur) else None
  }

  /** A pool's total of the last epoch. */
  function LastTotal(s: State, p: PoolId): nat {
    if s.epoch == 0 then 0 else ValueAt(s.pools, p, s.epoch - 1)
  }

  /** The epoch claimed for. */
  function Last(s: State): nat {
    if s.epoch == 0 then 0 else s.epoch - 1
  }

  /** A pool's ratio for an epoch, as it stands now. */
  function ShareAt(s: State, p: PoolId, e: nat): nat {
    if p in s.shares then s.shares[p].Get(e) else 0
  }

  function PartFor(s: State, p: PoolId, sum: nat): nat {
    Part(ShareAt(s, p, Last(s)), sum, LastTotal(s, p))
  }

  function Recorded(s: State, m: Manager, p: PoolId, x: nat): (r: State)
    ensures r.epoch == s.epoch
  {
    var claim := Claim(s, m, p);
    s.(pools := if p in s.pools then Added(s.pools, p, s.epoch, x) else s.pools,
       unseen := if p in s.pools then s.unseen else Added(s.unseen, p, s.epoch, x),
       sums := Added(s.sums, (m, p), s.epoch, x),
       entitled := if p in s.pools && claim.Some?
                   then s.entitled[p := Amount(s.entitled, p) + PartFor(s, p, claim.value)] else s.entitled)
  }

  // ----- what holds in every reachable state -----

  /** The sums of all managers in a pool. */
  ghost function ManagerSums(sums: Sums, p: PoolId, e: nat): map<(Manager, PoolId), nat> {
    map k | k in sums && k.1 == p :: sums[k].Get(e, 0)
  }

  /** Those of the last epoch, of managers that have had a metric since. */
  ghost function Claimed(s: State, p: PoolId): map<(Manager, PoolId), nat>
    requires s.epoch > 0
  {
    map k | k in s.sums && k.1 == p && s.sums[k].epoch == s.epoch :: s.sums[k].Get(s.epoch - 1, 0)
  }

  ghost predicate InTime(s: State) {
    && (forall p :: p in s.pools ==> s.pools[p].epoch <= s.epoch)
    && (forall p :: p in s.unseen ==> s.unseen[p].epoch <= s.epoch)
    && (forall k :: k in s.sums ==> s.sums[k].epoch <= s.epoch)
  }

  /** A pool's total and what it missed is the sum over the managers. */
  ghost predicate Conserved(s: State, p: PoolId, e: nat) {
    ValueAt(s.pools, p, e) + ValueAt(s.unseen, p, e) == Total(ManagerSums(s.sums, p, e))
  }

  ghost predicate Entitled(s: State, p: PoolId)
    requires s.epoch > 0
  {
    && Amount(s.entitled, p) * ValueAt(s.pools, p, s.epoch - 1) <= Amount(s.ratios, p) * Total(Claimed(s, p))
    && (Amount(s.entitled, p) > 0 ==> ValueAt(s.pools, p, s.epoch - 1) > 0)
  }

  /** A pool with metrics to claim for has a ratio no higher than noted. */
  predicate Noted(s: State, p: PoolId) {
    LastTotal(s, p) > 0 ==> ShareAt(s, p, Last(s)) <= Amount(s.ratios, p)
  }

  ghost predicate PoolOk(s: State, p: PoolId) {
    && Conserved(s, p, s.epoch) && Noted(s, p)
    && (s.epoch > 0 ==> Conserved(s, p, s.epoch - 1) && Entitled(s, p))
  }

  function RatiosAt(shares: map<PoolId, Provisional>, e: nat): map<PoolId, nat> {
    map p | p in shares :: shares[p].Get(e)
  }

  /** From an epoch on, the ratios of the pools add up to at most one. */
  ghost predicate Rational(shares: map<PoolId, Provisional>, e: nat) {
    forall f: nat :: e <= f ==> Total(RatiosAt(shares, f)) <= QUINTILL
  }

  ghost predicate Good(s: State) {
    && InTime(s) && s.shares.Keys == s.pools.Keys && Rational(s.shares, s.epoch)
    && s.paid * QUINTILL <= s.reward * Total(s.entitled)
    && (forall p :: PoolOk(s, p))
  }

  // ----- recording keeps it -----

  lemma {:induction false} SumsPut(sums: Sums, k: (Manager, PoolId), b: Sliding<nat>, p: PoolId, e: nat)
    ensures Total(ManagerSums(sums[k := b], p, e)) + (if k.1 == p then ValueAt(sums, k, e) else 0)
         == Total(ManagerSums(sums, p, e)) + (if k.1 == p then b.Get(e, 0) else 0)
  {
    hide Total;
    var m, m' := ManagerSums(sums, p, e), ManagerSums(sums[k := b], p, e);
    assert m' - {k} == m - {k};
    TotalChange(m, m', k);
  }

  lemma {:induction false} ClaimedPut(s: State, k: (Manager, PoolId), b: Sliding<nat>, p: PoolId)
    requires s.epoch > 0 && b.epoch == s.epoch
    ensures var s' := s.(sums := s.sums[k := b]);
      var was := if k.1 == p && k in s.sums && s.sums[k].epoch == s.epoch then s.sums[k].Get(s.epoch - 1, 0) else 0;
      Total(Claimed(s', p)) + was == Total(Claimed(s, p)) + (if k.1 == p then b.Get(s.epoch - 1, 0) else 0)
  {
    hide Total;
    var m, m' := Claimed(s, p), Claimed(s.(sums := s.sums[k := b]), p);
    assert m' - {k} == m - {k};
    TotalChange(m, m', k);
  }

  lemma {:induction false} ClaimedSame(s: State, s': State, p: PoolId)
    requires s.epoch > 0 && s'.epoch == s.epoch && s'.sums == s.sums
    ensures Claimed(s', p) == Claimed(s, p)
  {
  }

  /** A manager's sum counts as claimed from its first metric on. */
  lemma {:induction false} RecordedClaim(s: State, m: Manager, q: PoolId, x: nat, p: PoolId)
    requires s.epoch > 0 && InTime(s)
    ensures Total(Claimed(Recorded(s, m, q, x), p))
         == Total(Claimed(s, p)) + if p == q && Claim(s, m, q).Some? then Claim(s, m, q).value else 0
  {
    hide Total, Claimed, InTime, PartFor, Claim;
    var k, e := (m, q), s.epoch;
    var b := BufferOf(s.sums, k);
    var b' := b.Set(e, ValueAt(s.sums, k, e) + x, 0);
    SumsInTime(s, k);
    ClaimedBefore(s, m, q);
    ClaimedPut(s, k, b', p);
    ClaimedSame(s.(sums := s.sums[k := b']), Recorded(s, m, q, x), p);
  }

  lemma {:induction false} ClaimedBefore(s: State, m: Manager, q: PoolId)
    requires s.epoch > 0 && BufferOf(s.sums, (m, q)).epoch <= s.epoch
    ensures var k, e := (m, q), s.epoch;
      var was := if k in s.sums && s.sums[k].epoch == e then s.sums[k].Get(e - 1, 0) else 0;
      ValueAt(s.sums, k, e - 1) == was + if Claim(s, m, q).Some? then Claim(s, m, q).value else 0
    ensures forall x: nat :: BufferOf(s.sums, (m, q)).Set(s.epoch, x, 0).epoch == s.epoch
    ensures forall x: nat ::
      BufferOf(s.sums, (m, q)).Set(s.epoch, x, 0).Get(s.epoch - 1, 0) == ValueAt(s.sums, (m, q), s.epoch - 1)
  {
  }

  lemma {:induction false} AddedSums(sums: Sums, k: (Manager, PoolId), e: nat, x: nat, p: PoolId)
    requires BufferOf(sums, k).epoch <= e
    ensures Total(ManagerSums(Added(sums, k, e, x), p, e)) == Total(ManagerSums(sums, p, e)) + if k.1 == p then x else 0
    ensures e > 0 ==> Total(ManagerSums(Added(sums, k, e, x), p, e - 1)) == Total(ManagerSums(sums, p, e - 1))
  {
    hide Total, ManagerSums;
    var b' := BufferOf(sums, k).Set(e, ValueAt(sums, k, e) + x, 0);
    SetGet(BufferOf(sums, k), e, ValueAt(sums, k, e) + x, 0);
    SumsPut(sums, k, b', p, e);
    if e > 0 {
      SumsPut(sums, k, b', p, e - 1);
    }
  }

  lemma {:induction false} RecordedFields(s: State, m: Manager, q: PoolId, x: nat, p: PoolId)
    ensures var s' := Recorded(s, m, q, x);
      && s'.ratios == s.ratios && s'.shares == s.shares && s'.pools.Keys == s.pools.Keys
      && s'.reward == s.reward && s'.paid == s.paid
      && s'.sums == Added(s.sums, (m, q), s.epoch, x)
      && (p in s'.pools <==> p in s.pools)
      && Amount(s'.entitled, p) == Amount(s.entitled, p)
         + if p == q && q in s.pools && Claim(s, m, q).Some? then PartFor(s, p, Claim(s, m, q).value) else 0
  {
  }

  lemma {:induction false} SumsInTime(s: State, k: (Manager, PoolId))
    requires InTime(s)
    ensures BufferOf(s.sums, k).epoch <= s.epoch
  {
  }

  lemma {:induction false} RecordedValues(s: State, m: Manager, q: PoolId, x: nat, p: PoolId)
    requires InTime(s)
    ensures var s', e := Recorded(s, m, q, x), s.epoch;
      && ValueAt(s'.pools, p, e) == ValueAt(s.pools, p, e) + (if p == q && q in s.pools then x else 0)
      && ValueAt(s'.unseen, p, e) == ValueAt(s.unseen, p, e) + (if p == q && q !in s.pools then x else 0)
      && (e > 0 ==> ValueAt(s'.pools, p, e - 1) == ValueAt(s.pools, p, e - 1))
      && (e > 0 ==> ValueAt(s'.unseen, p, e - 1) == ValueAt(s.unseen, p, e - 1))
  {
    hide PartFor, Claim, Added, ValueAt;
    if q in s.pools {
      AddedValues(s.pools, q, s.epoch, x, p);
    } else {
      AddedValues(s.unseen, q, s.epoch, x, p);
    }
  }

  lemma {:induction false} RecordedConserved(s: State, m: Manager, q: PoolId, x: nat, p: PoolId)
    requires InTime(s) && Conserved(s, p, s.epoch)
    ensures Conserved(Recorded(s, m, q, x), p, s.epoch)
    ensures s.epoch > 0 && Conserved(s, p, s.epoch - 1) ==> Conserved(Recorded(s, m, q, x), p, s.epoch - 1)
  {
    hide Total, ManagerSums, Added, ValueAt, Recorded, InTime, BufferOf;
    RecordedFields(s, m, q, x, p);
    SumsInTime(s, (m, q));
    RecordedValues(s, m, q, x, p);
    AddedSums(s.sums, (m, q), s.epoch, x, p);
  }

  lemma {:induction false} PartNoted(s: State, p: PoolId, sum: nat)
    requires s.epoch > 0 && Noted(s, p)
    ensures var total := ValueAt(s.pools, p, s.epoch - 1);
      PartFor(s, p, sum) * total <= Amount(s.ratios, p) * sum && (total == 0 ==> PartFor(s, p, sum) == 0)
  {
    hide Part, ShareAt, ValueAt;
    PartBoundary(ShareAt(s, p, Last(s)), sum, LastTotal(s, p));
    if LastTotal(s, p) > 0 {
      MulMonotone(sum, ShareAt(s, p, Last(s)), Amount(s.ratios, p));
    }
  }

  lemma {:induction false} RecordedEntitled(s: State, m: Manager, q: PoolId, x: nat, p: PoolId)
    requires s.epoch > 0 && InTime(s) && Entitled(s, p) && Noted(s, p)
    ensures Entitled(Recorded(s, m, q, x), p)
  {
    hide Total, Claimed, PartFor, Recorded, InTime, ValueAt, Claim, Noted;
    var claim := Claim(s, m, q);
    var part := if p == q && q in s.pools && claim.Some? then PartFor(s, p, claim.value) else 0;
    var sum := if p == q && claim.Some? then claim.value else 0;
    RecordedFields(s, m, q, x, p);
    RecordedClaim(s, m, q, x, p);
    RecordedValues(s, m, q, x, p);
    var total := ValueAt(s.pools, p, s.epoch - 1);
    PartNoted(s, p, sum);
    Grow(Amount(s.entitled, p), part, total, Amount(s.ratios, p), Total(Claimed(s, p)), sum);
  }

  lemma {:induction false} Grow(entitled: nat, part: nat, total: nat, ratio: nat, claimed: nat, sum: nat)
    requires entitled * total <= ratio * claimed && part * total <= ratio * sum
    ensures (entitled + part) * total <= ratio * (claimed + sum)
  {
    assert (entitled + part) * total == entitled * total + part * total;
    assert ratio * (claimed + sum) == ratio * claimed + ratio * sum;
  }

  lemma {:induction false} RecordedTotal(s: State, m: Manager, p: PoolId, x: nat)
    ensures Total(Recorded(s, m, p, x).entitled)
         == Total(s.entitled) + if p in s.pools && Claim(s, m, p).Some? then PartFor(s, p, Claim(s, m, p).value) else 0
  {
    hide Total, Added, PartFor;
    var s' := Recorded(s, m, p, x);
    if p in s.pools && Claim(s, m, p).Some? {
      assert s'.entitled - {p} == s.entitled - {p};
      TotalChange(s.entitled, s'.entitled, p);
    }
  }

  lemma {:induction false} RecordedNoted(s: State, m: Manager, q: PoolId, x: nat, p: PoolId)
    requires InTime(s) && Noted(s, p)
    ensures Noted(Recorded(s, m, q, x), p)
  {
    hide Recorded, InTime, ValueAt;
    RecordedFields(s, m, q, x, p);
    RecordedValues(s, m, q, x, p);
  }

  lemma {:induction false} RecordedGood(s: State, m: Manager, p: PoolId, x: nat)
    requires Good(s)
    ensures Good(Recorded(s, m, p, x))
  {
    var s' := Recorded(s, m, p, x);
    RecordedTotal(s, m, p, x);
    RecordedInTime(s, m, p, x);
    RecordedFields(s, m, p, x, p);
    hide InTime, Total, PartFor, Conserved, Entitled, Added, Noted, Rational, Recorded;
    MulMonotone(s.reward, Total(s.entitled), Total(s'.entitled));
    forall q
      ensures PoolOk(s', q)
    {
      assert PoolOk(s, q);
      RecordedConserved(s, m, p, x, q);
      RecordedNoted(s, m, p, x, q);
      if s.epoch > 0 {
        RecordedEntitled(s, m, p, x, q);
      }
    }
  }

  lemma {:induction false} RecordedInTime(s: State, m: Manager, p: PoolId, x: nat)
    requires InTime(s)
    ensures InTime(Recorded(s, m, p, x))
  {
    AddedValues(s.sums, (m, p), s.epoch, x, (m, p));
    AddedValues(s.pools, p, s.epoch, x, p);
    AddedValues(s.unseen, p, s.epoch, x, p);
    hide PartFor;
  }

  // ----- committing metrics and claiming -----

  datatype Metric = Metric(pool: PoolId, value: nat)

  function RecordedAll(s: State, m: Manager, ms: seq<Metric>): (r: State)
    ensures r.epoch == s.epoch
    decreases |ms|
  {
    if ms == [] then s else RecordedAll(Recorded(s, m, ms[0].pool, ms[0].value), m, ms[1..])
  }

  /** The pools claimed for and the sums claimed. */
  function Claims(s: State, m: Manager, ms: seq<Metric>): seq<(PoolId, nat)>
    decreases |ms|
  {
    if ms == [] then []
    else
      var claim, rest := Claim(s, m, ms[0].pool), Claims(Recorded(s, m, ms[0].pool, ms[0].value), m, ms[1..]);
      if claim.Some? then [(ms[0].pool, claim.value)] + rest else rest
  }

  /** The parts of all pools, or nothing if a pool is unknown. */
  function PartsOf(s: State, claims: seq<(PoolId, nat)>): Option<nat>
  {
    if claims == [] then Some(0)
    else if claims[0].0 !in s.pools then None
    else
      match PartsOf(s, claims[1..])
      case None => None
      case Some(rest) => Some(PartFor(s, claims[0].0, claims[0].1) + rest)
  }

  /** The reward for a list of claims; an unknown pool makes it nothing. */
  function RewardFor(s: State, claims: seq<(PoolId, nat)>): nat
  {
    match PartsOf(s, claims)
    case None => 0
    case Some(parts) => MulFloor(Minimum(QUINTILL, parts), s.reward)
  }

  function Committed(s: State, m: Manager, ms: seq<Metric>): State {
    var s' := RecordedAll(s, m, ms);
    s'.(paid := s'.paid + RewardFor(s', Claims(s, m, ms)))
  }

  /** Recording changes neither the pools there are nor the totals of the last epoch. */
  ghost predicate SameLast(s: State, s': State) {
    && s'.epoch == s.epoch && s'.reward == s.reward && s'.ratios == s.ratios && s'.shares == s.shares
    && (forall p :: p in s'.pools <==> p in s.pools)
    && (forall p :: LastTotal(s', p) == LastTotal(s, p))
  }

  lemma {:induction false} RecordedSame(s: State, m: Manager, p: PoolId, x: nat)
    requires InTime(s)
    ensures SameLast(s, Recorded(s, m, p, x)) && Recorded(s, m, p, x).paid == s.paid
  {
  }

  lemma {:induction false} GoodInTime(s: State)
    requires Good(s)
    ensures InTime(s)
  {
  }

  lemma {:induction false} PartsSame(s: State, s': State, claims: seq<(PoolId, nat)>)
    requires SameLast(s, s')
    ensures PartsOf(s', claims) == PartsOf(s, claims)
  {
    hide Part, ValueAt;
    if claims != [] {
      PartsSame(s, s', claims[1..]);
    }
  }

  /** The parts claimed are entitled to. */
  lemma {:induction false} ClaimsEntitled(s: State, m: Manager, ms: seq<Metric>)
    requires Good(s)
    ensures var s' := RecordedAll(s, m, ms);
      && Good(s') && SameLast(s, s') && s'.paid == s.paid
      && var parts := PartsOf(s, Claims(s, m, ms));
      parts.Some? ==> Total(s.entitled) + parts.value <= Total(s'.entitled)
    ensures Total(s.entitled) <= Total(RecordedAll(s, m, ms).entitled)
    decreases |ms|
  {
    hide Good, Recorded, Total, PartFor, Claim, InTime, ValueAt;
    if ms != [] {
      var p, x := ms[0].pool, ms[0].value;
      var s1 := Recorded(s, m, p, x);
      GoodInTime(s);
      RecordedGood(s, m, p, x);
      RecordedSame(s, m, p, x);
      RecordedTotal(s, m, p, x);
      ClaimsEntitled(s1, m, ms[1..]);
      var rest := Claims(s1, m, ms[1..]);
      PartsSame(s, s1, rest);
      if Claim(s, m, p).Some? {
        assert Claims(s, m, ms)[0] == (p, Claim(s, m, p).value) && Claims(s, m, ms)[1..] == rest;
      }
    }
  }

  lemma {:induction false} PaymentCovered(paid: nat, parts: nat, reward: nat, before: nat, after: nat)
    requires paid * QUINTILL <= reward * before && before + parts <= after
    ensures (paid + MulFloor(Minimum(QUINTILL, parts), reward)) * QUINTILL <= reward * after
  {
    var pay := MulFloor(Minimum(QUINTILL, parts), reward);
    assert pay * QUINTILL <= Minimum(QUINTILL, parts) * reward;
    MulMonotone(reward, Minimum(QUINTILL, parts), parts);
    MulMonotone(reward, before + parts, after);
    assert reward * (before + parts) == reward * before + reward * parts;
  }

  lemma {:induction false} CommittedCovered(s: State, s': State, claims: seq<(PoolId, nat)>)
    requires SameLast(s, s') && s'.paid == s.paid && Good(s) && Good(s')
    requires PartsOf(s, claims).Some? ==> Total(s.entitled) + PartsOf(s, claims).value <= Total(s'.entitled)
    ensures (s'.paid + RewardFor(s', claims)) * QUINTILL <= s'.reward * Total(s'.entitled)
  {
    hide Good, Total, PartsOf, MulFloor, Minimum;
    PartsSame(s, s', claims);
    GoodPaid(s);
    GoodPaid(s');
    var parts := PartsOf(s, claims);
    if parts.Some? {
      assert RewardFor(s', claims) == MulFloor(Minimum(QUINTILL, parts.value), s.reward);
      PaymentCovered(s.paid, parts.value, s.reward, Total(s.entitled), Total(s'.entitled));
    } else {
      assert RewardFor(s', claims) == 0;
    }
  }

  lemma {:induction false} CommittedGood(s: State, m: Manager, ms: seq<Metric>)
    requires Good(s)
    ensures Good(Committed(s, m, ms))
  {
    hide Good, Total, PartsOf, RecordedAll, Claims, RewardFor, SameLast, QUINTILL;
    var s', claims := RecordedAll(s, m, ms), Claims(s, m, ms);
    ClaimsEntitled(s, m, ms);
    CommittedCovered(s, s', claims);
    PaidGood(s', RewardFor(s', claims));
  }

  lemma {:induction false} GoodPaid(s: State)
    requires Good(s)
    ensures s.paid * QUINTILL <= s.reward * Total(s.entitled)
  {
  }

  /** A payment that is covered. */
  lemma {:induction false} PaidGood(s: State, pay: nat)
    requires Good(s) && (s.paid + pay) * QUINTILL <= s.reward * Total(s.entitled)
    ensures Good(s.(paid := s.paid + pay))
  {
    hide PoolOk, Total;
    var s' := s.(paid := s.paid + pay);
    forall p
      ensures PoolOk(s', p)
    {
      assert PoolOk(s, p);
      PaidIrrelevant(s, s'.paid, p);
    }
  }

  lemma {:induction false} PaidIrrelevant(s: State, paid: nat, p: PoolId)
    requires PoolOk(s, p)
    ensures PoolOk(s.(paid := paid), p)
  {
    hide Total;
    if s.epoch > 0 {
      ClaimedSame(s, s.(paid := paid), p);
    }
  }

  // ----- new epochs, new pools and new ratios -----

  /** The ratios that count are those of the epoch just over. */
  function NewEpoch(s: State, reward: nat): State {
    s.(epoch := s.epoch + 1, ratios := RatiosAt(s.shares, s.epoch), reward := reward, entitled := map[], paid := 0)
  }

  lemma {:induction false} NewEpochPool(s: State, reward: nat, p: PoolId)
    requires InTime(s) && Conserved(s, p, s.epoch) && s.shares.Keys == s.pools.Keys
    ensures PoolOk(NewEpoch(s, reward), p)
  {
    var s' := NewEpoch(s, reward);
    TotalZero(ManagerSums(s'.sums, p, s'.epoch));
    hide Total;
  }

  lemma {:induction false} NewEpochGood(s: State, reward: nat)
    requires Good(s)
    ensures Good(NewEpoch(s, reward))
  {
    hide Conserved, Entitled, Total, Noted;
    forall p
      ensures PoolOk(NewEpoch(s, reward), p)
    {
      assert PoolOk(s, p);
      NewEpochPool(s, reward, p);
    }
    hide PoolOk;
  }

  /** The sum of the ratios is at most one in an epoch and in every later one in which a ratio changes. */
  ghost predicate Validated(shares: map<PoolId, Provisional>, e: nat) {
    && Total(RatiosAt(shares, e)) <= QUINTILL
    && (forall p :: p in shares && shares[p].NextEpoch(e).Some? ==>
          Total(RatiosAt(shares, shares[p].NextEpoch(e).value)) <= QUINTILL)
  }

  lemma {:induction false} ValidatedAt(shares: map<PoolId, Provisional>, e: nat, f: nat)
    requires Validated(shares, e) && e <= f
    ensures Total(RatiosAt(shares, f)) <= QUINTILL
    decreases f
  {
    hide Total, RatiosAt;
    if e < f && !Changing(shares, e, f) {
      ValidatedAt(shares, e, f - 1);
      RatiosSteady(shares, e, f);
    }
  }

  /** Some pool's ratio changes in the epoch. */
  ghost predicate Changing(shares: map<PoolId, Provisional>, e: nat, f: nat) {
    exists p :: p in shares && shares[p].NextEpoch(e) == Some(f)
  }

  lemma {:induction false} RatiosSteady(shares: map<PoolId, Provisional>, e: nat, f: nat)
    requires e < f && !Changing(shares, e, f)
    ensures RatiosAt(shares, f) == RatiosAt(shares, f - 1)
  {
    forall p | p in shares
      ensures shares[p].Get(f) == shares[p].Get(f - 1)
    {
      assert shares[p].NextEpoch(e) != Some(f);
      Steady(shares[p], e, f);
    }
  }

  /** Testing the epochs in which ratios change is testing all of them. */
  lemma {:induction false} ValidatedIsRational(shares: map<PoolId, Provisional>, e: nat)
    ensures Validated(shares, e) <==> Rational(shares, e)
  {
    hide RatiosAt, Total;
    if Validated(shares, e) {
      forall f: nat | e <= f
        ensures Total(RatiosAt(shares, f)) <= QUINTILL
      {
        ValidatedAt(shares, e, f);
      }
    }
  }

  ghost function Created(s: State, p: PoolId, ratio: nat): Option<State> {
    var shares := s.shares[p := Provisional(ratio, None)];
    if p in s.pools || !Validated(shares, s.epoch) then None
    else Some(s.(pools := s.pools[p := Empty(0)], shares := shares))
  }

  lemma {:induction false} CreatedPool(s: State, p: PoolId, ratio: nat, q: PoolId)
    requires PoolOk(s, q) && s.shares.Keys == s.pools.Keys && Created(s, p, ratio).Some?
    ensures PoolOk(Created(s, p, ratio).value, q)
  {
    hide Total, ValueAt, ManagerSums, Claimed, Created, Noted;
    var s' := Created(s, p, ratio).value;
    CreatedNoted(s, p, ratio, q);
    if s.epoch > 0 {
      ClaimedSame(s, s', q);
    }
  }

  lemma {:induction false} CreatedNoted(s: State, p: PoolId, ratio: nat, q: PoolId)
    requires Noted(s, q) && s.shares.Keys == s.pools.Keys && Created(s, p, ratio).Some?
    ensures var s' := Created(s, p, ratio).value;
      && Noted(s', q) && s' == s.(pools := s'.pools, shares := s'.shares)
      && (forall e :: ValueAt(s'.pools, q, e) == ValueAt(s.pools, q, e))
  {
    hide Validated;
  }

  lemma {:induction false} CreatedGood(s: State, p: PoolId, ratio: nat)
    requires Good(s) && Created(s, p, ratio).Some?
    ensures Good(Created(s, p, ratio).value)
  {
    hide Total, PoolOk, Rational, Validated;
    var s' := Created(s, p, ratio).value;
    ValidatedIsRational(s'.shares, s.epoch);
    forall q
      ensures PoolOk(s', q)
    {
      assert PoolOk(s, q);
      CreatedPool(s, p, ratio, q);
    }
  }

  /** A pool's ratio from an epoch on. The last epoch counts as the present, so its ratio can change. */
  ghost function Modified(s: State, p: PoolId, from: nat, ratio: nat): Option<State> {
    if p !in s.shares then None
    else
      match s.shares[p].Set(Last(s), from, ratio)
      case None => None
      case Some(share) =>
        var shares := s.shares[p := share];
        if !Validated(shares, s.epoch) then None
        else
          var highest := Max(Amount(s.ratios, p), share.Get(Last(s)));
          Some(s.(shares := shares, ratios := if LastTotal(s, p) > 0 then s.ratios[p := highest] else s.ratios))
  }

  function Max(a: nat, b: nat): nat {
    if a < b then b else a
  }

  /** The ratio claims are paid by changes exactly when a different one is set for a past epoch. */
  lemma {:induction false} ModifyExact(s: State, p: PoolId, from: nat, ratio: nat, q: PoolId)
    requires s.epoch > 0 && Modified(s, p, from, ratio).Some?
    ensures var s' := Modified(s, p, from, ratio).value;
      && (ShareAt(s', p, s.epoch - 1) == ShareAt(s, p, s.epoch - 1)
          <==> s.epoch <= from || ratio == ShareAt(s, p, s.epoch - 1))
      && (ShareAt(s', p, s.epoch - 1) <= ShareAt(s, p, s.epoch - 1)
          <==> s.epoch <= from || ratio <= ShareAt(s, p, s.epoch - 1))
      && (q != p ==> ShareAt(s', q, s.epoch - 1) == ShareAt(s, q, s.epoch - 1))
  {
    hide Validated;
    SetFrom(s.shares[p], Last(s), from, ratio, Last(s));
  }

  lemma {:induction false} ModifiedNoted(s: State, p: PoolId, from: nat, ratio: nat, q: PoolId)
    requires Noted(s, q) && Modified(s, p, from, ratio).Some?
    ensures var s' := Modified(s, p, from, ratio).value;
      && Noted(s', q) && Amount(s.ratios, q) <= Amount(s'.ratios, q)
      && s' == s.(shares := s'.shares, ratios := s'.ratios) && s'.shares.Keys == s.shares.Keys
  {
    hide ValueAt, Validated;
  }

  /** A higher ratio entitles to no less. */
  lemma {:induction false} EntitledStill(s: State, s': State, p: PoolId)
    requires s.epoch > 0 && Entitled(s, p) && Amount(s.ratios, p) <= Amount(s'.ratios, p)
    requires s' == s.(shares := s'.shares, ratios := s'.ratios)
    ensures Entitled(s', p)
  {
    hide Total, ValueAt, Claimed, Amount;
    ClaimedSame(s, s', p);
    MulMonotone(Total(Claimed(s, p)), Amount(s.ratios, p), Amount(s'.ratios, p));
  }

  lemma {:induction false} ModifiedPool(s: State, p: PoolId, from: nat, ratio: nat, q: PoolId)
    requires PoolOk(s, q) && Modified(s, p, from, ratio).Some?
    ensures PoolOk(Modified(s, p, from, ratio).value, q)
  {
    hide Total, ValueAt, ManagerSums, Modified, Entitled, Noted, Amount;
    var s' := Modified(s, p, from, ratio).value;
    ModifiedNoted(s, p, from, ratio, q);
    if s.epoch > 0 {
      EntitledStill(s, s', q);
    }
  }

  lemma {:induction false} ModifiedGood(s: State, p: PoolId, from: nat, ratio: nat)
    requires Good(s) && Modified(s, p, from, ratio).Some?
    ensures Good(Modified(s, p, from, ratio).value)
  {
    hide Total, PoolOk, Rational, Validated, Amount;
    var s' := Modified(s, p, from, ratio).value;
    ValidatedIsRational(s'.shares, s.epoch);
    forall q
      ensures PoolOk(s', q)
    {
      assert PoolOk(s, q);
      ModifiedPool(s, p, from, ratio, q);
    }
  }
}
