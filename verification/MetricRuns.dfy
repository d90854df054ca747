/** Whole runs of commits, claims and changes to the pools, and what holds of every one of them. */
module MetricRuns {
  import opened Wrappers
  import opened StakingBase
  import opened Arithmetic
  import opened MapSums
  import opened ProvisionalBuffers
  import opened MetricRewards

  datatype Step =
    | Epoch(reward: nat)
    | Create(pool: PoolId, ratio: nat)
    | Modify(pool: PoolId, from: nat, ratio: nat)
    | Commit(m: Manager, ms: seq<Metric>)

  ghost function After(s: State, step: Step): Option<State> {
    match step
    case Epoch(reward) => Some(NewEpoch(s, reward))
    case Create(p, ratio) => Created(s, p, ratio)
    case Modify(p, from, ratio) => Modified(s, p, from, ratio)
    case Commit(m, ms) => Some(Committed(s, m, ms))
  }

  ghost function Next(s: State, step: Step): State {
    if After(s, step).Some? then After(s, step).value else s
  }

  ghost function Run(s: State, steps: seq<Step>): State
    decreases |steps|
  {
    if steps == [] then s else Run(Next(s, steps[0]), steps[1..])
  }

  lemma {:induction false} NextGood(s: State, step: Step)
    requires Good(s)
    ensures Good(Next(s, step))
  {
    hide Good, NewEpoch, Created, Modified, Committed;
    if After(s, step).Some? {
      match step
      case Epoch(reward) => NewEpochGood(s, reward);
      case Create(p, ratio) => CreatedGood(s, p, ratio);
      case Modify(p, from, ratio) => ModifiedGood(s, p, from, ratio);
      case Commit(m, ms) => CommittedGood(s, m, ms);
    }
  }

  lemma {:induction false} RunGood(s: State, steps: seq<Step>)
    requires Good(s)
    ensures Good(Run(s, steps))
    decreases |steps|
  {
    hide Good, Next;
    if steps != [] {
      NextGood(s, steps[0]);
      RunGood(Next(s, steps[0]), steps[1..]);
    }
  }

  lemma {:induction false} EmptyGood()
    ensures Good(NO_STATE)
  {
    TotalZero(NO_STATE.entitled);
    forall f: nat
      ensures Total(RatiosAt(NO_STATE.shares, f)) == 0
    {
      TotalZero(RatiosAt(NO_STATE.shares, f));
    }
    forall p
      ensures PoolOk(NO_STATE, p)
    {
      TotalZero(ManagerSums(NO_STATE.sums, p, 0));
    }
  }

  /** Every pool's total, with what it missed before it existed, is the sum over the managers. */
  lemma {:induction false} TotalsConserved(steps: seq<Step>, p: PoolId)
    ensures var s := Run(NO_STATE, steps);
      ValueAt(s.pools, p, s.epoch) + ValueAt(s.unseen, p, s.epoch) == Total(ManagerSums(s.sums, p, s.epoch))
  {
    EmptyGood();
    RunGood(NO_STATE, steps);
    hide Run;
    assert PoolOk(Run(NO_STATE, steps), p);
  }

  /** In every reachable state the ratios of the pools add up to at most one, from the current epoch on. */
  lemma {:induction false} RatiosBounded(steps: seq<Step>, e: nat)
    requires Run(NO_STATE, steps).epoch <= e
    ensures Total(RatiosAt(Run(NO_STATE, steps).shares, e)) <= QUINTILL
  {
    EmptyGood();
    RunGood(NO_STATE, steps);
    hide Run, Total, RatiosAt;
  }

  // ----- when a step endangers the bound -----

  /** Existing pools have missed nothing they will be claimed for. */
  ghost predicate Watched(s: State) {
    forall p :: p in s.pools ==>
      ValueAt(s.unseen, p, s.epoch) == 0 && (LastTotal(s, p) > 0 ==> ValueAt(s.unseen, p, Last(s)) == 0)
  }

  /**
   * What a caller can make sure of: a pool is created before metrics are given for it in the epoch,
   * and the ratio of an epoch that is over is not raised where there are metrics to claim for.
   */
  ghost predicate Timely(s: State, step: Step) {
    After(s, step).Some? ==>
      match step
      case Create(p, _) => Total(ManagerSums(s.sums, p, s.epoch)) == 0
      case Modify(p, from, ratio) =>
        s.epoch == 0 || s.epoch <= from || ratio <= ShareAt(s, p, s.epoch - 1) || LastTotal(s, p) == 0
      case _ => true
  }

  ghost predicate AllTimely(s: State, steps: seq<Step>)
    decreases |steps|
  {
    steps == [] || (Timely(s, steps[0]) && AllTimely(Next(s, steps[0]), steps[1..]))
  }

  /** A metric goes unseen exactly when it is not zero and its pool does not exist. */
  lemma {:induction false} RecordedUnseen(s: State, m: Manager, p: PoolId, x: nat)
    requires InTime(s)
    ensures ValueAt(Recorded(s, m, p, x).unseen, p, s.epoch) == ValueAt(s.unseen, p, s.epoch)
      <==> p in s.pools || x == 0
    ensures forall q :: q != p ==> ValueAt(Recorded(s, m, p, x).unseen, q, s.epoch) == ValueAt(s.unseen, q, s.epoch)
  {
    hide Recorded, ValueAt, InTime;
    forall q
      ensures ValueAt(Recorded(s, m, p, x).unseen, q, s.epoch)
           == ValueAt(s.unseen, q, s.epoch) + if p == q && p !in s.pools then x else 0
    {
      RecordedValues(s, m, p, x, q);
    }
  }

  lemma {:induction false} NotYetSeen(s: State, p: PoolId)
    requires Good(s) && p !in s.pools
    ensures ValueAt(s.pools, p, s.epoch) == 0
    ensures ValueAt(s.unseen, p, s.epoch) == Total(ManagerSums(s.sums, p, s.epoch))
  {
    assert PoolOk(s, p);
  }

  /** A new pool is watched from the start exactly when no metrics were given for it in the epoch. */
  lemma {:induction false} CreateExact(s: State, p: PoolId, ratio: nat)
    requires Good(s) && Watched(s) && Created(s, p, ratio).Some?
    ensures Watched(Created(s, p, ratio).value) <==> Total(ManagerSums(s.sums, p, s.epoch)) == 0
  {
    NotYetSeen(s, p);
    var s' := Created(s, p, ratio).value;
    assert LastTotal(s', p) == 0;
    hide Good, ManagerSums, Validated, Total;
    forall q | q in s.pools
      ensures ValueAt(s'.unseen, q, s.epoch) == 0 && (LastTotal(s', q) > 0 ==> ValueAt(s'.unseen, q, Last(s)) == 0)
    {
      assert LastTotal(s', q) == LastTotal(s, q);
    }
  }

  // ----- the bound -----

  lemma {:induction false} RecordedWatched(s: State, m: Manager, p: PoolId, x: nat)
    requires InTime(s) && Watched(s)
    ensures Watched(Recorded(s, m, p, x))
  {
    hide Recorded, ValueAt, InTime;
    var s' := Recorded(s, m, p, x);
    forall q | q in s'.pools
      ensures ValueAt(s'.unseen, q, s.epoch) == 0 && (LastTotal(s', q) > 0 ==> ValueAt(s'.unseen, q, Last(s)) == 0)
    {
      RecordedFields(s, m, p, x, q);
      RecordedValues(s, m, p, x, q);
    }
  }

  lemma {:induction false} RecordedAllWatched(s: State, m: Manager, ms: seq<Metric>)
    requires Good(s) && Watched(s)
    ensures Watched(RecordedAll(s, m, ms)) && RecordedAll(s, m, ms).ratios == s.ratios
    decreases |ms|
  {
    hide Good, Watched, Recorded;
    if ms != [] {
      GoodInTime(s);
      RecordedGood(s, m, ms[0].pool, ms[0].value);
      RecordedWatched(s, m, ms[0].pool, ms[0].value);
      RecordedFields(s, m, ms[0].pool, ms[0].value, 0);
      RecordedAllWatched(Recorded(s, m, ms[0].pool, ms[0].value), m, ms[1..]);
    }
  }

  lemma {:induction false} CommittedWatched(s: State, m: Manager, ms: seq<Metric>)
    requires Good(s) && Watched(s)
    ensures Watched(Committed(s, m, ms)) && Committed(s, m, ms).ratios == s.ratios
  {
    hide Good, RecordedAll, RewardFor, Claims, ValueAt;
    RecordedAllWatched(s, m, ms);
  }

  lemma {:induction false} NewEpochWatched(s: State, reward: nat)
    requires Good(s) && Watched(s)
    ensures Watched(NewEpoch(s, reward)) && Total(NewEpoch(s, reward).ratios) <= QUINTILL
  {
    hide Total, RatiosAt, PoolOk;
    var s' := NewEpoch(s, reward);
    forall p | p in s'.pools
      ensures ValueAt(s'.unseen, p, s'.epoch) == 0 && (LastTotal(s', p) > 0 ==> ValueAt(s'.unseen, p, Last(s')) == 0)
    {
      assert BufferOf(s.unseen, p).epoch <= s.epoch;
    }
  }

  lemma {:induction false} ModifiedWatched(s: State, p: PoolId, from: nat, ratio: nat)
    requires Good(s) && Watched(s) && Timely(s, Modify(p, from, ratio)) && Modified(s, p, from, ratio).Some?
    ensures var s' := Modified(s, p, from, ratio).value; Watched(s') && Total(s'.ratios) == Total(s.ratios)
  {
    hide Total, Validated, ValueAt, InTime, Rational;
    assert PoolOk(s, p);
    var s' := Modified(s, p, from, ratio).value;
    SetFrom(s.shares[p], Last(s), from, ratio, Last(s));
    assert Amount(s'.ratios, p) == Amount(s.ratios, p);
    assert s'.ratios - {p} == s.ratios - {p};
    TotalChange(s.ratios, s'.ratios, p);
  }

  lemma {:induction false} NextWatched(s: State, step: Step)
    requires Good(s) && Watched(s) && Total(s.ratios) <= QUINTILL && Timely(s, step)
    ensures Watched(Next(s, step)) && Total(Next(s, step).ratios) <= QUINTILL
  {
    hide Good, Watched, Total, NewEpoch, Created, Modified, Committed;
    if After(s, step).Some? {
      match step
      case Epoch(reward) => NewEpochWatched(s, reward);
      case Create(p, ratio) =>
        CreateExact(s, p, ratio);
        CreatedFields(s, p, ratio);
      case Modify(p, from, ratio) => ModifiedWatched(s, p, from, ratio);
      case Commit(m, ms) => CommittedWatched(s, m, ms);
    }
  }

  lemma {:induction false} CreatedFields(s: State, p: PoolId, ratio: nat)
    requires Created(s, p, ratio).Some?
    ensures var s' := Created(s, p, ratio).value;
      s' == s.(pools := s'.pools, shares := s'.shares)
  {
    hide Validated;
  }

  lemma {:induction false} RunWatched(s: State, steps: seq<Step>)
    requires Good(s) && Watched(s) && Total(s.ratios) <= QUINTILL && AllTimely(s, steps)
    ensures Watched(Run(s, steps)) && Total(Run(s, steps).ratios) <= QUINTILL && Good(Run(s, steps))
    decreases |steps|
  {
    hide Good, Watched, Total, Next, Timely;
    if steps != [] {
      NextGood(s, steps[0]);
      NextWatched(s, steps[0]);
      RunWatched(Next(s, steps[0]), steps[1..]);
    }
  }

  lemma {:induction false} WithinRatio(s: State, p: PoolId)
    requires s.epoch > 0 && PoolOk(s, p) && (LastTotal(s, p) > 0 ==> ValueAt(s.unseen, p, s.epoch - 1) == 0)
    ensures Amount(s.entitled, p) <= Amount(s.ratios, p)
  {
    TotalBelow(Claimed(s, p), ManagerSums(s.sums, p, s.epoch - 1));
    hide Total, Claimed, ManagerSums, ValueAt;
    if Amount(s.entitled, p) > 0 {
      Cancel(Amount(s.entitled, p), ValueAt(s.pools, p, s.epoch - 1), Amount(s.ratios, p), Total(Claimed(s, p)));
    }
  }

  lemma {:induction false} WithinReward(s: State)
    requires s.epoch > 0 && Good(s) && Watched(s) && Total(s.ratios) <= QUINTILL
    ensures s.paid <= s.reward
  {
    hide Total, InTime, Rational, PoolOk, ValueAt;
    forall p | p in s.entitled
      ensures s.entitled[p] <= Amount(s.ratios, p)
    {
      assert PoolOk(s, p);
      if p !in s.pools {
        NeverPaid(s, p);
      } else {
        WithinRatio(s, p);
      }
    }
    TotalBelow(s.entitled, s.ratios);
    MulMonotone(s.reward, Total(s.entitled), QUINTILL);
    ScaleDown(s.paid, s.reward);
  }

  lemma {:induction false} NeverPaid(s: State, p: PoolId)
    requires s.epoch > 0 && PoolOk(s, p) && p !in s.pools
    ensures Amount(s.entitled, p) == 0
  {
    hide Total, Claimed, ManagerSums;
  }

  /**
   * Over every run in which pools are created before their metrics and no past ratio is raised,
   * what is paid for an epoch is at most the epoch's reward.
   */
  lemma {:induction false} MetricRewardsBounded(steps: seq<Step>)
    requires AllTimely(NO_STATE, steps)
    ensures Run(NO_STATE, steps).paid <= Run(NO_STATE, steps).reward
  {
    EmptyGood();
    TotalZero(NO_STATE.ratios);
    RunWatched(NO_STATE, steps);
    FirstEpoch(NO_STATE, steps);
    hide Run, Good, Watched, AllTimely, Total;
    if Run(NO_STATE, steps).epoch > 0 {
      WithinReward(Run(NO_STATE, steps));
    }
  }

  lemma {:induction false} NothingClaimed(s: State, m: Manager, ms: seq<Metric>)
    requires s.epoch == 0
    ensures Claims(s, m, ms) == [] && RecordedAll(s, m, ms).paid == s.paid
    decreases |ms|
  {
    hide PartFor;
    if ms != [] {
      NothingClaimed(Recorded(s, m, ms[0].pool, ms[0].value), m, ms[1..]);
    }
  }

  /** Nothing is paid in the first epoch. */
  lemma {:induction false} FirstEpoch(s: State, steps: seq<Step>)
    requires s.epoch == 0 ==> s.paid == 0
    ensures Run(s, steps).epoch == 0 ==> Run(s, steps).paid == 0
    decreases |steps|
  {
    hide Created, Modified, Claims, RecordedAll, RatiosAt;
    if steps != [] {
      var step := steps[0];
      if step.Commit? && s.epoch == 0 {
        NothingClaimed(s, step.m, step.ms);
      } else if step.Create? && After(s, step).Some? {
        CreatedFields(s, step.pool, step.ratio);
      } else if step.Modify? && After(s, step).Some? {
        ModifiedFields(s, step.pool, step.from, step.ratio);
      }
      FirstEpoch(Next(s, step), steps[1..]);
    }
  }

  lemma {:induction false} ModifiedFields(s: State, p: PoolId, from: nat, ratio: nat)
    requires Modified(s, p, from, ratio).Some?
    ensures var s' := Modified(s, p, from, ratio).value;
      s' == s.(shares := s'.shares, ratios := s'.ratios)
  {
    hide Validated;
  }

  // ----- metrics for existing pools -----

  /** Every metric is for a pool that exists, and ratios change from the current epoch on only. */
  predicate Careful(s: State, step: Step) {
    match step
    case Commit(_, ms) => forall i :: 0 <= i < |ms| ==> ms[i].pool in s.pools
    case Modify(_, from, _) => s.epoch <= from
    case _ => true
  }

  ghost predicate AllCareful(s: State, steps: seq<Step>)
    decreases |steps|
  {
    steps == [] || (Careful(s, steps[0]) && AllCareful(Next(s, steps[0]), steps[1..]))
  }

  ghost predicate NothingUnseen(s: State) {
    forall p :: ValueAt(s.unseen, p, s.epoch) == 0
  }

  lemma {:induction false} RecordedAllSeen(s: State, m: Manager, ms: seq<Metric>)
    requires Good(s) && NothingUnseen(s) && forall i :: 0 <= i < |ms| ==> ms[i].pool in s.pools
    ensures NothingUnseen(RecordedAll(s, m, ms))
    decreases |ms|
  {
    hide Good, Recorded, ValueAt;
    if ms != [] {
      var s' := Recorded(s, m, ms[0].pool, ms[0].value);
      GoodInTime(s);
      RecordedGood(s, m, ms[0].pool, ms[0].value);
      RecordedUnseen(s, m, ms[0].pool, ms[0].value);
      RecordedFields(s, m, ms[0].pool, ms[0].value, 0);
      RecordedAllSeen(s', m, ms[1..]);
    }
  }

  lemma {:induction false} NextSeen(s: State, step: Step)
    requires Good(s) && NothingUnseen(s) && Careful(s, step)
    ensures NothingUnseen(Next(s, step)) && Timely(s, step)
  {
    hide Good, RecordedAll, Claims, RewardFor, RatiosAt, Created, Modified, ManagerSums, Total;
    if After(s, step).Some? {
      match step
      case Epoch(reward) =>
        GoodInTime(s);
      case Create(p, ratio) =>
        CreatedFields(s, p, ratio);
        CreatedNew(s, p, ratio);
        NotYetSeen(s, p);
      case Modify(p, from, ratio) =>
        ModifiedFields(s, p, from, ratio);
      case Commit(m, ms) =>
        RecordedAllSeen(s, m, ms);
    }
  }

  lemma {:induction false} CreatedNew(s: State, p: PoolId, ratio: nat)
    requires Created(s, p, ratio).Some?
    ensures p !in s.pools
  {
  }

  /** So a run is timely if every metric is for an existing pool and no ratio is changed for the past. */
  lemma {:induction false} CarefulIsTimely(s: State, steps: seq<Step>)
    requires Good(s) && NothingUnseen(s) && AllCareful(s, steps)
    ensures AllTimely(s, steps)
    decreases |steps|
  {
    hide Good, NothingUnseen, Next, Careful, Timely;
    if steps != [] {
      NextGood(s, steps[0]);
      NextSeen(s, steps[0]);
      CarefulIsTimely(Next(s, steps[0]), steps[1..]);
    }
  }

  // ----- claiming once -----

  /** The manager has had a metric for the pool in the current epoch. */
  predicate Counted(s: State, m: Manager, p: PoolId) {
    BufferOf(s.sums, (m, p)).epoch == s.epoch
  }

  predicate SameEpoch(steps: seq<Step>) {
    forall i :: 0 <= i < |steps| ==> !steps[i].Epoch?
  }

  lemma {:induction false} RecordedCounted(s: State, m: Manager, p: PoolId, x: nat, m': Manager, p': PoolId)
    requires InTime(s) && (Counted(s, m', p') || (m, p) == (m', p'))
    ensures Counted(Recorded(s, m, p, x), m', p')
  {
    hide PartFor;
    SumsInTime(s, (m, p));
    AddedValues(s.sums, (m, p), s.epoch, x, (m, p));
  }

  lemma {:induction false} RecordedAllCounted(s: State, m: Manager, ms: seq<Metric>, m': Manager, p: PoolId)
    requires Good(s) && (Counted(s, m', p) || (m == m' && exists i :: 0 <= i < |ms| && ms[i].pool == p))
    ensures Counted(RecordedAll(s, m, ms), m', p)
    decreases |ms|
  {
    hide Good, Recorded, Counted;
    if ms != [] {
      GoodInTime(s);
      RecordedGood(s, m, ms[0].pool, ms[0].value);
      var s' := Recorded(s, m, ms[0].pool, ms[0].value);
      if Counted(s, m', p) || (m == m' && ms[0].pool == p) {
        RecordedCounted(s, m, ms[0].pool, ms[0].value, m', p);
      } else {
        var i :| 0 <= i < |ms| && ms[i].pool == p;
        assert ms[1..][i - 1].pool == p;
      }
      RecordedAllCounted(s', m, ms[1..], m', p);
    }
  }

  lemma {:induction false} RunCounted(s: State, steps: seq<Step>, m: Manager, p: PoolId)
    requires Good(s) && Counted(s, m, p) && SameEpoch(steps)
    ensures Counted(Run(s, steps), m, p)
    decreases |steps|
  {
    hide Good, RecordedAll, Claims, RewardFor, Created, Modified;
    if steps != [] {
      var step := steps[0];
      NextGood(s, step);
      if step.Commit? {
        RecordedAllCounted(s, step.m, step.ms, m, p);
      } else if step.Create? && After(s, step).Some? {
        CreatedFields(s, step.pool, step.ratio);
      } else if step.Modify? && After(s, step).Some? {
        ModifiedFields(s, step.pool, step.from, step.ratio);
      }
      RunCounted(Next(s, step), steps[1..], m, p);
    }
  }

  lemma {:induction false} CountedClaimsNothing(s: State, m: Manager, ms: seq<Metric>, p: PoolId, i: nat)
    requires Good(s) && Counted(s, m, p) && i < |Claims(s, m, ms)|
    ensures Claims(s, m, ms)[i].0 != p
    decreases |ms|
  {
    hide Good, Recorded;
    if ms != [] {
      GoodInTime(s);
      RecordedGood(s, m, ms[0].pool, ms[0].value);
      RecordedCounted(s, m, ms[0].pool, ms[0].value, m, p);
      var s' := Recorded(s, m, ms[0].pool, ms[0].value);
      if Claim(s, m, ms[0].pool).None? {
        CountedClaimsNothing(s', m, ms[1..], p, i);
      } else if i > 0 {
        CountedClaimsNothing(s', m, ms[1..], p, i - 1);
      }
    }
  }

  /**
   * A manager claims for a pool and epoch at most once: once it has committed a metric for the pool,
   * nothing it commits later in the epoch claims for that pool, whatever happens in between.
   */
  lemma {:induction false} ClaimOnce(steps: seq<Step>, m: Manager, first: seq<Metric>, k: nat, between: seq<Step>,
                                     second: seq<Metric>, i: nat)
    requires k < |first| && SameEpoch(between)
    requires var s := Run(Next(Run(NO_STATE, steps), Commit(m, first)), between); i < |Claims(s, m, second)|
    ensures var s := Run(Next(Run(NO_STATE, steps), Commit(m, first)), between);
      Claims(s, m, second)[i].0 != first[k].pool
  {
    EmptyGood();
    RunGood(NO_STATE, steps);
    hide Run, Good, RecordedAll, Claims, RewardFor;
    var s0 := Run(NO_STATE, steps);
    RecordedAllCounted(s0, m, first, m, first[k].pool);
    var s1 := Next(s0, Commit(m, first));
    NextGood(s0, Commit(m, first));
    RunGood(s1, between);
    RunCounted(s1, between, m, first[k].pool);
    CountedClaimsNothing(Run(s1, between), m, second, first[k].pool, i);
  }
}
