/** Two runs in which twice the reward of an epoch is paid for it. */
module MetricExamples {
  import opened Wrappers
  import opened StakingBase
  import opened MapSums
  import opened SlidingBuffers
  import opened ProvisionalBuffers
  import opened MetricRewards
  import opened MetricRuns

  const SUMMED: Sliding<nat> := Sliding(2, 0, 10)
  const START := State(2, map[], map[], map[], map[], map[], 0, map[], 0)

  // ----- single steps -----

  /** A commit of a single metric. */
  lemma {:induction false} CommitOne(s: State, m: Manager, p: PoolId, x: nat)
    ensures var s', claim := Recorded(s, m, p, x), Claim(s, m, p);
      Next(s, Commit(m, [Metric(p, x)]))
      == s'.(paid := s'.paid + if claim.Some? && p in s'.pools
                               then MulFloor(Minimum(QUINTILL, PartFor(s', p, claim.value)), s'.reward) else 0)
  {
    hide Recorded, Claim, PartFor;
    var ms, s' := [Metric(p, x)], Recorded(s, m, p, x);
    assert ms[1..] == [];
    assert RecordedAll(s, m, ms) == s';
    assert PartsOf(s', []) == Some(0);
    if Claim(s, m, p).Some? {
      assert Claims(s, m, ms) == [(p, Claim(s, m, p).value)];
      assert Claims(s, m, ms)[1..] == [];
    } else {
      assert Claims(s, m, ms) == [];
      assert MulFloor(Minimum(QUINTILL, 0), s'.reward) == 0;
    }
  }

  /** The first 10 a manager gives to a pool in epoch 2, be there such a pool or not. */
  lemma {:induction false} Gives(s: State, m: Manager, p: PoolId)
    requires s.epoch == 2 && (m, p) !in s.sums && p !in s.unseen && (p in s.pools ==> s.pools[p] == Empty(0))
    ensures Next(s, Commit(m, [Metric(p, 10)]))
         == s.(pools := if p in s.pools then s.pools[p := SUMMED] else s.pools,
               unseen := if p in s.pools then s.unseen else s.unseen[p := SUMMED], sums := s.sums[(m, p) := SUMMED])
  {
    hide PartFor;
    CommitOne(s, m, p, 10);
  }

  lemma {:induction false} WholePart()
    ensures Part(QUINTILL, 10, 10) == QUINTILL && MulFloor(QUINTILL, 100) == 100
  {
  }

  /** Whoever gave 10 of the 10 a pool knows of is paid all of the 100, if the pool has the whole ratio. */
  lemma {:induction false} PaidInFull(s: State, m: Manager, p: PoolId, m': Manager, p': PoolId)
    requires s.epoch == 3 && s.reward == 100 && InTime(s)
    requires (m, p) in s.sums && s.sums[(m, p)] == SUMMED && p in s.pools
    requires LastTotal(s, p) == 10 && ShareAt(s, p, 2) == QUINTILL
    ensures var s' := Next(s, Commit(m, [Metric(p, 1)]));
      && s'.paid == s.paid + 100 && SameLast(s, s') && s'.unseen == s.unseen
      && ((m', p') != (m, p) && (m', p') in s.sums ==> (m', p') in s'.sums && s'.sums[(m', p')] == s.sums[(m', p')])
  {
    WholePart();
    CommitOne(s, m, p, 1);
    RecordedSame(s, m, p, 1);
    hide Part, MulFloor, ShareAt, LastTotal, InTime;
    var s' := Recorded(s, m, p, 1);
    assert Claim(s, m, p) == Some(10);
    assert ShareAt(s', p, 2) == ShareAt(s, p, 2) by { SameShare(s, s', p); }
    assert PartFor(s', p, 10) == QUINTILL;
  }

  lemma {:induction false} SameShare(s: State, s': State, p: PoolId)
    requires s'.shares == s.shares
    ensures ShareAt(s', p, 2) == ShareAt(s, p, 2)
  {
  }

  lemma {:induction false} RunStep(s: State, step: Step, steps: seq<Step>)
    ensures Run(s, [step] + steps) == Run(Next(s, step), steps)
  {
    hide Next;
    assert ([step] + steps)[1..] == steps;
  }

  lemma {:induction false} RunNone(s: State)
    ensures Run(s, []) == s
  {
  }

  lemma {:induction false} Starts(steps: seq<Step>)
    ensures Run(NO_STATE, [Epoch(0)] + ([Epoch(0)] + steps)) == Run(START, steps)
  {
    hide Run;
    RunStep(NO_STATE, Epoch(0), [Epoch(0)] + steps);
    var s := Next(NO_STATE, Epoch(0));
    assert s == NO_STATE.(epoch := 1);
    RunStep(s, Epoch(0), steps);
    assert Next(s, Epoch(0)) == START;
  }

  // ----- a pool created after metrics were given for it -----

  const WHOLE := Provisional(QUINTILL, None)
  const ONE_POOL: map<PoolId, Provisional> := map[7 := WHOLE]

  lemma {:induction false} OneFits(e: nat)
    ensures Validated(ONE_POOL, e)
  {
    var ratios := RatiosAt(ONE_POOL, e);
    assert ratios == map[7 := QUINTILL];
    TotalPick(ratios, 7);
    assert ratios - {7} == map[];
    TotalZero(ratios - {7});
  }

  /** Managers 1 and 2 have given 10 each to pool 7, manager 1 before there was such a pool. */
  const LATE_POOL := START.(
    pools := map[7 := SUMMED], shares := ONE_POOL, sums := map[(1, 7) := SUMMED, (2, 7) := SUMMED],
    unseen := map[7 := SUMMED])

  lemma {:induction false} FillsLate(steps: seq<Step>)
    ensures Run(START, [Commit(1, [Metric(7, 10)])] + ([Create(7, QUINTILL)] + ([Commit(2, [Metric(7, 10)])] + steps)))
         == Run(LATE_POOL, steps)
  {
    hide Run, Committed, Validated;
    var c2 := [Commit(2, [Metric(7, 10)])] + steps;
    var c1 := [Create(7, QUINTILL)] + c2;
    RunStep(START, Commit(1, [Metric(7, 10)]), c1);
    Gives(START, 1, 7);
    var s1 := START.(unseen := map[7 := SUMMED], sums := map[(1, 7) := SUMMED]);
    assert Next(START, Commit(1, [Metric(7, 10)])) == s1;
    RunStep(s1, Create(7, QUINTILL), c2);
    OneFits(2);
    var s2 := s1.(pools := map[7 := Empty(0)], shares := ONE_POOL);
    assert s1.shares[7 := WHOLE] == ONE_POOL;
    assert Next(s1, Create(7, QUINTILL)) == s2;
    RunStep(s2, Commit(2, [Metric(7, 10)]), steps);
    GivesTo(s2, 2, 7);
    assert s2.pools[7 := SUMMED] == LATE_POOL.pools && s2.sums[(2, 7) := SUMMED] == LATE_POOL.sums;
  }

  /** As `Gives`, to an existing pool. */
  lemma {:induction false} GivesTo(s: State, m: Manager, p: PoolId)
    requires s.epoch == 2 && (m, p) !in s.sums && p in s.pools && s.pools[p] == Empty(0)
    ensures Next(s, Commit(m, [Metric(p, 10)])) == s.(pools := s.pools[p := SUMMED], sums := s.sums[(m, p) := SUMMED])
  {
    hide PartFor;
    CommitOne(s, m, p, 10);
  }

  lemma {:induction false} DueLate()
    ensures var s := NewEpoch(LATE_POOL, 100);
      InTime(s) && LastTotal(s, 7) == 10 && ShareAt(s, 7, 2) == QUINTILL && s.epoch == 3
      && s.reward == 100 && s.paid == 0
  {
  }

  lemma {:induction false} BothPaid()
    ensures var s := Run(LATE_POOL, [Epoch(100)] + ([Commit(1, [Metric(7, 1)])] + ([Commit(2, [Metric(7, 1)])] + [])));
      s.paid == 200 && s.reward == 100
  {
    hide Run, Committed, InTime, LastTotal, ShareAt, SameLast;
    var c2: seq<Step> := [Commit(2, [Metric(7, 1)])] + [];
    var c1 := [Commit(1, [Metric(7, 1)])] + c2;
    RunStep(LATE_POOL, Epoch(100), c1);
    var s := NewEpoch(LATE_POOL, 100);
    DueLate();
    PaidInFull(s, 1, 7, 2, 7);
    RunStep(s, Commit(1, [Metric(7, 1)]), c2);
    var s' := Next(s, Commit(1, [Metric(7, 1)]));
    StillDue(s, s', 1, 7);
    PaidInFull(s', 2, 7, 2, 7);
    RunStep(s', Commit(2, [Metric(7, 1)]), []);
    Rewards(s', Next(s', Commit(2, [Metric(7, 1)])));
    RunNone(Next(s', Commit(2, [Metric(7, 1)])));
  }

  lemma {:induction false} StillDue(s: State, s': State, m: Manager, p: PoolId)
    requires InTime(s) && SameLast(s, s') && s' == Next(s, Commit(m, [Metric(p, 1)]))
    ensures InTime(s') && LastTotal(s', 7) == LastTotal(s, 7) && LastTotal(s', 8) == LastTotal(s, 8)
    ensures ShareAt(s', 7, 2) == ShareAt(s, 7, 2) && ShareAt(s', 8, 2) == ShareAt(s, 8, 2)
    ensures s'.epoch == s.epoch && s'.reward == s.reward && s'.shares == s.shares
    ensures (7 in s.pools ==> 7 in s'.pools) && (8 in s.pools ==> 8 in s'.pools)
  {
    hide Recorded, PartFor, MulFloor, LastTotal;
    CommitOne(s, m, p, 1);
    RecordedInTime(s, m, p, 1);
  }

  lemma {:induction false} Rewards(s: State, s': State)
    requires SameLast(s, s')
    ensures s'.reward == s.reward
  {
  }

  /** A pool created late: 200 are paid for an epoch with a reward of 100. */
  lemma {:induction false} LateCreation() returns (steps: seq<Step>)
    ensures Run(NO_STATE, steps).reward == 100 && Run(NO_STATE, steps).paid == 200 && !AllTimely(NO_STATE, steps)
  {
    hide Run, AllTimely;
    var last := [Epoch(100)] + ([Commit(1, [Metric(7, 1)])] + ([Commit(2, [Metric(7, 1)])] + []));
    var middle := [Commit(1, [Metric(7, 10)])] + ([Create(7, QUINTILL)] + ([Commit(2, [Metric(7, 10)])] + last));
    steps := [Epoch(0)] + ([Epoch(0)] + middle);
    Starts(middle);
    FillsLate(last);
    BothPaid();
    if AllTimely(NO_STATE, steps) {
      MetricRewardsBounded(steps);
    }
  }

  // ----- ratios changed for an epoch that is over -----

  const NOTHING := Provisional(0, None)

  function Two(first: Provisional, second: Provisional): map<PoolId, Provisional> {
    map[7 := first, 8 := second]
  }

  lemma {:induction false} TwoFit(first: Provisional, second: Provisional, e: nat)
    requires first.next.None? && second.next.None? && first.current + second.current <= QUINTILL
    ensures Validated(Two(first, second), e)
  {
    var ratios := RatiosAt(Two(first, second), e);
    assert ratios == map[7 := first.current, 8 := second.current];
    TotalPick(ratios, 7);
    TotalPick(ratios - {7}, 8);
    assert ratios - {7} - {8} == map[];
    TotalZero(ratios - {7} - {8});
  }

  /** Managers 1 and 2 have given 10 each, to pool 7 with the whole ratio and to pool 8 with none. */
  const TWO_POOLS := START.(
    pools := map[7 := SUMMED, 8 := SUMMED], shares := Two(WHOLE, NOTHING),
    sums := map[(1, 7) := SUMMED, (2, 8) := SUMMED])

  lemma {:induction false} Opens(steps: seq<Step>)
    ensures Run(START, [Create(7, QUINTILL)] + ([Create(8, 0)] + steps))
         == Run(START.(pools := map[7 := Empty(0), 8 := Empty(0)], shares := Two(WHOLE, NOTHING)), steps)
  {
    hide Run, Validated;
    RunStep(START, Create(7, QUINTILL), [Create(8, 0)] + steps);
    OneFits(2);
    assert START.shares[7 := WHOLE] == ONE_POOL;
    var s1 := START.(pools := map[7 := Empty(0)], shares := ONE_POOL);
    assert Next(START, Create(7, QUINTILL)) == s1;
    RunStep(s1, Create(8, 0), steps);
    TwoFit(WHOLE, NOTHING, 2);
    assert s1.shares[8 := NOTHING] == Two(WHOLE, NOTHING);
    assert s1.pools[8 := Empty(0)] == map[7 := Empty(0), 8 := Empty(0)];
  }

  lemma {:induction false} Fills(steps: seq<Step>)
    ensures Run(START.(pools := map[7 := Empty(0), 8 := Empty(0)], shares := Two(WHOLE, NOTHING)),
                [Commit(1, [Metric(7, 10)])] + ([Commit(2, [Metric(8, 10)])] + steps)) == Run(TWO_POOLS, steps)
  {
    hide Run, Committed;
    var s0 := START.(pools := map[7 := Empty(0), 8 := Empty(0)], shares := Two(WHOLE, NOTHING));
    RunStep(s0, Commit(1, [Metric(7, 10)]), [Commit(2, [Metric(8, 10)])] + steps);
    GivesTo(s0, 1, 7);
    var s1 := s0.(pools := s0.pools[7 := SUMMED], sums := s0.sums[(1, 7) := SUMMED]);
    RunStep(s1, Commit(2, [Metric(8, 10)]), steps);
    GivesTo(s1, 2, 8);
    assert s1.pools[8 := SUMMED] == TWO_POOLS.pools && s1.sums[(2, 8) := SUMMED] == TWO_POOLS.sums;
  }

  lemma {:induction false} DueTwo()
    ensures var s := NewEpoch(TWO_POOLS, 100);
      && InTime(s) && LastTotal(s, 7) == 10 && LastTotal(s, 8) == 10 && ShareAt(s, 7, 2) == QUINTILL
      && s.epoch == 3 && s.reward == 100 && s.paid == 0 && s.unseen == map[]
      && 7 in s.pools && 8 in s.pools && s.shares == Two(WHOLE, NOTHING)
  {
  }

  /** In epoch 3 the ratios for epoch 2 are swapped. */
  lemma {:induction false} Swaps(s: State)
    requires s.epoch == 3 && s.shares == Two(WHOLE, NOTHING)
    ensures var s1 := Next(s, Modify(7, 2, 0)); var s2 := Next(s1, Modify(8, 2, QUINTILL));
      && s2 == s.(shares := Two(NOTHING, WHOLE), ratios := s2.ratios)
      && (LastTotal(s, 8) > 0 && ShareAt(s, 8, 2) == 0 ==> !Timely(s1, Modify(8, 2, QUINTILL)))
  {
    hide Validated, ValueAt;
    TwoFit(NOTHING, NOTHING, 3);
    assert s.shares[7 := NOTHING] == Two(NOTHING, NOTHING);
    var s1 := Next(s, Modify(7, 2, 0));
    assert s1.shares == Two(NOTHING, NOTHING);
    TwoFit(NOTHING, WHOLE, 3);
    assert s1.shares[8 := WHOLE] == Two(NOTHING, WHOLE);
  }

  lemma {:induction false} SwappedAlike(s: State, s': State)
    requires s' == s.(shares := Two(NOTHING, WHOLE), ratios := s'.ratios) && InTime(s)
    ensures InTime(s') && LastTotal(s', 8) == LastTotal(s, 8) && ShareAt(s', 8, 2) == QUINTILL
  {
  }

  lemma {:induction false} EachPaid()
    ensures var s := Run(TWO_POOLS, [Epoch(100)] + ([Commit(1, [Metric(7, 1)])] + ([Modify(7, 2, 0)]
                         + ([Modify(8, 2, QUINTILL)] + ([Commit(2, [Metric(8, 1)])] + [])))));
      s.paid == 200 && s.reward == 100 && s.unseen == map[]
  {
    hide Run, Committed, InTime, LastTotal, ShareAt, Modified, SameLast, Two;
    var c4: seq<Step> := [Commit(2, [Metric(8, 1)])] + [];
    var c3 := [Modify(8, 2, QUINTILL)] + c4;
    var c2 := [Modify(7, 2, 0)] + c3;
    var c1 := [Commit(1, [Metric(7, 1)])] + c2;
    RunStep(TWO_POOLS, Epoch(100), c1);
    var s := NewEpoch(TWO_POOLS, 100);
    DueTwo();
    PaidInFull(s, 1, 7, 2, 8);
    RunStep(s, Commit(1, [Metric(7, 1)]), c2);
    var s1 := Next(s, Commit(1, [Metric(7, 1)]));
    StillDue(s, s1, 1, 7);
    Swaps(s1);
    RunStep(s1, Modify(7, 2, 0), c3);
    RunStep(Next(s1, Modify(7, 2, 0)), Modify(8, 2, QUINTILL), c4);
    var s2 := Next(Next(s1, Modify(7, 2, 0)), Modify(8, 2, QUINTILL));
    SwappedAlike(s1, s2);
    PaidInFull(s2, 2, 8, 2, 8);
    RunStep(s2, Commit(2, [Metric(8, 1)]), []);
    Rewards(s2, Next(s2, Commit(2, [Metric(8, 1)])));
    RunNone(Next(s2, Commit(2, [Metric(8, 1)])));
  }

  /** Past ratios changed between two claims: 200 are paid for 100, and no metric has gone unseen. */
  lemma {:induction false} PastRatios() returns (steps: seq<Step>)
    ensures Run(NO_STATE, steps).reward == 100 && Run(NO_STATE, steps).paid == 200
    ensures Run(NO_STATE, steps).unseen == map[] && !AllTimely(NO_STATE, steps)
  {
    hide Run, AllTimely;
    var last := [Epoch(100)] + ([Commit(1, [Metric(7, 1)])] + ([Modify(7, 2, 0)]
                + ([Modify(8, 2, QUINTILL)] + ([Commit(2, [Metric(8, 1)])] + []))));
    var fill := [Commit(1, [Metric(7, 10)])] + ([Commit(2, [Metric(8, 10)])] + last);
    var open := [Create(7, QUINTILL)] + ([Create(8, 0)] + fill);
    steps := [Epoch(0)] + ([Epoch(0)] + open);
    Starts(open);
    Opens(fill);
    Fills(last);
    EachPaid();
    if AllTimely(NO_STATE, steps) {
      MetricRewardsBounded(steps);
    }
  }
}
