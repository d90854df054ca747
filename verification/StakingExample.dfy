/**
 * Two runs in which a pool pays out more than was distributed to it: a delegator joins after the
 * epoch a distribution is for, and before the distribution; and a delegator with a reward due
 * delegates more.
 */
module StakingExample {
  import opened Wrappers
  import opened StakingBase
  import opened StakingBooks
  import opened StakingMoves
  import opened StakingEffects
  import opened StakingRuns
  import opened StakingTheorems
  import opened StakedRewards

  const CFG := Config(1, 1, 1, 1, 0, 0)
  const IDS: Owners := map[1 := 1]
  const ENV := Env(1000, true, true, true, true)

  function PoolOf(weights: Memory<Weights>, delegTotal: nat, accrued: nat, rewardPerWeight: nat): Commitment {
    Commitment(Some(NewStake(1, 1, 1).(accruedReward := accrued)), 0, delegTotal, weights,
               Memory(None, 1, PoolReward(rewardPerWeight, 0)), 0)
  }

  function Unit(block: nat): Delegation {
    Delegation(NewStake(1, block, 1), 1, 1, 0, 0)
  }

  /** After payment of 10. */
  function PaidUnit(block: nat): Delegation {
    Delegation(NewStake(1, block, 1).(paid := 10), 1, 1, 10, 0)
  }

  /** Account 1 has staked in epoch 1. */
  const STAKED := Books(
    map[1 := PoolOf(Memory(None, 1, Weights(1, 1, 0, 0)), 0, 0, 0)], map[], map[], 1, map[1 := 1], 1, 1, map[], map[],
    map[], map[], 0)

  /** Account 2 has delegated to it. */
  const JOINED := Books(
    map[1 := PoolOf(Memory(None, 1, Weights(1, 1, 1, 1)), 1, 0, 0)], map[(2, 1) := Unit(1)],
    map[2 := 1], 2, map[1 := 1, 2 := 1], 1, 1, map[], map[], map[], map[], 0)

  const LATE := JOINED.(block := 2, epoch := 2)

  /** Account 3 has delegated in epoch 2. */
  const JOINED_LATE := Books(
    map[1 := PoolOf(Memory(Some((1, Weights(1, 1, 1, 1))), 2, Weights(1, 1, 2, 2)), 2, 0, 0)],
    map[(2, 1) := Unit(1), (3, 1) := Unit(2)],
    map[2 := 1, 3 := 1], 3, map[1 := 1, 2 := 1, 3 := 1], 2, 2, map[], map[], map[], map[], 0)

  /** 20 have been distributed for epoch 1, half to the committer and half to the delegators. */
  const DISTRIBUTED := JOINED_LATE.(
    commitments := map[1 := PoolOf(JOINED_LATE.commitments[1].weights, 2, 10, 10 * PER_TOKEN)],
    distributed := map[1 := 10], excess := map[1 := 10 * PER_TOKEN])

  const PAID_ONCE := DISTRIBUTED.(delegations := map[(2, 1) := PaidUnit(1), (3, 1) := Unit(2)], paid := map[1 := 10])

  const PAID_TWICE := DISTRIBUTED.(delegations := map[(2, 1) := PaidUnit(1), (3, 1) := PaidUnit(2)],
                                   paid := map[1 := 20])

  lemma {:induction false} Stakes()
    ensures Next(CFG, IDS, NO_BOOKS.(block := 1, epoch := 1), Call.Stake(1, 1, 1, 0), ENV) == STAKED
  {
  }

  lemma {:induction false} JoinsAsUnit(block: nat)
    ensures Joined(CFG, 1, 1, block, PoolReward(0, 0)) == Unit(block)
  {
  }

  lemma {:induction false} Joins()
    ensures Next(CFG, IDS, STAKED, Delegate(2, 1, 1, 1), ENV) == JOINED
  {
    hide AfterJoin, CanDelegate;
    MayJoin();
    JoinEffect();
  }

  lemma {:induction false} MayJoin()
    ensures CanDelegate(CFG, IDS, STAKED, 2, 1, 1, 1, ENV)
  {
  }

  lemma {:induction false} FirstWeights()
    ensures Rebalanced(STAKED.commitments[1], None, Some(Unit(1)), 1) == Memory(None, 1, Weights(1, 1, 1, 1))
  {
  }

  lemma {:induction false} FirstMaps(d: Delegation)
    ensures STAKED.delegations[(2, 1) := d] == map[(2, 1) := d] && STAKED.delegatorTotal[2 := 1] == map[2 := 1]
    ensures STAKED.locks[2 := 1] == map[1 := 1, 2 := 1]
    ensures Get(STAKED.delegatorTotal, 2) == 0 && OwnStake(IDS, STAKED.commitments, 2) == 0
  {
  }

  lemma {:induction false} JoinEffect()
    ensures AfterJoin(CFG, IDS, STAKED, 2, 1, 1, 1) == JOINED
  {
    hide Joined, Weight, CeilShare, FloorShare, Rebalanced, Get, OwnStake;
    JoinsAsUnit(1);
    FirstWeights();
    FirstMaps(Unit(1));
    assert STAKED.commitments[1 := JOINED.commitments[1]] == JOINED.commitments;
  }

  lemma {:induction false} LateWeights()
    ensures Rebalanced(JOINED.commitments[1], None, Some(Unit(2)), 2)
         == Memory(Some((1, Weights(1, 1, 1, 1))), 2, Weights(1, 1, 2, 2))
  {
  }

  lemma {:induction false} MayJoinLate()
    ensures CanDelegate(CFG, IDS, LATE, 3, 1, 1, 1, ENV)
  {
  }

  lemma {:induction false} LateMaps(d: Delegation)
    ensures LATE.delegations[(3, 1) := d] == map[(2, 1) := Unit(1), (3, 1) := d]
    ensures LATE.delegatorTotal[3 := 1] == map[2 := 1, 3 := 1]
    ensures LATE.locks[3 := 1] == map[1 := 1, 2 := 1, 3 := 1]
    ensures Get(LATE.delegatorTotal, 3) == 0 && OwnStake(IDS, LATE.commitments, 3) == 0
  {
  }

  lemma {:induction false} LateEffect()
    ensures AfterJoin(CFG, IDS, LATE, 3, 1, 1, 1) == JOINED_LATE
  {
    hide Joined, Weight, CeilShare, FloorShare, Rebalanced, Get, OwnStake;
    JoinsAsUnit(2);
    LateWeights();
    LateMaps(Unit(2));
    assert LATE.commitments[1 := JOINED_LATE.commitments[1]] == JOINED_LATE.commitments;
  }

  lemma {:induction false} JoinsLate()
    ensures Next(CFG, IDS, LATE, Delegate(3, 1, 1, 1), ENV) == JOINED_LATE
  {
    hide AfterJoin, CanDelegate;
    MayJoinLate();
    LateEffect();
  }

  /** What a reward of 20 is split into, by the weights of epoch 1. */
  lemma {:induction false} SplitsEvenly()
    ensures WeightsAt(JOINED_LATE.commitments[1], 1) == Weights(1, 1, 1, 1)
    ensures SelfPart(Weights(1, 1, 1, 1), 0, 20) == 10 && DelegatorsPart(Weights(1, 1, 1, 1), 0, 20) == 10
  {
  }

  lemma {:induction false} Distributes()
    ensures !Covered(JOINED_LATE, Distribute(1, 10, 10, 1), 1)
    ensures Next(CFG, IDS, JOINED_LATE, Distribute(1, 10, 10, 1), ENV) == DISTRIBUTED
  {
  }

  const EARNED := Memory(None, 1, PoolReward(10 * PER_TOKEN, 0))

  lemma {:induction false} UnitEarns(block: nat)
    requires block >= 1
    ensures AccruedIn(Unit(block), EARNED) == Delegation(NewStake(1, block, 1).(accruedReward := 10), 1, 1, 10, 0)
  {
  }

  /** A unit delegated before a raise by 10 per weight is paid 10. */
  lemma {:induction false} UnitPaid(b: Books, who: Account, block: nat)
    requires Delegates(b, who, 1) && b.delegations[(who, 1)] == Unit(block) && block >= 1
    requires b.commitments[1].pool == EARNED
    ensures CanWithdraw(CFG, IDS, b, who, 1, ENV) && RewardDue(CFG, IDS, b, who, 1, ENV) == 10
    ensures AfterWithdraw(CFG, IDS, b, who, 1, ENV)
         == b.(delegations := b.delegations[(who, 1) := PaidUnit(block)], paid := b.paid[1 := Get(b.paid, 1) + 10])
  {
    hide AccruedIn, AfterShrink, Get;
    UnitEarns(block);
    var b1 := AfterAccrue(b, who, 1);
    assert SlashDue(b, who, 1) == 0;
    assert AfterApplySlash(CFG, IDS, b, who, 1, ENV) == b1;
    assert b1.delegations[(who, 1) := PaidUnit(block)] == b.delegations[(who, 1) := PaidUnit(block)];
  }

  lemma {:induction false} WithdrawNext(b: Books, who: Account)
    requires CanWithdraw(CFG, IDS, b, who, 1, ENV)
    ensures Next(CFG, IDS, b, Withdraw(who, 1), ENV) == AfterWithdraw(CFG, IDS, b, who, 1, ENV)
  {
    hide CanWithdraw, AfterWithdraw;
  }

  lemma {:induction false} PaysFirst()
    ensures Next(CFG, IDS, DISTRIBUTED, Withdraw(2, 1), ENV) == PAID_ONCE
  {
    hide CanWithdraw, AfterWithdraw, Next, RewardDue;
    UnitPaid(DISTRIBUTED, 2, 1);
    WithdrawNext(DISTRIBUTED, 2);
    assert DISTRIBUTED.delegations[(2, 1) := PaidUnit(1)] == PAID_ONCE.delegations;
  }

  lemma {:induction false} PaysSecond()
    ensures Next(CFG, IDS, PAID_ONCE, Withdraw(3, 1), ENV) == PAID_TWICE
  {
    hide CanWithdraw, AfterWithdraw, Next, RewardDue;
    UnitPaid(PAID_ONCE, 3, 2);
    WithdrawNext(PAID_ONCE, 3);
    assert PAID_ONCE.delegations[(3, 1) := PaidUnit(2)] == PAID_TWICE.delegations;
  }

  lemma {:induction false} RunStep(b: Books, call: Call, calls: seq<(Call, Env)>)
    ensures Run(CFG, IDS, b, [(call, ENV)] + calls) == Run(CFG, IDS, Next(CFG, IDS, b, call, ENV), calls)
  {
    hide Next;
    var all := [(call, ENV)] + calls;
    assert all[0] == (call, ENV) && all[1..] == calls;
  }

  lemma {:induction false} FirstHalf(rest: seq<(Call, Env)>)
    ensures Run(CFG, IDS, NO_BOOKS,
                [(Pass(1, 1), ENV)] + ([(Call.Stake(1, 1, 1, 0), ENV)] + ([(Delegate(2, 1, 1, 1), ENV)] + rest)))
         == Run(CFG, IDS, JOINED, rest)
  {
    hide Run, AfterStake, AfterJoin;
    var c2 := [(Delegate(2, 1, 1, 1), ENV)] + rest;
    var c1 := [(Call.Stake(1, 1, 1, 0), ENV)] + c2;
    RunStep(NO_BOOKS, Pass(1, 1), c1);
    Stakes();
    RunStep(NO_BOOKS.(block := 1, epoch := 1), Call.Stake(1, 1, 1, 0), c2);
    Joins();
    RunStep(STAKED, Delegate(2, 1, 1, 1), rest);
  }

  lemma {:induction false} RunNone(b: Books)
    ensures Run(CFG, IDS, b, []) == b
  {
  }

  lemma {:induction false} Passes()
    ensures Next(CFG, IDS, JOINED, Pass(1, 1), ENV) == LATE
  {
  }

  lemma {:induction false} SecondHalf()
    ensures Run(CFG, IDS, JOINED,
                [(Pass(1, 1), ENV)] + ([(Delegate(3, 1, 1, 1), ENV)] + ([(Distribute(1, 10, 10, 1), ENV)]
                + ([(Withdraw(2, 1), ENV)] + ([(Withdraw(3, 1), ENV)] + []))))) == PAID_TWICE
  {
    hide Run, Next, JOINED, LATE, JOINED_LATE, DISTRIBUTED, PAID_ONCE, PAID_TWICE;
    var c7: seq<(Call, Env)> := [(Withdraw(3, 1), ENV)] + [];
    var c6 := [(Withdraw(2, 1), ENV)] + c7;
    var c5 := [(Distribute(1, 10, 10, 1), ENV)] + c6;
    var c4 := [(Delegate(3, 1, 1, 1), ENV)] + c5;
    Passes();
    JoinsLate();
    Distributes();
    PaysFirst();
    PaysSecond();
    RunStep(JOINED, Pass(1, 1), c4);
    RunStep(LATE, Delegate(3, 1, 1, 1), c5);
    RunStep(JOINED_LATE, Distribute(1, 10, 10, 1), c6);
    RunStep(DISTRIBUTED, Withdraw(2, 1), c7);
    RunStep(PAID_ONCE, Withdraw(3, 1), []);
    RunNone(PAID_TWICE);
  }

  /** A distribution that is not covered: delegators are given 10 and paid 20, each of them once. */
  lemma {:induction false} JoinBeforeDistribution() returns (calls: seq<(Call, Env)>)
    ensures var b := Run(CFG, IDS, NO_BOOKS, calls);
      Get(b.distributed, 1) == 10 && Get(b.paid, 1) == 20 && Get(b.again, 1) == 0
    ensures !AllCovered(CFG, IDS, NO_BOOKS, calls, 1) && AllPaidOnce(CFG, IDS, NO_BOOKS, calls, 1)
    ensures SelfPart(Weights(1, 1, 1, 1), 0, 20) == 10 == DelegatorsPart(Weights(1, 1, 1, 1), 0, 20)
  {
    SplitsEvenly();
    hide Run, SelfPart, DelegatorsPart, AllCovered, AllPaidOnce;
    var rest := [(Pass(1, 1), ENV)] + ([(Delegate(3, 1, 1, 1), ENV)] + ([(Distribute(1, 10, 10, 1), ENV)]
                + ([(Withdraw(2, 1), ENV)] + ([(Withdraw(3, 1), ENV)] + []))));
    calls := [(Pass(1, 1), ENV)] + ([(Call.Stake(1, 1, 1, 0), ENV)] + ([(Delegate(2, 1, 1, 1), ENV)] + rest));
    FirstHalf(rest);
    SecondHalf();
    ExcessRun(CFG, IDS, NO_BOOKS, calls, 1);
    AgainRun(CFG, IDS, NO_BOOKS, calls, 1);
  }

  // ----- delegating more with a reward due -----

  /** 20 have been distributed for epoch 1 to the committer and its only delegator. */
  const ALONE := LATE.(
    commitments := map[1 := PoolOf(LATE.commitments[1].weights, 1, 10, 10 * PER_TOKEN)],
    distributed := map[1 := 10], excess := map[1 := 0])

  lemma {:induction false} DistributesAlone()
    ensures Next(CFG, IDS, LATE, Distribute(1, 10, 10, 1), ENV) == ALONE
  {
  }

  /** What remains when the delegation is ended. */
  const ENDED := AfterLeave(ALONE.(delegations := map[(2, 1) := PaidUnit(1)], paid := map[1 := 10]), 2, 1)

  lemma {:induction false} Ends()
    ensures CanLeave(CFG, IDS, ALONE, 2, 1, false, false, ENV)
    ensures RewardDue(CFG, IDS, ALONE, 2, 1, ENV) == 10
    ensures AfterLeave(AfterWithdraw(CFG, IDS, ALONE, 2, 1, ENV), 2, 1) == ENDED
  {
    hide CanWithdraw, AfterWithdraw, RewardDue, AfterLeave;
    UnitPaid(ALONE, 2, 1);
    assert ALONE.delegations[(2, 1) := PaidUnit(1)] == map[(2, 1) := PaidUnit(1)];
    assert ALONE.paid[1 := Get(ALONE.paid, 1) + 10] == map[1 := 10];
  }

  lemma {:induction false} MayRejoin()
    ensures CanDelegate(CFG, IDS, ENDED, 2, 1, 1, 1, ENV)
  {
    hide Rebalanced;
    assert Get(ENDED.delegatorTotal, 2) == 0;
    assert OwnStake(IDS, ENDED.commitments, 2) == 0;
  }

  /** Delegating more, or just again, succeeds and transfers the 10 that are due twice. */
  lemma {:induction false} MovesWithReward()
    ensures var b := Next(CFG, IDS, ALONE, DelegateMore(2, 1, 0, None, ENV), ENV);
      Get(b.paid, 1) == 10 && Get(b.again, 1) == 10 && b.distributed == ALONE.distributed && b.excess == ALONE.excess
  {
    Ends();
    MayRejoin();
    assert MoreAmount(ALONE, 2, 1, 0) == 1 && MorePeriod(ALONE, 2, 1, None) == 1;
    hide CanLeave, RewardDue, AfterLeave, AfterWithdraw, CanDelegate, ENDED, AfterMove;
    assert CanMove(CFG, IDS, ALONE, 2, 1, 1, 1, 1, ENV, ENV);
    assert Succeeds(CFG, IDS, ALONE, DelegateMore(2, 1, 0, None, ENV), ENV);
    MovingKeeps(CFG, IDS, ALONE, DelegateMore(2, 1, 0, None, ENV), ENV, 1);
    hide Next;
  }

  lemma {:induction false} MovingHalf()
    ensures var b := Run(CFG, IDS, JOINED, [(Pass(1, 1), ENV)] + ([(Distribute(1, 10, 10, 1), ENV)]
                                           + ([(DelegateMore(2, 1, 0, None, ENV), ENV)] + [])));
      && Get(b.paid, 1) == 10 && Get(b.again, 1) == 10
      && Get(b.distributed, 1) == 10 && Get(b.excess, 1) == 0
  {
    AloneLedger();
    hide Run, Next, JOINED, LATE, ALONE;
    var c5: seq<(Call, Env)> := [(DelegateMore(2, 1, 0, None, ENV), ENV)] + [];
    var c4 := [(Distribute(1, 10, 10, 1), ENV)] + c5;
    Passes();
    DistributesAlone();
    MovesWithReward();
    RunStep(JOINED, Pass(1, 1), c4);
    RunStep(LATE, Distribute(1, 10, 10, 1), c5);
    RunStep(ALONE, DelegateMore(2, 1, 0, None, ENV), []);
    RunNone(Next(CFG, IDS, ALONE, DelegateMore(2, 1, 0, None, ENV), ENV));
  }

  lemma {:induction false} AloneLedger()
    ensures Get(ALONE.distributed, 1) == 10 && Get(ALONE.excess, 1) == 0
  {
  }

  /** A covered distribution of 10 to delegators, 10 due, and 20 received, because the reward is transferred twice. */
  lemma {:induction false} RewardTransferredTwice() returns (calls: seq<(Call, Env)>)
    ensures var b := Run(CFG, IDS, NO_BOOKS, calls);
      Get(b.distributed, 1) == 10 && Get(b.paid, 1) + Get(b.again, 1) == 20
    ensures AllCovered(CFG, IDS, NO_BOOKS, calls, 1) && !AllPaidOnce(CFG, IDS, NO_BOOKS, calls, 1)
  {
    hide Run, AllCovered, AllPaidOnce;
    var rest := [(Pass(1, 1), ENV)] + ([(Distribute(1, 10, 10, 1), ENV)]
                + ([(DelegateMore(2, 1, 0, None, ENV), ENV)] + []));
    calls := [(Pass(1, 1), ENV)] + ([(Call.Stake(1, 1, 1, 0), ENV)] + ([(Delegate(2, 1, 1, 1), ENV)] + rest));
    FirstHalf(rest);
    MovingHalf();
    ExcessRun(CFG, IDS, NO_BOOKS, calls, 1);
    AgainRun(CFG, IDS, NO_BOOKS, calls, 1);
  }
}
