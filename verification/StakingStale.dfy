/**
 * A run after which the recorded total of a commitment is below what is delegated to it: the committer
 * stakes again, and a delegation left from before is slashed.
 */
module StakingStale {
  import opened Wrappers
  import opened StakingBase
  import opened StakingSums
  import opened StakingBooks
  import opened StakingMoves
  import opened StakingEffects
  import opened StakingRuns
  import opened StakingExact
  import opened StakingRules
  import opened StakingTotals
  import opened StakingSlashed

  const SLASH := Call.Slash(1, [MISSED], TENTH)

  /** The delegation of account 2 is as it began, and the pool holds the slash. */
  ghost predicate Left(b: Books, block: nat) {
    && b.block == block && b.delegations == map[(2, 1) := TEN] && b.delegatorTotal == map[2 := 10]
    && 1 in b.commitments && b.commitments[1].pool == Memory(None, 1, PoolReward(0, RAISE))
  }

  ghost predicate StakedWith(b: Books, cooldown: Option<nat>) {
    && b.totalStake == 19 && Staked(b, 1)
    && var s := b.commitments[1].stake.value;
    && s.amount == 9 && s.period == 1 && s.accruedReward == 0 && s.cooldown == cooldown
  }

  lemma {:induction false} SlashLeaves()
    ensures var b := Next(CFG, IDS, LATE, SLASH, ENV); Left(b, 2) && StakedWith(b, None)
  {
    Slashes();
    Split();
    hide SlashDemand, SlashSplit, SlashBites, SelfWeighed, Get;
    assert Get(LATE.delegatorTotal, 1) == 0 by { NoTotal(); }
    SelfKeeps(LATE.commitments[1].(stake := Some(Resized(CFG, NewStake(10, 1, 1), 9))), 2);
  }

  lemma {:induction false} CoolLeaves(b: Books)
    requires Left(b, 2) && StakedWith(b, None)
    ensures var b' := Next(CFG, IDS, b, CoolCommitter(1), ENV); Left(b', 2) && StakedWith(b', Some(2))
  {
    hide Weight, MulFloor;
  }

  lemma {:induction false} PassLeaves(b: Books)
    requires Left(b, 2) && StakedWith(b, Some(2))
    ensures var b' := Next(CFG, IDS, b, Pass(1, 1), ENV); Left(b', 3) && StakedWith(b', Some(2))
  {
  }

  lemma {:induction false} EndLeaves(b: Books)
    requires Left(b, 3) && StakedWith(b, Some(2)) && Sound(CFG, IDS, b)
    ensures var b' := Next(CFG, IDS, b, End(1), ENV); Left(b', 3) && !Staked(b', 1) && b'.totalStake == 10
  {
    EndRule(CFG, IDS, b, 1, ENV);
    hide Sound, Unlocked, Get, OwnAmount;
  }

  /** The committer has staked 10 again, and the pool of before is remembered. */
  ghost predicate Again(b: Books) {
    && Staked(b, 1) && b.commitments[1].stake.value == NewStake(10, 3, 1) && b.block == 3
    && b.commitments[1].pool == Memory(Some((1, PoolReward(0, RAISE))), 3, NO_REWARDS)
    && (2, 1) in b.delegations && b.delegations[(2, 1)] == TEN && Get(b.delegatorTotal, 2) == 10
  }

  lemma {:induction false} LocksOf(b: Books, who: Account)
    requires Sound(CFG, IDS, b) && Left(b, 3) && who != 2 && (who == 1 ==> !Staked(b, 1))
    ensures Get(b.locks, who) == 0
  {
    LockOf(CFG, IDS, b, who);
    hide Sound;
  }

  lemma {:induction false} StakeEffect(b: Books)
    requires Left(b, 3) && b.totalStake == 10
    ensures var b' := AfterStake(CFG, IDS, b, 1, 10, 1, 0);
      && Again(b') && b'.commitments[1].delegTotal == 0 && b'.totalStake == 20
      && b'.delegations == map[(2, 1) := TEN] && b'.delegatorTotal == map[2 := 10]
  {
    hide Weight;
  }

  lemma {:induction false} StakesAgain(b: Books)
    requires Sound(CFG, IDS, b) && Left(b, 3) && !Staked(b, 1) && b.totalStake == 10
    ensures var b' := Next(CFG, IDS, b, Call.Stake(1, 10, 1, 0), ENV);
      && Again(b') && b'.commitments[1].delegTotal == 0 && b'.totalStake == 20
      && b'.delegations == map[(2, 1) := TEN] && b'.delegatorTotal == map[2 := 10]
  {
    LocksOf(b, 1);
    StakeRule(CFG, IDS, b, 1, 10, 1, 0, ENV);
    StakeEffect(b);
    hide Sound, Left, Again, Next, Succeeds, AfterStake;
    StakeNext(CFG, IDS, b, Call.Stake(1, 10, 1, 0), ENV);
  }

  lemma {:induction false} NoLock(b: Books)
    requires Sound(CFG, IDS, b) && b.delegatorTotal == map[2 := 10]
    ensures Get(b.locks, 3) == 0
  {
    LockOf(CFG, IDS, b, 3);
    hide Sound;
  }

  lemma {:induction false} JoinEffectAgain(b: Books)
    requires Again(b) && b.commitments[1].delegTotal == 0 && b.totalStake == 20 && (3, 1) !in b.delegations
    ensures var b' := AfterJoin(CFG, IDS, b, 3, 1, 10, 1);
      && Again(b') && b'.commitments[1].delegTotal == 10 && b'.totalStake == 30
      && (3, 1) in b'.delegations && b'.delegations[(3, 1)].stake.amount == 10
      && b'.delegations[(3, 1)].stake.created == 3
  {
    hide Weight, CeilShare, FloorShare, Rebalanced, OwnStake;
  }

  lemma {:induction false} JoinsAgain(b: Books)
    requires Sound(CFG, IDS, b) && Again(b) && b.commitments[1].delegTotal == 0 && b.totalStake == 20
    requires b.delegations == map[(2, 1) := TEN] && b.delegatorTotal == map[2 := 10]
    ensures var b' := Next(CFG, IDS, b, Delegate(3, 1, 10, 1), ENV);
      && Again(b') && b'.commitments[1].delegTotal == 10 && b'.totalStake == 30
      && (3, 1) in b'.delegations && b'.delegations[(3, 1)].stake.amount == 10
      && b'.delegations[(3, 1)].stake.created == 3
  {
    NoLock(b);
    DelegateWhen(CFG, IDS, b, 3, 1, 10, 1, ENV);
    JoinEffectAgain(b);
    hide Sound, AfterJoin;
  }

  /** The delegation of before still accrues the slash of its own pool. */
  lemma {:induction false} StaleDue(b: Books)
    requires Again(b)
    ensures Delegates(b, 2, 1) && SlashDue(b, 2, 1) == 1
  {
    assert 10 * RAISE == PER_TOKEN;
    assert b.commitments[1].pool.GetLatest(1) == Some(PoolReward(0, RAISE));
    AccruedSlashExact(TEN, b.commitments[1].pool, PoolReward(0, RAISE));
    hide AccruedIn;
  }

  lemma {:induction false} AccruedSlashExact(d: Delegation, pool: Memory<PoolReward>, p: PoolReward)
    requires pool.GetLatest(d.stake.created) == Some(p) && d.slashDebt == 0
    requires d.slashWeight * p.slashPerWeight == PER_TOKEN
    ensures AccruedIn(d, pool).stake.accruedSlash == d.stake.accruedSlash + 1
  {
  }

  lemma {:induction false} MayCut(b: Books)
    requires Again(b) && b.totalStake == 30
    ensures CanApplySlash(IDS, b, 2, 1, ENV)
  {
    StaleDue(b);
    AccrualKeepsAmount(TEN, b.commitments[1].pool);
    assert OwnStake(IDS, b.commitments, 2) == 0;
    hide AccruedIn, OwnStake, SlashDue;
    var b1 := AfterAccrue(b, 2, 1);
    assert b1.delegations[(2, 1)].stake.amount == 10;
    assert Get(b1.delegatorTotal, 2) == 10;
  }

  lemma {:induction false} CutsTotal(b: Books)
    requires Again(b) && b.totalStake == 30 && b.commitments[1].delegTotal == 10
    requires (3, 1) in b.delegations
    ensures var b' := Next(CFG, IDS, b, ApplySlash(2, 1), ENV);
      && Staked(b', 1) && b'.commitments[1].delegTotal == 9 && b'.commitments[1].stake == b.commitments[1].stake
      && (3, 1) in b'.delegations && b'.delegations[(3, 1)] == b.delegations[(3, 1)]
  {
    StaleDue(b);
    MayCut(b);
    AccrualKeepsAmount(TEN, b.commitments[1].pool);
    hide AccruedIn, SlashDue, CanApplySlash;
    var b1 := AfterAccrue(b, 2, 1);
    ShrinkChanges(CFG, IDS, b1, 2, 1, 1);
    ShrinkOther(CFG, IDS, b1, 2, 1, 1, (3, 1));
    hide AfterShrink;
  }

  lemma {:induction false} ShrinkOther(cfg: Config, ids: Owners, b: Books, who: Account, cid: CommitmentId, target: nat,
                                       k: Key)
    requires cfg.Valid() && Delegates(b, who, cid) && Shrinkage(b, who, cid, target) <= b.totalStake
    requires k != (who, cid) && k in b.delegations
    ensures var b' := AfterShrink(cfg, ids, b, who, cid, target);
      k in b'.delegations && b'.delegations[k] == b.delegations[k]
  {
    hide Shrunk, Rebalanced, Get, OwnStake;
  }

  lemma {:induction false} RestFrom(b: Books) returns (rest: seq<(Call, Env)>)
    requires Sound(CFG, IDS, b) && CFG.Valid() && Left(b, 2) && StakedWith(b, None)
    ensures var b' := Run(CFG, IDS, b, rest);
      && Staked(b', 1) && b'.commitments[1].delegTotal == 9 && LiveSum(b', 1) >= 10
  {
    hide Run, Next, Sound, Left, StakedWith, Again, LiveSum;
    var c5: seq<(Call, Env)> := [(ApplySlash(2, 1), ENV)] + [];
    var c4 := [(Delegate(3, 1, 10, 1), ENV)] + c5;
    var c3 := [(Call.Stake(1, 10, 1, 0), ENV)] + c4;
    var c2 := [(End(1), ENV)] + c3;
    var c1 := [(Pass(1, 1), ENV)] + c2;
    rest := [(CoolCommitter(1), ENV)] + c1;
    var b1 := Step(b, CoolCommitter(1), c1);
    CoolLeaves(b);
    var b2 := Step(b1, Pass(1, 1), c2);
    PassLeaves(b1);
    var b3 := Step(b2, End(1), c3);
    EndLeaves(b2);
    var b4 := Step(b3, Call.Stake(1, 10, 1, 0), c4);
    StakesAgain(b3);
    var b5 := Step(b4, Delegate(3, 1, 10, 1), c5);
    JoinsAgain(b4);
    var b6 := Step(b5, ApplySlash(2, 1), []);
    CutsTotal(b5);
    RunNone(b6);
    Stays(b5, b6);
  }

  lemma {:induction false} Step(b: Books, call: Call, calls: seq<(Call, Env)>) returns (b': Books)
    requires Sound(CFG, IDS, b)
    ensures b' == Next(CFG, IDS, b, call, ENV) && Sound(CFG, IDS, b')
    ensures Run(CFG, IDS, b, [(call, ENV)] + calls) == Run(CFG, IDS, b', calls)
  {
    hide Run, Next, Sound;
    b' := Next(CFG, IDS, b, call, ENV);
    NextSound(CFG, IDS, b, call, ENV);
    RunStep(b, call, calls);
  }

  lemma {:induction false} Stays(b: Books, b': Books)
    requires Again(b) && (3, 1) in b.delegations && (3, 1) in b'.delegations && Staked(b', 1)
    requires b.delegations[(3, 1)].stake.amount == 10 && b.delegations[(3, 1)].stake.created == 3
    requires b'.commitments[1].stake == b.commitments[1].stake && b'.delegations[(3, 1)] == b.delegations[(3, 1)]
    ensures LiveSum(b', 1) >= 10
  {
    LiveWithin(b', 3, 1);
    hide LiveSum;
  }

  /** After this run 10 is delegated to the commitment, and 9 recorded. */
  lemma {:induction false} TotalFallsShort() returns (calls: seq<(Call, Env)>)
    ensures var b := Run(CFG, IDS, NO_BOOKS, calls);
      && Staked(b, 1) && b.commitments[1].delegTotal == 9 && LiveSum(b, 1) >= 10
  {
    hide Run, Next, Sound, LATE, LiveSum, Left, StakedWith;
    var none: seq<(Call, Env)> := [];
    var before := [(Pass(1, 1), ENV)] + ([(Call.Stake(1, 10, 1, 0), ENV)] + ([(Delegate(2, 1, 10, 1), ENV)]
                  + ([(Pass(1, 1), ENV)] + ([(SLASH, ENV)] + none))));
    Setting();
    EmptySound(CFG, IDS);
    RunSound(CFG, IDS, NO_BOOKS, before);
    ToSlash(none);
    var b := Next(CFG, IDS, LATE, SLASH, ENV);
    RunNone(b);
    SlashLeaves();
    var rest := RestFrom(b);
    ToSlash(rest);
    calls := [(Pass(1, 1), ENV)] + ([(Call.Stake(1, 10, 1, 0), ENV)] + ([(Delegate(2, 1, 10, 1), ENV)]
             + ([(Pass(1, 1), ENV)] + ([(SLASH, ENV)] + rest))));
  }
}
