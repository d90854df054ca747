/** Runs with a slash: one reaches the delegator, and one during the cooldown costs the committer's slash weight. */
module StakingSlashed {
  import opened Wrappers
  import opened StakingBase
  import opened StakingBooks
  import opened StakingMoves
  import opened StakingEffects
  import opened StakingRuns
  import opened StakingExact
  import opened Slashing

  const CFG := Config(1, 1, 1, 1, 0, 0)
  const IDS: Owners := map[1 := 1]
  const ENV := Env(1000, true, true, true, true)

  /** Nothing was delivered of what was committed to pool 7, and a tenth of the stake is slashed for it. */
  const MISSED := PoolReport(7, 1, 0, 0, QUINTILL)
  const TENTH: nat := 100_000_000_000_000_000
  const RAISE: nat := 100_000_000_000_000_000_000_000_000_000

  const BEGUN := NO_BOOKS.(block := 1, epoch := 1)

  function Of(own: nat, weights: Memory<Weights>, delegTotal: nat, slashPerWeight: nat, last: nat): Commitment {
    Commitment(Some(NewStake(own, 1, 1)), 0, delegTotal, weights, Memory(None, 1, PoolReward(0, slashPerWeight)), last)
  }

  const TEN := Delegation(NewStake(10, 1, 1), 10, 10, 0, 0)

  const STAKED := BEGUN.(commitments := map[1 := Of(10, Memory(None, 1, Weights(10, 10, 0, 0)), 0, 0, 0)],
                         totalStake := 10, locks := map[1 := 10])

  const JOINED := BEGUN.(commitments := map[1 := Of(10, Memory(None, 1, Weights(10, 10, 10, 10)), 10, 0, 0)],
                         delegations := map[(2, 1) := TEN], delegatorTotal := map[2 := 10],
                         totalStake := 20, locks := map[1 := 10, 2 := 10])

  const LATE := JOINED.(block := 2, epoch := 2)

  lemma {:induction false} UnitWeight(amount: nat)
    ensures Weight(CFG, amount, 1) == amount
  {
  }

  lemma {:induction false} Stakes()
    ensures Next(CFG, IDS, BEGUN, Call.Stake(1, 10, 1, 0), ENV) == STAKED
  {
    UnitWeight(10);
    hide Weight;
    var b := AfterStake(CFG, IDS, BEGUN, 1, 10, 1, 0);
    assert b.commitments == STAKED.commitments && b.locks == STAKED.locks;
  }

  lemma {:induction false} JoinsAsTen()
    ensures Joined(CFG, 10, 1, 1, NO_REWARDS) == TEN
  {
    UnitWeight(10);
    hide Weight;
  }

  lemma {:induction false} JoinWeights()
    ensures Rebalanced(STAKED.commitments[1], None, Some(TEN), 1) == Memory(None, 1, Weights(10, 10, 10, 10))
  {
  }

  lemma {:induction false} JoinMaps(d: Delegation)
    ensures STAKED.delegations[(2, 1) := d] == map[(2, 1) := d] && STAKED.delegatorTotal[2 := 10] == map[2 := 10]
    ensures STAKED.locks[2 := 10] == map[1 := 10, 2 := 10]
    ensures Get(STAKED.delegatorTotal, 2) == 0 && OwnStake(IDS, STAKED.commitments, 2) == 0
  {
  }

  lemma {:induction false} JoinEffect()
    ensures AfterJoin(CFG, IDS, STAKED, 2, 1, 10, 1) == JOINED
  {
    hide Joined, Weight, CeilShare, FloorShare, Rebalanced, Get, OwnStake;
    JoinsAsTen();
    JoinWeights();
    JoinMaps(TEN);
    assert STAKED.commitments[1 := JOINED.commitments[1]] == JOINED.commitments;
  }

  lemma {:induction false} Joins()
    ensures Next(CFG, IDS, STAKED, Delegate(2, 1, 10, 1), ENV) == JOINED
  {
    JoinEffect();
    hide AfterJoin;
    assert CanDelegate(CFG, IDS, STAKED, 2, 1, 10, 1, ENV);
  }

  /** One epoch is missed, for which a tenth of 20 is slashed. */
  lemma {:induction false} Demand()
    ensures SlashTotal([MISSED], 20, TENTH, 1, 0) == 2
  {
    var ps := [MISSED];
    assert ps[..0] == [];
    assert SlashTotal([], 20, TENTH, 1, 0) == 0;
    assert MulFloor(TENTH, 20) == 2 && MulFloor(QUINTILL, 2) == 2 && Fraction(1, 1) == QUINTILL;
    hide MulFloor, Fraction;
    assert PoolSlash(MISSED, 20, TENTH, 1, 0) == 2;
  }

  lemma {:induction false} Split()
    ensures SlashBites(LATE, 1) && SlashDemand(LATE, 1, [MISSED], TENTH) == 2
    ensures SlashSplit(LATE, 1, [MISSED], TENTH) == SlashShares(1, 1, RAISE)
  {
    Demand();
    hide SlashTotal;
    assert WeightsAt(LATE.commitments[1], 1) == Weights(10, 10, 10, 10);
    assert PerWeight(1, 10) == RAISE;
  }

  /** What the slash leaves: 9 of the committer's 10, and the delegator's part raised on the pool. */
  ghost predicate Raised(b: Books) {
    && b.delegations == LATE.delegations && b.delegatorTotal == LATE.delegatorTotal && b.totalStake == 19
    && Staked(b, 1) && b.commitments[1].stake.value.amount == 9
    && b.commitments[1].pool == Memory(None, 1, PoolReward(0, RAISE))
  }

  lemma {:induction false} Slashes()
    ensures Raised(Next(CFG, IDS, LATE, Call.Slash(1, [MISSED], TENTH), ENV))
  {
    Split();
    hide SlashDemand, SlashSplit, SlashBites, SelfWeighed, Get;
    assert Get(LATE.delegatorTotal, 1) == 0 by { NoTotal(); }
    SelfKeeps(LATE.commitments[1].(stake := Some(Resized(CFG, NewStake(10, 1, 1), 9))), 2);
  }

  lemma {:induction false} SelfKeeps(c: Commitment, epoch: nat)
    requires c.stake.Some?
    ensures SelfWeighed(CFG, c, epoch).stake == c.stake && SelfWeighed(CFG, c, epoch).pool == c.pool
  {
    hide Weight;
  }

  lemma {:induction false} NoTotal()
    ensures Get(LATE.delegatorTotal, 1) == 0
  {
  }

  lemma {:induction false} MayApply(b: Books)
    requires Raised(b)
    ensures CanApplySlash(IDS, b, 2, 1, ENV)
  {
    assert OwnStake(IDS, b.commitments, 2) == 0;
    hide AccruedIn, OwnStake;
    var b1 := AfterAccrue(b, 2, 1);
    AccrualKeepsAmount(TEN, b.commitments[1].pool);
    assert b1.delegations[(2, 1)].stake.amount == 10;
    assert Get(b1.delegatorTotal, 2) == 10;
  }

  /** The slash is accrued and taken from the delegator's stake. */
  lemma {:induction false} Reaches(b: Books)
    requires Raised(b) && Sound(CFG, IDS, b)
    ensures var b' := Next(CFG, IDS, b, ApplySlash(2, 1), ENV);
      (2, 1) in b'.delegations && b'.delegations[(2, 1)].stake.amount == 9 && b'.totalStake == 18
  {
    hide Sound, AfterApplySlash, CanApplySlash;
    MayApply(b);
    var due := SlashReaches(CFG, IDS, b, 2, 1, ENV);
    assert 10 * RAISE == PER_TOKEN;
    assert due == 1;
    assert Next(CFG, IDS, b, ApplySlash(2, 1), ENV) == AfterApplySlash(CFG, IDS, b, 2, 1, ENV);
  }

  lemma {:induction false} RunStep(b: Books, call: Call, calls: seq<(Call, Env)>)
    ensures Run(CFG, IDS, b, [(call, ENV)] + calls) == Run(CFG, IDS, Next(CFG, IDS, b, call, ENV), calls)
  {
    hide Next;
    var all := [(call, ENV)] + calls;
    assert all[0] == (call, ENV) && all[1..] == calls;
  }

  lemma {:induction false} RunNone(b: Books)
    ensures Run(CFG, IDS, b, []) == b
  {
  }

  lemma {:induction false} Passes()
    ensures Next(CFG, IDS, NO_BOOKS, Pass(1, 1), ENV) == BEGUN && Next(CFG, IDS, JOINED, Pass(1, 1), ENV) == LATE
  {
  }

  lemma {:induction false} ToSlash(rest: seq<(Call, Env)>)
    ensures Run(CFG, IDS, NO_BOOKS,
                [(Pass(1, 1), ENV)] + ([(Call.Stake(1, 10, 1, 0), ENV)] + ([(Delegate(2, 1, 10, 1), ENV)]
                + ([(Pass(1, 1), ENV)] + ([(Call.Slash(1, [MISSED], TENTH), ENV)] + rest)))))
         == Run(CFG, IDS, Next(CFG, IDS, LATE, Call.Slash(1, [MISSED], TENTH), ENV), rest)
  {
    hide Run, Next, BEGUN, STAKED, JOINED, LATE;
    var c4 := [(Call.Slash(1, [MISSED], TENTH), ENV)] + rest;
    var c3 := [(Pass(1, 1), ENV)] + c4;
    var c2 := [(Delegate(2, 1, 10, 1), ENV)] + c3;
    var c1 := [(Call.Stake(1, 10, 1, 0), ENV)] + c2;
    Passes();
    Stakes();
    Joins();
    RunStep(NO_BOOKS, Pass(1, 1), c1);
    RunStep(BEGUN, Call.Stake(1, 10, 1, 0), c2);
    RunStep(STAKED, Delegate(2, 1, 10, 1), c3);
    RunStep(JOINED, Pass(1, 1), c4);
    RunStep(LATE, Call.Slash(1, [MISSED], TENTH), rest);
  }

  lemma {:induction false} Setting()
    ensures CFG.Valid() && Distinct(IDS)
  {
  }

  /** Of 10 staked and 10 delegated a tenth is slashed: the committer keeps 9, and so does the delegator. */
  lemma {:induction false} SlashReachesDelegator() returns (calls: seq<(Call, Env)>)
    ensures var b := Run(CFG, IDS, NO_BOOKS, calls);
      && |calls| == 6 && calls[4].0.Slash? && calls[5].0 == ApplySlash(2, 1)
      && (2, 1) in b.delegations && b.delegations[(2, 1)].stake.amount == 9 && b.totalStake == 18
  {
    hide Run, Next, Sound, LATE;
    var slash, apply := Call.Slash(1, [MISSED], TENTH), ApplySlash(2, 1);
    var rest: seq<(Call, Env)> := [(apply, ENV)] + [];
    calls := [(Pass(1, 1), ENV)] + ([(Call.Stake(1, 10, 1, 0), ENV)] + ([(Delegate(2, 1, 10, 1), ENV)]
             + ([(Pass(1, 1), ENV)] + ([(slash, ENV)] + rest))));
    var none: seq<(Call, Env)> := [];
    var before := [(Pass(1, 1), ENV)] + ([(Call.Stake(1, 10, 1, 0), ENV)] + ([(Delegate(2, 1, 10, 1), ENV)]
                  + ([(Pass(1, 1), ENV)] + ([(slash, ENV)] + none))));
    Setting();
    EmptySound(CFG, IDS);
    RunSound(CFG, IDS, NO_BOOKS, before);
    ToSlash(none);
    ToSlash(rest);
    var b := Next(CFG, IDS, LATE, slash, ENV);
    RunNone(b);
    Slashes();
    Reaches(b);
    RunStep(b, apply, none);
    RunNone(Next(CFG, IDS, b, apply, ENV));
  }

  // ----- a slash during the cooldown -----

  /** The committer's cooldown has begun, in which nothing is rewardable. */
  const COOLING := Of(10, Memory(Some((1, Weights(10, 10, 10, 10))), 2, Weights(0, 10, 10, 10)), 10, 0, 0).(
    stake := Some(NewStake(10, 1, 1).(cooldown := Some(2), rewardable := 0)))

  const COOLED := LATE.(commitments := map[1 := COOLING])

  lemma {:induction false} Cools()
    ensures Next(CFG, IDS, LATE, CoolCommitter(1), ENV) == COOLED
  {
    UnitWeight(0);
    assert MulFloor(0, 10) == 0;
    hide Weight, MulFloor;
    assert AfterCommitterCooldown(CFG, LATE, 1).commitments == COOLED.commitments;
  }

  lemma {:induction false} CooledSplit()
    ensures SlashBites(COOLED, 1) && SlashDemand(COOLED, 1, [MISSED], TENTH) == 2
    ensures SlashSplit(COOLED, 1, [MISSED], TENTH) == SlashShares(1, 1, RAISE)
  {
    Demand();
    hide SlashTotal;
    assert WeightsAt(COOLED.commitments[1], 1) == Weights(10, 10, 10, 10);
    assert PerWeight(1, 10) == RAISE;
  }

  lemma {:induction false} SlashesCooled()
    ensures var b := Next(CFG, IDS, COOLED, Call.Slash(1, [MISSED], TENTH), ENV);
      Staked(b, 1) && b.commitments[1].stake.value.amount == 9 && b.commitments[1].weights.value.selfSlash == 0
  {
    CooledSplit();
    UnitWeight(0);
    assert MulFloor(0, 9) == 0;
    hide SlashDemand, SlashSplit, SlashBites, Get, Weight, MulFloor;
    assert Get(COOLED.delegatorTotal, 1) == 0 by { NoCooledTotal(); }
  }

  lemma {:induction false} NoCooledTotal()
    ensures Get(COOLED.delegatorTotal, 1) == 0
  {
  }

  /** A slash during the cooldown leaves the committer 9 at stake, and no slash weight. */
  lemma {:induction false} SlashWeightLost() returns (calls: seq<(Call, Env)>)
    ensures var b := Run(CFG, IDS, NO_BOOKS, calls);
      Staked(b, 1) && b.commitments[1].stake.value.amount == 9 && b.commitments[1].weights.value.selfSlash == 0
    ensures Weight(CFG, 9, 1) == 9
  {
    UnitWeight(9);
    hide Run, Next, BEGUN, STAKED, JOINED, LATE, COOLED, Weight;
    var slash := Call.Slash(1, [MISSED], TENTH);
    var c5: seq<(Call, Env)> := [(slash, ENV)] + [];
    var c4 := [(CoolCommitter(1), ENV)] + c5;
    var c3 := [(Pass(1, 1), ENV)] + c4;
    var c2 := [(Delegate(2, 1, 10, 1), ENV)] + c3;
    var c1 := [(Call.Stake(1, 10, 1, 0), ENV)] + c2;
    calls := [(Pass(1, 1), ENV)] + c1;
    Passes();
    Stakes();
    Joins();
    Cools();
    SlashesCooled();
    RunStep(NO_BOOKS, Pass(1, 1), c1);
    RunStep(BEGUN, Call.Stake(1, 10, 1, 0), c2);
    RunStep(STAKED, Delegate(2, 1, 10, 1), c3);
    RunStep(JOINED, Pass(1, 1), c4);
    RunStep(LATE, CoolCommitter(1), c5);
    RunStep(COOLED, slash, []);
    RunNone(Next(CFG, IDS, COOLED, slash, ENV));
  }
}
