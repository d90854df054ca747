/** A run in which a slash goes beyond the committer's stake, and the recorded total below the sum of stakes. */
module StakingOvershoot {
  import opened Wrappers
  import opened StakingBase
  import opened StakingSums
  import opened StakingBooks
  import opened StakingEffects
  import opened StakingRuns
  import opened StakingTheorems
  import opened Slashing

  const CFG := Config(1, 1, 1, 1, 0, 0)
  const IDS: Owners := map[1 := 1, 2 := 2]
  const ENV := Env(1000, true, true, true, true)

  /** Nothing was ever delivered of what was committed to pool 7, which has the whole slash ratio. */
  const MISSED := PoolReport(7, 1, 0, 0, QUINTILL)

  function Own(amount: nat): Commitment {
    Commitment(Some(NewStake(amount, 1, 1)), 0, 0, NewMemory(1, Weights(amount, amount, 0, 0)),
               NewMemory(1, NO_REWARDS), 0)
  }

  const BEGUN := NO_BOOKS.(block := 1, epoch := 1)

  /** Account 1 has staked 1. */
  const ONE := BEGUN.(commitments := map[1 := Own(1)], totalStake := 1, locks := map[1 := 1])

  /** Account 2 has staked 10. */
  const BOTH := BEGUN.(commitments := map[1 := Own(1), 2 := Own(10)], totalStake := 11, locks := map[1 := 1, 2 := 10])

  const LATER := BOTH.(block := 2, epoch := 5)

  lemma {:induction false} UnitWeight(amount: nat)
    ensures Weight(CFG, amount, 1) == amount
  {
  }

  lemma {:induction false} StakesOne()
    ensures Next(CFG, IDS, BEGUN, Call.Stake(1, 1, 1, 0), ENV) == ONE
  {
    UnitWeight(1);
    hide Weight;
    var b := AfterStake(CFG, IDS, BEGUN, 1, 1, 1, 0);
    assert b.commitments == ONE.commitments && b.locks == ONE.locks;
  }

  lemma {:induction false} StakesBoth()
    ensures Next(CFG, IDS, ONE, Call.Stake(2, 10, 1, 0), ENV) == BOTH
  {
    UnitWeight(10);
    hide Weight;
    var b := AfterStake(CFG, IDS, ONE, 2, 10, 1, 0);
    assert b.commitments == BOTH.commitments && b.locks == BOTH.locks;
  }

  /** Four epochs are missed, each worth the whole stake of 1. */
  lemma {:induction false} Demand()
    ensures SlashTotal([MISSED], 1, QUINTILL, 4, 0) == 4
  {
    var ps := [MISSED];
    assert ps[..0] == [];
    assert SlashTotal([], 1, QUINTILL, 4, 0) == 0;
    assert MulFloor(QUINTILL, 1) == 1 && Fraction(1, 1) == QUINTILL;
    hide MulFloor, Fraction;
    assert PoolSlash(MISSED, 1, QUINTILL, 4, 0) == 4;
  }

  lemma {:induction false} Split()
    ensures SlashBites(LATER, 1) && SlashDemand(LATER, 1, [MISSED], QUINTILL) == 4
    ensures SlashSplit(LATER, 1, [MISSED], QUINTILL).self == 4
  {
    Demand();
    hide SlashTotal;
    assert WeightsAt(LATER.commitments[1], 4) == Weights(1, 1, 0, 0);
  }

  lemma {:induction false} Slashes()
    ensures Succeeds(CFG, IDS, LATER, Call.Slash(1, [MISSED], QUINTILL), ENV)
    ensures !WithinStake(IDS, LATER, Call.Slash(1, [MISSED], QUINTILL))
    ensures var b := Next(CFG, IDS, LATER, Call.Slash(1, [MISSED], QUINTILL), ENV);
      b.totalStake == 7 && b.overshoot == 3
  {
    Split();
    hide SlashDemand, SlashSplit, SlashBites, SelfWeighed, RaisedBoth, Get;
    assert Get(LATER.delegatorTotal, 1) == 0 by { NoTotal(); }
  }

  lemma {:induction false} NoTotal()
    ensures Get(LATER.delegatorTotal, 1) == 0
  {
  }

  lemma {:induction false} RunStep(b: Books, call: Call, calls: seq<(Call, Env)>)
    ensures Run(CFG, IDS, b, [(call, ENV)] + calls) == Run(CFG, IDS, Next(CFG, IDS, b, call, ENV), calls)
  {
    hide Next;
    var all := [(call, ENV)] + calls;
    assert all[0] == (call, ENV) && all[1..] == calls;
  }

  lemma {:induction false} RunNone(b: Books)
    ensures Run(CFG, IDS, b, []) == b
  {
  }

  lemma {:induction false} Passes()
    ensures Next(CFG, IDS, NO_BOOKS, Pass(1, 1), ENV) == BEGUN && Next(CFG, IDS, BOTH, Pass(1, 4), ENV) == LATER
  {
  }

  /** A commitment of 1 is slashed by 4: 7 are recorded in total, and 10 are staked. */
  lemma {:induction false} SlashBeyondStake() returns (calls: seq<(Call, Env)>)
    ensures var b := Run(CFG, IDS, NO_BOOKS, calls);
      b.totalStake == 7 && b.overshoot == 3 && StakeSum(b.commitments) + Sum(b.delegations, AnyAmount) == 10
    ensures !AllWithinStake(CFG, IDS, NO_BOOKS, calls)
  {
    hide Run, Next, StakeSum, Sum, AllWithinStake, ONE, BOTH, LATER, BEGUN;
    var slash := Call.Slash(1, [MISSED], QUINTILL);
    var c4: seq<(Call, Env)> := [(slash, ENV)] + [];
    var c3 := [(Pass(1, 4), ENV)] + c4;
    var c2 := [(Call.Stake(2, 10, 1, 0), ENV)] + c3;
    var c1 := [(Call.Stake(1, 1, 1, 0), ENV)] + c2;
    calls := [(Pass(1, 1), ENV)] + c1;
    Passes();
    StakesOne();
    StakesBoth();
    Slashes();
    RunStep(NO_BOOKS, Pass(1, 1), c1);
    RunStep(BEGUN, Call.Stake(1, 1, 1, 0), c2);
    RunStep(ONE, Call.Stake(2, 10, 1, 0), c3);
    RunStep(BOTH, Pass(1, 4), c4);
    RunStep(LATER, slash, []);
    RunNone(Next(CFG, IDS, LATER, slash, ENV));
    RecordsAgree(CFG, IDS, calls, 0, 0);
    OvershootRun(CFG, IDS, NO_BOOKS, calls);
  }
}
