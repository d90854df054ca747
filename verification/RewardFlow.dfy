/**
 * Where the budgets for staked compute go: the shares commitments take from them are what committers
 * and delegators are credited with. The ledger of budgets and the books of stakes advance together.
 */
module RewardFlow {
  import opened StakingBase
  import opened MapSums
  import opened StakingBooks
  import opened StakingEffects
  import opened StakingRuns
  import opened StakingTheorems
  import opened StakedRewards
  import E = EpochBudget

  /**
   * `current` and `previous` are the budgets of this epoch and the last, `earlier` those before in
   * all, and `taken` what was taken out of them. `credited` and `bonuses` are what committers got,
   * and `withdrawn` what they were paid of their credits.
   */
  datatype Flow = Flow(l: E.Ledger, b: Books, current: map<E.PoolId, nat>, previous: map<E.PoolId, nat>, earlier: nat,
                       taken: nat, credited: map<CommitmentId, nat>, bonuses: nat, withdrawn: nat)

  const NO_FLOW := Flow(E.NO_LEDGER, NO_BOOKS, map[], map[], 0, 0, map[], 0, 0)

  datatype Step =
    | NewEpoch(totals: map<E.PoolId, nat>, blocks: nat)
    | Reward(cid: CommitmentId, ps: seq<E.PoolId>, ss: seq<(E.PoolId, E.Score)>, env: Env)
    | Other(call: Call, env: Env)

  /** Commitments distribute to pools once, score them once, and other calls neither distribute nor begin an epoch. */
  predicate WellFormed(step: Step) {
    match step
    case NewEpoch(_, _) => true
    case Reward(_, ps, ss, _) => E.Once(ps) && E.Scoring(ss)
    case Other(call, _) => !call.Distribute? && (call.Pass? ==> call.epochs == 0)
  }

  /** Whether a commitment has its turn and takes part in the distribution. */
  predicate Takes(f: Flow, cid: CommitmentId) {
    && Amount(f.l.lastScoring, cid) < f.l.epoch && Staked(f.b, cid)
    && !Weightless(WeightsAt(f.b.commitments[cid], f.l.epoch - 1))
  }

  /** A commission, a part of a billion, is at most the whole. */
  function Commission(f: Flow, cid: CommitmentId): nat
    requires cid in f.b.commitments
  {
    Min(f.b.commitments[cid].commission, BILLION)
  }

  function PaidTo(f: Flow, cid: CommitmentId, ps: seq<E.PoolId>): Payout
    requires Takes(f, cid)
  {
    PayoutOf(f.l, cid, WeightsAt(f.b.commitments[cid], f.l.epoch - 1), Commission(f, cid), ps)
  }

  ghost function Next(cfg: Config, ids: Owners, f: Flow, step: Step): Flow
    requires cfg.Valid()
  {
    match step
    case NewEpoch(totals, blocks) =>
      f.(l := E.Opened(f.l, totals), b := f.b.(block := f.b.block + blocks, epoch := f.b.epoch + 1),
         current := totals, previous := f.current, earlier := f.earlier + Total(f.previous),
         taken := f.taken + Total(f.l.charged))
    case Reward(cid, ps, ss, env) =>
      if !Takes(f, cid) then f.(l := E.Turn(f.l, cid, false, ps, ss))
      else
        var pay := PaidTo(f, cid, ps);
        f.(l := E.Turn(f.l, cid, true, ps, ss),
           b := StakingRuns.Next(cfg, ids, f.b, Distribute(cid, pay.self, pay.delegations, f.l.epoch - 1), env),
           credited := f.credited[cid := Amount(f.credited, cid) + pay.self], bonuses := f.bonuses + pay.bonus)
    case Other(call, env) =>
      f.(b := StakingRuns.Next(cfg, ids, f.b, call, env),
         withdrawn := f.withdrawn + Withdrawal(cfg, ids, f.b, call, env))
  }

  /** What a call pays a committer. */
  function Withdrawal(cfg: Config, ids: Owners, b: Books, call: Call, env: Env): nat
    requires cfg.Valid()
  {
    if PaysCommitter(call) && Succeeds(cfg, ids, b, call, env) && call.who in ids
    then CommitterAccrued(b, ids[call.who]) else 0
  }

  ghost function Run(cfg: Config, ids: Owners, f: Flow, steps: seq<Step>): Flow
    requires cfg.Valid()
    decreases |steps|
  {
    if steps == [] then f else Run(cfg, ids, Next(cfg, ids, f, steps[0]), steps[1..])
  }

  predicate AllWellFormed(steps: seq<Step>) {
    steps == [] || (WellFormed(steps[0]) && AllWellFormed(steps[1..]))
  }

  // ----- what holds in every reachable state -----

  /** What delegators and committers were credited with, and what was taken from all budgets. */
  ghost function GivenOut(f: Flow): nat {
    Total(f.b.distributed) + Total(f.credited) + f.bonuses
  }

  /** What each committer has accrued. */
  function AllAccrued(b: Books): map<CommitmentId, nat> {
    map c | c in b.commitments :: CommitterAccrued(b, c)
  }

  ghost function TakenInAll(f: Flow): nat {
    f.taken + Total(f.l.charged)
  }

  ghost predicate Budgeted(l: E.Ledger, current: map<E.PoolId, nat>, previous: map<E.PoolId, nat>) {
    forall p ::
      && E.BudgetAt(l, p, l.epoch).total == Amount(current, p)
      && (l.epoch > 0 ==> E.BudgetAt(l, p, l.epoch - 1).total == Amount(previous, p))
  }

  ghost predicate Flowing(f: Flow) {
    && E.Good(f.l) && f.b.epoch == f.l.epoch && Budgeted(f.l, f.current, f.previous)
    && GivenOut(f) == TakenInAll(f) && f.taken <= f.earlier
    && Total(AllAccrued(f.b)) + f.withdrawn == Total(f.credited)
    && (f.l.epoch == 0 ==> f.l.charged == map[] && f.taken == 0)
  }

  // ----- shares -----

  lemma {:induction false} TakenTotal(l: E.Ledger, c: CommitmentId, p: E.PoolId)
    requires l.epoch > 0
    ensures Total(E.Taken(l, c, p).charged)
         == Total(l.charged) + E.Share(E.ScoreAt(l, c, p, l.epoch - 1), E.BudgetAt(l, p, l.epoch - 1))
  {
    hide Total, E.Share, E.BudgetAt, E.ScoreAt, E.Pays, E.Reward, E.BudgetsOf;
    var l' := E.Taken(l, c, p);
    if E.Pays(E.BudgetAt(l, p, l.epoch - 1)) {
      assert l'.charged - {p} == l.charged - {p};
      TotalChange(l.charged, l'.charged, p);
    } else {
      NoShare(l, c, p);
    }
  }

  /** The shares taken are what is charged. */
  lemma {:induction false} TakenAllTotal(l: E.Ledger, c: CommitmentId, ps: seq<E.PoolId>, i: nat)
    requires l.epoch > 0 && E.InTime(l) && E.Once(ps) && i <= |ps|
    ensures Total(E.TakenAll(l, c, ps[..i]).charged) == Total(l.charged) + SharesOf(l, c, ps[..i])
    decreases i
  {
    hide Total, E.TakenAll, E.Taken, E.Share, E.BudgetAt, E.ScoreAt, SharesOf, E.InTime;
    if i == 0 {
      TakenNothing(l, c);
      assert ps[..0] == [];
    } else {
      TakenAllTotal(l, c, ps, i - 1);
      StillToTake(l, c, ps, i - 1);
      assert ps[..i - 1] + [ps[i - 1]] == ps[..i];
      TakenAppend(l, c, ps[..i - 1], ps[i - 1]);
      TakenTotal(E.TakenAll(l, c, ps[..i - 1]), c, ps[i - 1]);
      SharesAppend(l, c, ps, i - 1);
    }
  }

  lemma {:induction false} ScoredBudgets(l: E.Ledger, c: CommitmentId, ss: seq<(E.PoolId, E.Score)>, p: E.PoolId)
    requires l.epoch > 0 && forall q :: q in l.budgets ==> l.budgets[q].epoch <= l.epoch
    ensures var l' := E.ScoredAll(l, c, ss);
      && l'.charged == l.charged && l'.epoch == l.epoch
      && E.BudgetAt(l', p, l.epoch).total == E.BudgetAt(l, p, l.epoch).total
      && E.BudgetAt(l', p, l.epoch - 1).total == E.BudgetAt(l, p, l.epoch - 1).total
    decreases |ss|
  {
    hide E.ScoresOf;
    if ss != [] {
      ScoredBudgets(E.Scored(l, c, ss[0].0, ss[0].1), c, ss[1..], p);
    }
  }

  lemma {:induction false} TurnFlow(l: E.Ledger, c: CommitmentId, takes: bool, ps: seq<E.PoolId>,
                                    ss: seq<(E.PoolId, E.Score)>, p: E.PoolId)
    requires E.Good(l) && E.Once(ps) && E.Scoring(ss)
    ensures var l' := E.Turn(l, c, takes, ps, ss);
      && l'.epoch == l.epoch
      && E.BudgetAt(l', p, l.epoch).total == E.BudgetAt(l, p, l.epoch).total
      && (l.epoch > 0 ==> E.BudgetAt(l', p, l.epoch - 1).total == E.BudgetAt(l, p, l.epoch - 1).total)
      && Total(l'.charged) == Total(l.charged)
         + if takes && Amount(l.lastScoring, c) < l.epoch then SharesOf(l, c, ps) else 0
  {
    hide Total, E.Good, E.TakenAll, E.ScoredAll, SharesOf, E.BudgetAt, E.InTime;
    E.GoodInTime(l);
    if Amount(l.lastScoring, c) < l.epoch {
      E.TakenShares(l, c, ps, p);
      TakenAllTotal(l, c, ps, |ps|);
      assert ps[..|ps|] == ps;
      var l1 := if takes then E.TakenAll(l, c, ps) else l;
      BudgetsInTime(l);
      MarkedBudgets(l1, c, p);
      ScoredBudgets(E.Marked(l1, c), c, ss, p);
    }
  }

  lemma {:induction false} BudgetsInTime(l: E.Ledger)
    requires E.InTime(l)
    ensures forall q :: q in l.budgets ==> l.budgets[q].epoch <= l.epoch
  {
  }

  lemma {:induction false} MarkedBudgets(l: E.Ledger, c: CommitmentId, p: E.PoolId)
    ensures var l' := E.Marked(l, c);
      && l'.charged == l.charged && l'.budgets == l.budgets && l'.epoch == l.epoch
      && forall e :: E.BudgetAt(l', p, e) == E.BudgetAt(l, p, e)
  {
  }

  // ----- the books -----

  /** Only distributions count as such, and only time passing moves the epoch. */
  lemma {:induction false} OthersKeep(cfg: Config, ids: Owners, b: Books, call: Call, env: Env)
    requires cfg.Valid() && !call.Distribute? && (call.Pass? ==> call.epochs == 0)
    ensures var b' := StakingRuns.Next(cfg, ids, b, call, env);
      b'.distributed == b.distributed && b'.epoch == b.epoch
  {
    StepKeeps(cfg, ids, b, call, env, 0);
    if call.Pass? {
      PassNext(cfg, ids, b, call, env);
    }
    hide StakingRuns.Next;
  }

  lemma {:induction false} PassNext(cfg: Config, ids: Owners, b: Books, call: Call, env: Env)
    requires cfg.Valid() && call.Pass?
    ensures StakingRuns.Next(cfg, ids, b, call, env).epoch == b.epoch + call.epochs
  {
  }

  /** A distribution credits the committer and the delegators with what it is given. */
  lemma {:induction false} DistributeKeeps(cfg: Config, ids: Owners, b: Books, cid: CommitmentId, selfAmount: nat,
                                           reward: nat, lastEpoch: nat, env: Env)
    requires cfg.Valid() && Staked(b, cid)
    ensures var b' := StakingRuns.Next(cfg, ids, b, Distribute(cid, selfAmount, reward, lastEpoch), env);
      && Staked(b', cid) && b'.epoch == b.epoch
      && b'.commitments[cid].stake.value.accruedReward == b.commitments[cid].stake.value.accruedReward + selfAmount
      && Total(b'.distributed) == Total(b.distributed) + reward
      && Total(AllAccrued(b')) == Total(AllAccrued(b)) + selfAmount
  {
    hide Total, Raise, WeightsAt, RaisedBoth;
    var b' := StakingRuns.Next(cfg, ids, b, Distribute(cid, selfAmount, reward, lastEpoch), env);
    assert b'.distributed - {cid} == b.distributed - {cid};
    TotalChange(b.distributed, b'.distributed, cid);
    assert AllAccrued(b') - {cid} == AllAccrued(b) - {cid};
    TotalChange(AllAccrued(b), AllAccrued(b'), cid);
  }

  lemma {:induction false} SameTotal(m: map<CommitmentId, nat>, m': map<CommitmentId, nat>)
    requires forall c :: Amount(m, c) == Amount(m', c)
    ensures Total(m) == Total(m')
  {
    hide Total;
    assert forall c :: c in m ==> m[c] == Amount(m, c);
    assert forall c :: c in m' ==> m'[c] == Amount(m', c);
    TotalBelow(m, m');
    TotalBelow(m', m);
  }

  lemma {:induction false} AccruedAmount(b: Books, c: CommitmentId)
    ensures Amount(AllAccrued(b), c) == CommitterAccrued(b, c)
  {
  }

  lemma {:induction false} CommitterPaid(cfg: Config, ids: Owners, b: Books, call: Call, env: Env, c: CommitmentId)
    requires cfg.Valid() && PaysCommitter(call) && Succeeds(cfg, ids, b, call, env)
    ensures call.who in ids && ids[call.who] in b.commitments
    ensures var b' := StakingRuns.Next(cfg, ids, b, call, env);
      && b'.commitments.Keys == b.commitments.Keys
      && CommitterAccrued(b', c) == if c == ids[call.who] then 0 else CommitterAccrued(b, c)
  {
    hide Unlocked, Get;
  }

  /** What committers have accrued goes down by what a call pays them. */
  lemma {:induction false} OthersPay(cfg: Config, ids: Owners, b: Books, call: Call, env: Env)
    requires cfg.Valid() && !call.Distribute?
    ensures Total(AllAccrued(StakingRuns.Next(cfg, ids, b, call, env))) + Withdrawal(cfg, ids, b, call, env)
         == Total(AllAccrued(b))
  {
    var b' := StakingRuns.Next(cfg, ids, b, call, env);
    if PaysCommitter(call) && Succeeds(cfg, ids, b, call, env) {
      CommitterPaid(cfg, ids, b, call, env, 0);
      PaidTotal(cfg, ids, b, call, env);
    } else {
      assert !Succeeds(cfg, ids, b, call, env) ==> b' == b;
      forall c
        ensures Amount(AllAccrued(b'), c) == Amount(AllAccrued(b), c)
      {
        AccruedAmount(b, c);
        AccruedAmount(b', c);
        StepKeeps(cfg, ids, b, call, env, c);
      }
      SameTotal(AllAccrued(b), AllAccrued(b'));
    }
    hide StakingRuns.Next, Succeeds, Total, AllAccrued, CommitterAccrued, LastSlashing;
  }

  lemma {:induction false} PaidTotal(cfg: Config, ids: Owners, b: Books, call: Call, env: Env)
    requires cfg.Valid() && PaysCommitter(call) && Succeeds(cfg, ids, b, call, env) && call.who in ids
    ensures Total(AllAccrued(StakingRuns.Next(cfg, ids, b, call, env))) + CommitterAccrued(b, ids[call.who])
         == Total(AllAccrued(b))
  {
    hide StakingRuns.Next, Succeeds, Total, CommitterAccrued;
    var b', k := StakingRuns.Next(cfg, ids, b, call, env), ids[call.who];
    forall c
      ensures CommitterAccrued(b', c) == if c == k then 0 else CommitterAccrued(b, c)
    {
      CommitterPaid(cfg, ids, b, call, env, c);
    }
    CommitterPaid(cfg, ids, b, call, env, k);
    var m, m' := AllAccrued(b), AllAccrued(b');
    assert m' - {k} == m - {k};
    TotalChange(m, m', k);
  }

  // ----- steps -----

  lemma {:induction false} OpenedFlow(cfg: Config, ids: Owners, f: Flow, totals: map<E.PoolId, nat>, blocks: nat)
    requires cfg.Valid() && Flowing(f)
    ensures Flowing(Next(cfg, ids, f, NewEpoch(totals, blocks)))
  {
    var f' := Next(cfg, ids, f, NewEpoch(totals, blocks));
    E.OpenedGood(f.l, totals);
    E.GoodInTime(f.l);
    ChargedWithin(f);
    NothingCharged();
    assert AllAccrued(f'.b) == AllAccrued(f.b);
    hide E.Good, Total, E.InTime, AllAccrued;
    forall p
      ensures && E.BudgetAt(f'.l, p, f'.l.epoch).total == Amount(f'.current, p)
              && E.BudgetAt(f'.l, p, f'.l.epoch - 1).total == Amount(f'.previous, p)
    {
      E.OpenedBudgets(f.l, totals, p);
    }
  }

  lemma {:induction false} NothingCharged()
    ensures Total<E.PoolId>(map[]) == 0
  {
  }

  /** What was charged to the budgets of the last epoch is within them. */
  lemma {:induction false} ChargedWithin(f: Flow)
    requires Flowing(f)
    ensures Total(f.l.charged) <= Total(f.previous)
  {
    hide E.Good, E.BudgetAt;
    if f.l.epoch == 0 {
      NothingCharged();
    } else {
      forall p | p in f.l.charged
        ensures f.l.charged[p] <= Amount(f.previous, p)
      {
        E.WithinBudget(f.l, p);
      }
      TotalBelow(f.l.charged, f.previous);
    }
  }

  lemma {:induction false} CreditedMore(credited: map<CommitmentId, nat>, cid: CommitmentId, amount: nat)
    ensures Total(credited[cid := Amount(credited, cid) + amount]) == Total(credited) + amount
  {
    hide Total;
    var credited' := credited[cid := Amount(credited, cid) + amount];
    assert credited' - {cid} == credited - {cid};
    TotalChange(credited, credited', cid);
  }

  lemma {:induction false} RewardFlowing(cfg: Config, ids: Owners, f: Flow, cid: CommitmentId, ps: seq<E.PoolId>,
                                         ss: seq<(E.PoolId, E.Score)>, env: Env)
    requires cfg.Valid() && Flowing(f) && E.Once(ps) && E.Scoring(ss)
    ensures Flowing(Next(cfg, ids, f, Reward(cid, ps, ss, env)))
  {
    hide E.Good, Total, E.Turn, Budgeted, SharesOf, Takes, PaidTo, StakingRuns.Next, AllAccrued;
    var takes := Takes(f, cid);
    E.TurnGood(f.l, cid, takes, ps, ss);
    TurnBudgeted(f, cid, takes, ps, ss);
    TurnFlow(f.l, cid, takes, ps, ss, 0);
    TakesInTime(f, cid);
    if takes {
      PaidInFull(f, cid, ps);
      var pay := PaidTo(f, cid, ps);
      DistributeKeeps(cfg, ids, f.b, cid, pay.self, pay.delegations, f.l.epoch - 1, env);
      CreditedMore(f.credited, cid, pay.self);
    }
    if f.l.epoch == 0 {
      TurnIdle(f.l, cid, takes, ps, ss);
    }
  }

  lemma {:induction false} TakesInTime(f: Flow, cid: CommitmentId)
    ensures Takes(f, cid) ==> Amount(f.l.lastScoring, cid) < f.l.epoch && Staked(f.b, cid)
  {
    hide Weightless;
  }

  lemma {:induction false} PaidInFull(f: Flow, cid: CommitmentId, ps: seq<E.PoolId>)
    requires Takes(f, cid)
    ensures var pay := PaidTo(f, cid, ps);
      pay.self + pay.delegations + pay.bonus == SharesOf(f.l, cid, ps)
  {
    hide WeightsAt, PayoutOf, SharesOf;
    PayoutExact(f.l, cid, WeightsAt(f.b.commitments[cid], f.l.epoch - 1), Commission(f, cid), ps);
  }

  lemma {:induction false} TurnBudgeted(f: Flow, cid: CommitmentId, takes: bool, ps: seq<E.PoolId>,
                                        ss: seq<(E.PoolId, E.Score)>)
    requires E.Good(f.l) && Budgeted(f.l, f.current, f.previous) && E.Once(ps) && E.Scoring(ss)
    ensures Budgeted(E.Turn(f.l, cid, takes, ps, ss), f.current, f.previous)
  {
    hide E.Good, Total, E.Turn, E.BudgetAt, SharesOf;
    var l' := E.Turn(f.l, cid, takes, ps, ss);
    forall p
      ensures && E.BudgetAt(l', p, l'.epoch).total == Amount(f.current, p)
              && (l'.epoch > 0 ==> E.BudgetAt(l', p, l'.epoch - 1).total == Amount(f.previous, p))
    {
      TurnFlow(f.l, cid, takes, ps, ss, p);
    }
  }

  lemma {:induction false} TurnIdle(l: E.Ledger, c: CommitmentId, takes: bool, ps: seq<E.PoolId>,
                                    ss: seq<(E.PoolId, E.Score)>)
    requires l.epoch == 0
    ensures E.Turn(l, c, takes, ps, ss) == l
  {
  }

  lemma {:induction false} NextFlowing(cfg: Config, ids: Owners, f: Flow, step: Step)
    requires cfg.Valid() && Flowing(f) && WellFormed(step)
    ensures Flowing(Next(cfg, ids, f, step))
  {
    match step
    case NewEpoch(totals, blocks) => OpenedFlow(cfg, ids, f, totals, blocks);
    case Reward(cid, ps, ss, env) => RewardFlowing(cfg, ids, f, cid, ps, ss, env);
    case Other(call, env) =>
      hide E.Good, Total, StakingRuns.Next, Budgeted, AllAccrued, Withdrawal;
      OthersKeep(cfg, ids, f.b, call, env);
      OthersPay(cfg, ids, f.b, call, env);
  }

  lemma {:induction false} RunFlowing(cfg: Config, ids: Owners, f: Flow, steps: seq<Step>)
    requires cfg.Valid() && Flowing(f) && AllWellFormed(steps)
    ensures Flowing(Run(cfg, ids, f, steps))
    decreases |steps|
  {
    hide Flowing, Next, WellFormed;
    if steps != [] {
      NextFlowing(cfg, ids, f, steps[0]);
      RunFlowing(cfg, ids, Next(cfg, ids, f, steps[0]), steps[1..]);
    }
  }

  lemma {:induction false} NothingAccrued(b: Books)
    requires b.commitments == map[]
    ensures Total(AllAccrued(b)) == 0
  {
    hide Total, CommitterAccrued;
    TotalZero(AllAccrued(b));
  }

  lemma {:induction false} StartFlowing(f: Flow)
    requires E.Good(f.l) && f.b.epoch == f.l.epoch == 0 && Budgeted(f.l, f.current, f.previous)
    requires f.b.commitments == map[] && f.credited == map[] && f.b.distributed == map[] && f.l.charged == map[]
    requires f.taken == f.earlier == f.bonuses == f.withdrawn == 0
    ensures Flowing(f)
  {
    hide AllAccrued, Total, E.Good, Budgeted;
    NothingAccrued(f.b);
    TotalZero(f.b.distributed);
    TotalZero(f.credited);
    TotalZero(f.l.charged);
  }

  lemma {:induction false} EmptyFlowing()
    ensures Flowing(NO_FLOW)
  {
    hide AllAccrued, Total, E.Good, Flowing;
    E.EmptyGood();
    StartFlowing(NO_FLOW);
  }

  /**
   * Over every run, what delegators were given, committers were credited with and paid as bonuses is
   * exactly what was taken from the budgets, and at most the budgets of the epochs that are over;
   * and what committers were credited with is what they have accrued and were paid.
   */
  lemma {:induction false} RewardsConserved(cfg: Config, ids: Owners, steps: seq<Step>)
    requires cfg.Valid() && AllWellFormed(steps)
    ensures var f := Run(cfg, ids, NO_FLOW, steps);
      && Total(f.b.distributed) + Total(f.credited) + f.bonuses == f.taken + Total(f.l.charged)
      && f.taken + Total(f.l.charged) <= f.earlier + Total(f.previous)
      && Total(AllAccrued(f.b)) + f.withdrawn == Total(f.credited)
  {
    hide Run, Total, E.Good, Budgeted, AllAccrued;
    EmptyFlowing();
    RunFlowing(cfg, ids, NO_FLOW, steps);
    ChargedWithin(Run(cfg, ids, NO_FLOW, steps));
  }
}
