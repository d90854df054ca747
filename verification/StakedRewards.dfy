/** Scoring commitments and distributing the budgets of staked compute, pool by pool. */
module StakedRewards {
  import opened Wrappers
  import opened StakingBase
  import opened Arithmetic
  import opened MapSums
  import opened EpochBudget

  const FIXED: nat := 1_000_000_000_000_000_000
  const BILLION: nat := 1_000_000_000

  function Min(a: nat, b: nat): nat {
    if a < b then a else b
  }

  // ----- scores -----

  /** A pool's metrics of the last epoch, what was committed to it, and its target weight per compute. */
  datatype ScoreInput = ScoreInput(pool: PoolId, metric: nat, withBonus: nat, committed: Option<nat>, target: nat)

  datatype ScoreResult = Failed | Skipped | Done(score: Score)

  /** The metric a commitment is scored by, and the metric bonus: none if it delivered less than it committed. */
  function Bounded(i: ScoreInput, busy: nat): (nat, nat)
    requires i.committed.Some? && i.metric <= i.withBonus
  {
    if i.metric < i.committed.value then (i.metric, 0)
    else (i.committed.value, Min(i.withBonus - i.metric, MulFloor(busy, i.committed.value)))
  }

  /** The score of a commitment in one pool, from its weights and a busy bonus in parts of `QUINTILL`. */
  function PoolScore(w: Weights, busy: nat, i: ScoreInput): ScoreResult {
    if i.withBonus < i.metric then Failed
    else if i.committed.None? then Skipped
    else
      var (bounded, bonusMetric) := Bounded(i, busy);
      var limit := i.target * bounded / FIXED / PER_TOKEN;
      var score := Min(limit, w.selfReward + w.delegReward);
      var alone := Min(limit, w.selfReward);
      if bounded == 0 then Failed
      else Done(Score(score, score + Min(bonusMetric * alone / bounded, MulFloor(busy, alone))))
  }

  /**
   * A score is at most the commitment's weight, its bonus at most the busy part of the committer's
   * own weight, and nothing is scored beyond what the measured metric supports.
   */
  lemma {:induction false} ScoreBounds(w: Weights, busy: nat, i: ScoreInput)
    requires busy <= QUINTILL && PoolScore(w, busy, i).Done?
    ensures var s := PoolScore(w, busy, i).score;
      && s.plain <= s.bonused && s.plain <= w.selfReward + w.delegReward
      && s.bonused - s.plain <= MulFloor(busy, w.selfReward)
      && s.plain <= i.target * Min(i.metric, i.committed.value) / FIXED / PER_TOKEN
      && (i.metric < i.committed.value ==> s.bonused == s.plain)
  {
    var (bounded, bonusMetric) := Bounded(i, busy);
    var limit := i.target * bounded / FIXED / PER_TOKEN;
    MulFloorMonotone(busy, Min(limit, w.selfReward), w.selfReward);
    hide MulFloor;
    if bonusMetric == 0 {
      assert bonusMetric * Min(limit, w.selfReward) / bounded == 0;
    }
  }

  lemma {:induction false} Nested(x: nat, y: nat, z: nat, d: nat, e: nat)
    requires y * d <= x < (y + 1) * d && z * e <= y < (z + 1) * e
    ensures z * (d * e) <= x < (z + 1) * (d * e)
  {
    MulMonotone(d, z * e, y);
    MulMonotone(d, y + 1, (z + 1) * e);
    assert d * (z * e) == z * (d * e) && d * ((z + 1) * e) == (z + 1) * (d * e);
  }

  lemma {:induction false} LimitOf(x: nat)
    ensures x / FIXED / PER_TOKEN * (FIXED * PER_TOKEN) <= x < (x / FIXED / PER_TOKEN + 1) * (FIXED * PER_TOKEN)
  {
    FloorOf(x, FIXED);
    FloorOf(x / FIXED, PER_TOKEN);
    Nested(x, x / FIXED, x / FIXED / PER_TOKEN, FIXED, PER_TOKEN);
  }

  /** The smaller of two floors is the greatest number within both bounds. */
  lemma {:induction false} FloorsMin(x: nat, d: nat, y: nat, e: nat)
    requires d > 0 && e > 0
    ensures var m := Min(x / d, y / e); m * d <= x && m * e <= y && ((m + 1) * d > x || (m + 1) * e > y)
  {
    var m := Min(x / d, y / e);
    FloorOf(x, d);
    FloorOf(y, e);
    MulMonotone(d, m, x / d);
    MulMonotone(e, m, y / e);
  }

  /** Whether `n` is within the commitment's weight and what the metric it is scored by supports. */
  predicate Supported(weight: nat, target: nat, bounded: nat, n: nat) {
    n <= weight && n * (FIXED * PER_TOKEN) <= target * bounded
  }

  /**
   * A score is the greatest number its commitment's weight and metric support, and its bonus the
   * greatest that the bonus metric and the busy bonus allow on the committer's own score. There is no
   * score exactly where nothing was measured or committed, or the metrics contradict each other.
   */
  lemma {:induction false} ScoreExact(w: Weights, busy: nat, i: ScoreInput) returns (own: nat, bonusMetric: nat)
    ensures PoolScore(w, busy, i).Failed? <==>
      i.withBonus < i.metric || (i.committed.Some? && Min(i.metric, i.committed.value) == 0)
    ensures PoolScore(w, busy, i).Skipped? <==> i.metric <= i.withBonus && i.committed.None?
    ensures PoolScore(w, busy, i).Done? ==>
      && i.committed.Some? && i.metric <= i.withBonus
      && var s, bounded := PoolScore(w, busy, i).score, Min(i.metric, i.committed.value);
      && Supported(w.selfReward + w.delegReward, i.target, bounded, s.plain)
      && !Supported(w.selfReward + w.delegReward, i.target, bounded, s.plain + 1)
      && Supported(w.selfReward, i.target, bounded, own) && !Supported(w.selfReward, i.target, bounded, own + 1)
      && s.plain <= s.bonused
      && var bonus := s.bonused - s.plain;
      && bonus * bounded <= bonusMetric * own && bonus * QUINTILL <= busy * own
      && ((bonus + 1) * bounded > bonusMetric * own || (bonus + 1) * QUINTILL > busy * own)
    ensures PoolScore(w, busy, i).Done? ==>
      if i.metric < i.committed.value then bonusMetric == 0
      else
        && bonusMetric <= i.withBonus - i.metric && bonusMetric * QUINTILL <= busy * i.committed.value
        && (bonusMetric == i.withBonus - i.metric || (bonusMetric + 1) * QUINTILL > busy * i.committed.value)
  {
    own, bonusMetric := 0, 0;
    if PoolScore(w, busy, i).Done? {
      var bounded := Bounded(i, busy).0;
      bonusMetric := Bounded(i, busy).1;
      var limit := i.target * bounded / FIXED / PER_TOKEN;
      LimitOf(i.target * bounded);
      own := Min(limit, w.selfReward);
      Supports(w.selfReward, i.target, bounded, limit);
      Supports(w.selfReward + w.delegReward, i.target, bounded, limit);
      FloorsMin(bonusMetric * own, bounded, busy * own, QUINTILL);
      FloorOf(busy * i.committed.value, QUINTILL);
      hide Supported, FIXED, PER_TOKEN;
    }
  }

  lemma {:induction false} Supports(weight: nat, target: nat, bounded: nat, limit: nat)
    requires limit * (FIXED * PER_TOKEN) <= target * bounded < (limit + 1) * (FIXED * PER_TOKEN)
    ensures var n := Min(limit, weight);
      Supported(weight, target, bounded, n) && !Supported(weight, target, bounded, n + 1)
  {
  }

  /** The scores of the pools up to the first failure. */
  function ScoresFor(w: Weights, busy: nat, inputs: seq<ScoreInput>): seq<(PoolId, Score)> {
    if inputs == [] then []
    else
      match PoolScore(w, busy, inputs[0])
      case Failed => []
      case Skipped => ScoresFor(w, busy, inputs[1..])
      case Done(s) => [(inputs[0].pool, s)] + ScoresFor(w, busy, inputs[1..])
  }

  predicate NoInput(inputs: seq<ScoreInput>, p: PoolId) {
    inputs == [] || (inputs[0].pool != p && NoInput(inputs[1..], p))
  }

  predicate OncePerPool(inputs: seq<ScoreInput>) {
    inputs == [] || (NoInput(inputs[1..], inputs[0].pool) && OncePerPool(inputs[1..]))
  }

  lemma {:induction false} NotScored(w: Weights, busy: nat, inputs: seq<ScoreInput>, p: PoolId)
    requires NoInput(inputs, p)
    ensures Unscored(ScoresFor(w, busy, inputs), p)
  {
    hide PoolScore;
    if inputs != [] {
      NotScored(w, busy, inputs[1..], p);
      var t := ScoresFor(w, busy, inputs[1..]);
      if PoolScore(w, busy, inputs[0]).Done? {
        assert ScoresFor(w, busy, inputs)[1..] == t;
      }
    }
  }

  lemma {:induction false} ScoresAreScoring(w: Weights, busy: nat, inputs: seq<ScoreInput>)
    requires OncePerPool(inputs) && busy <= QUINTILL
    ensures Scoring(ScoresFor(w, busy, inputs))
  {
    hide PoolScore;
    if inputs != [] {
      ScoresAreScoring(w, busy, inputs[1..]);
      var t := ScoresFor(w, busy, inputs[1..]);
      if PoolScore(w, busy, inputs[0]).Done? {
        ScoreBounds(w, busy, inputs[0]);
        NotScored(w, busy, inputs[1..], inputs[0].pool);
        assert ScoresFor(w, busy, inputs)[1..] == t;
      }
    }
  }

  // ----- splitting a reward -----

  /** The committer's part of a reward, with a commission in parts of `BILLION` on the delegators'. */
  function SelfPart(w: Weights, commission: nat, reward: nat): nat
    requires w.selfReward + w.delegReward > 0
  {
    var self := w.selfReward * reward / (w.selfReward + w.delegReward);
    self + commission * Minus(reward, self) / BILLION
  }

  function DelegatorsPart(w: Weights, commission: nat, reward: nat): nat
    requires w.selfReward + w.delegReward > 0
  {
    var rest := Minus(reward, w.selfReward * reward / (w.selfReward + w.delegReward));
    Minus(rest, commission * rest / BILLION)
  }

  /** Nothing of a reward is lost or added by splitting it. */
  lemma {:induction false} SplitExact(w: Weights, commission: nat, reward: nat)
    requires w.selfReward + w.delegReward > 0 && commission <= BILLION
    ensures SelfPart(w, commission, reward) + DelegatorsPart(w, commission, reward) == reward
  {
    var total := w.selfReward + w.delegReward;
    PartBound(w.selfReward, total, reward);
    PartBound(commission, BILLION, Minus(reward, w.selfReward * reward / total));
  }

  /**
   * The delegators' part is what their weight is due, rounded up, less the commission on it, rounded
   * down.
   */
  lemma {:induction false} SplitProportional(w: Weights, commission: nat, reward: nat) returns (rest: nat)
    requires w.selfReward + w.delegReward > 0 && commission <= BILLION
    ensures var all, part := w.selfReward + w.delegReward, DelegatorsPart(w, commission, reward);
      && w.delegReward * reward <= rest * all < w.delegReward * reward + all && part <= rest
      && (rest - part) * BILLION <= commission * rest < (rest - part + 1) * BILLION
  {
    var all := w.selfReward + w.delegReward;
    var self := w.selfReward * reward / all;
    PartBound(w.selfReward, all, reward);
    rest := reward - self;
    FloorOf(w.selfReward * reward, all);
    assert w.delegReward * reward + w.selfReward * reward == all * reward;
    assert rest * all == reward * all - self * all;
    PartBound(commission, BILLION, rest);
    FloorOf(commission * rest, BILLION);
  }

  // ----- what a commitment takes, over all pools -----

  function SharesOf(l: Ledger, c: CommitmentId, ps: seq<PoolId>): nat
    requires l.epoch > 0
    decreases |ps|
  {
    if ps == [] then 0
    else
      var n := |ps| - 1;
      SharesOf(l, c, ps[..n]) + Share(ScoreAt(l, c, ps[n], l.epoch - 1), BudgetAt(l, ps[n], l.epoch - 1))
  }

  lemma {:induction false} TakenAppend(l: Ledger, c: CommitmentId, ps: seq<PoolId>, p: PoolId)
    requires l.epoch > 0
    ensures TakenAll(l, c, ps).epoch == l.epoch
    ensures TakenAll(l, c, ps + [p]) == Taken(TakenAll(l, c, ps), c, p)
    decreases |ps|
  {
    hide Taken;
    if ps == [] {
      assert ps + [p] == [p];
    } else {
      assert (ps + [p])[0] == ps[0] && (ps + [p])[1..] == ps[1..] + [p];
      TakenEpoch(l, c, ps[0]);
      TakenAppend(Taken(l, c, ps[0]), c, ps[1..], p);
    }
  }

  lemma {:induction false} TakenEpoch(l: Ledger, c: CommitmentId, p: PoolId)
    requires l.epoch > 0
    ensures Taken(l, c, p).epoch == l.epoch
  {
  }

  lemma {:induction false} OncePrefix(ps: seq<PoolId>, i: nat)
    requires Once(ps) && i < |ps|
    ensures Once(ps[..i]) && ps[i] !in ps[..i]
    decreases |ps|
  {
    if i > 0 {
      OncePrefix(ps[1..], i - 1);
      assert ps[..i][1..] == ps[1..][..i - 1];
      assert ps[i] == ps[1..][i - 1];
    }
  }

  /** Pools come up with the budget and score they had before the distribution began. */
  lemma {:induction false} StillToTake(l: Ledger, c: CommitmentId, ps: seq<PoolId>, i: nat)
    requires l.epoch > 0 && InTime(l) && Once(ps) && i < |ps|
    ensures var l' := TakenAll(l, c, ps[..i]);
      && l'.epoch == l.epoch && SameScores(l, l') && SameBudget(l, l', ps[i])
      && Share(ScoreAt(l', c, ps[i], l.epoch - 1), BudgetAt(l', ps[i], l.epoch - 1))
         == Share(ScoreAt(l, c, ps[i], l.epoch - 1), BudgetAt(l, ps[i], l.epoch - 1))
  {
    hide TakenAll, Share, BudgetAt, ScoreAt;
    OncePrefix(ps, i);
    TakenShares(l, c, ps[..i], ps[i]);
    ShareOfSame(l, TakenAll(l, c, ps[..i]), c, ps[i]);
  }

  /** What one distribution pays: to the committer, to the delegators, and the committer's bonus. */
  datatype Payout = Payout(self: nat, delegations: nat, bonus: nat)

  function Sum(p: Payout): nat {
    p.self + p.delegations + p.bonus
  }

  predicate Weightless(w: Weights) {
    w.selfReward + w.delegReward == 0
  }

  /** One pool's part of a payout: its reward is split, its bonus is the committer's. */
  function PoolPayout(w: Weights, commission: nat, s: Score, b: Budget): Payout
    requires !Weightless(w)
  {
    if !Pays(b) then Payout(0, 0, 0)
    else Payout(SelfPart(w, commission, Reward(s, b)), DelegatorsPart(w, commission, Reward(s, b)), Bonus(s, b))
  }

  function Plus(p: Payout, q: Payout): Payout {
    Payout(p.self + q.self, p.delegations + q.delegations, p.bonus + q.bonus)
  }

  /** What a commitment is paid for the last epoch, over all pools. */
  function PayoutOf(l: Ledger, c: CommitmentId, w: Weights, commission: nat, ps: seq<PoolId>): Payout
    requires l.epoch > 0 && !Weightless(w)
    decreases |ps|
  {
    if ps == [] then Payout(0, 0, 0)
    else
      var n := |ps| - 1;
      Plus(PayoutOf(l, c, w, commission, ps[..n]),
           PoolPayout(w, commission, ScoreAt(l, c, ps[n], l.epoch - 1), BudgetAt(l, ps[n], l.epoch - 1)))
  }

  lemma {:induction false} PoolPayoutExact(w: Weights, commission: nat, s: Score, b: Budget)
    requires !Weightless(w) && commission <= BILLION
    ensures Sum(PoolPayout(w, commission, s, b)) == Share(s, b)
  {
    hide SelfPart, DelegatorsPart, Reward, Bonus;
    if Pays(b) {
      SplitExact(w, commission, Reward(s, b));
    }
  }

  /** A payout is exactly the shares taken from the budgets. */
  lemma {:induction false} PayoutExact(l: Ledger, c: CommitmentId, w: Weights, commission: nat, ps: seq<PoolId>)
    requires l.epoch > 0 && (w.selfReward > 0 || w.delegReward > 0) && commission <= BILLION
    ensures Sum(PayoutOf(l, c, w, commission, ps)) == SharesOf(l, c, ps)
    decreases |ps|
  {
    hide PoolPayout, Share, ScoreAt, BudgetAt;
    if ps != [] {
      var n := |ps| - 1;
      PayoutExact(l, c, w, commission, ps[..n]);
      PoolPayoutExact(w, commission, ScoreAt(l, c, ps[n], l.epoch - 1), BudgetAt(l, ps[n], l.epoch - 1));
    }
  }

  class Rewards {
    var l: Ledger
    const busy: nat

    ghost predicate Valid()
      reads this
    {
      Good(l) && busy <= QUINTILL
    }

    constructor (busy: nat)
      requires busy <= QUINTILL
      ensures Valid() && l == NO_LEDGER
    {
      l, this.busy := NO_LEDGER, busy;
      new;
      EmptyGood();
    }

    /** A new epoch: each pool gets its part of the reward for staked compute as budget. */
    method StoreStakedComputeReward(totals: map<PoolId, nat>)
      requires Valid()
      modifies this
      ensures Valid() && l == Opened(old(l), totals)
    {
      hide Good, BudgetsOf;
      OpenedGood(l, totals);
      var e := l.epoch + 1;
      var budgets := map p | p in l.budgets.Keys + totals.Keys ::
        if p in totals then BudgetsOf(l, p).Set(e, Budget(totals[p], 0, 0), NO_BUDGET) else l.budgets[p];
      l := Ledger(e, budgets, l.scores, l.lastScoring, map[]);
    }

    /**
     * Distributes the budgets of the last epoch to a commitment, for the last epoch's weights. Fails
     * before anything is distributed if the commitment has no weight but a pool has a budget.
     */
    method Distribute(c: CommitmentId, w: Weights, commission: nat, ps: seq<PoolId>) returns (r: Option<Payout>)
      requires InTime(l) && l.epoch > 0 && Once(ps)
      modifies this
      ensures l == if Weightless(w) then old(l) else TakenAll(old(l), c, ps)
      ensures !Weightless(w) ==> r == Some(PayoutOf(old(l), c, w, commission, ps))
      ensures Weightless(w) && r.Some? ==> r.value == Payout(0, 0, 0)
    {
      hide TakenAll, BudgetAt, ScoreAt, Taken, InTime, PayoutOf, PoolPayout, Pays;
      ghost var before := l;
      var pay := Payout(0, 0, 0);
      var weightless := Weightless(w);
      TakenNothing(before, c);
      if !weightless {
        NoPayout(before, c, w, commission);
      }
      assert ps[..0] == [];
      for i := 0 to |ps|
        invariant weightless ==> l == before && pay == Payout(0, 0, 0)
        invariant !weightless ==> l == TakenAll(before, c, ps[..i])
        invariant !weightless ==> pay == PayoutOf(before, c, w, commission, ps[..i])
      {
        var p := ps[i];
        TakenAppend(before, c, ps[..i], p);
        assert ps[..i] + [p] == ps[..i + 1];
        if !weightless {
          StillToTake(before, c, ps, i);
          PoolPayoutSame(before, TakenAll(before, c, ps[..i]), c, w, commission, p);
          PayoutAppend(before, c, w, commission, ps, i);
        }
        if !Pays(BudgetAt(l, p, l.epoch - 1)) {
          NoShare(l, c, p);
          if !weightless {
            NoPoolPayout(w, commission, ScoreAt(l, c, p, l.epoch - 1), BudgetAt(l, p, l.epoch - 1));
          }
          continue;
        }
        if weightless {
          return None;
        }
        pay := PayPool(c, w, commission, p, pay);
      }
      assert ps[..|ps|] == ps;
      return Some(pay);
    }

    /** Pays a commitment's share of one pool's budget, on top of what it got from others. */
    method PayPool(c: CommitmentId, w: Weights, commission: nat, p: PoolId, pay: Payout) returns (pay': Payout)
      requires l.epoch > 0 && Pays(BudgetAt(l, p, l.epoch - 1)) && !Weightless(w)
      modifies this
      ensures l == Taken(old(l), c, p)
      ensures var e := old(l).epoch - 1;
        pay' == Plus(pay, PoolPayout(w, commission, ScoreAt(old(l), c, p, e), BudgetAt(old(l), p, e)))
    {
      hide SelfPart, DelegatorsPart, Reward, Bonus, BudgetAt, ScoreAt, BudgetsOf;
      var budget := BudgetAt(l, p, l.epoch - 1);
      var score := ScoreAt(l, c, p, l.epoch - 1);
      var reward := Reward(score, budget);
      var bonus := Bonus(score, budget);
      pay' := Payout(pay.self + SelfPart(w, commission, reward),
                     pay.delegations + DelegatorsPart(w, commission, reward),
                     pay.bonus + bonus);
      l := l.(charged := l.charged[p := Amount(l.charged, p) + reward + bonus],
              budgets := l.budgets[p := BudgetsOf(l, p).Set(l.epoch - 1,
                                                            budget.(distributed := budget.distributed + reward),
                                                           NO_BUDGET)]);
    }

    /** Scores a commitment for the current epoch by the last epoch's weights, up to the first failure. */
    method ScoreCommitment(c: CommitmentId, w: Weights, inputs: seq<ScoreInput>)
      modifies this
      ensures l == ScoredAll(old(l), c, ScoresFor(w, busy, inputs))
    {
      hide PoolScore, ScoresOf;
      ghost var before := l;
      ghost var all := ScoresFor(w, busy, inputs);
      assert inputs[0..] == inputs;
      for i := 0 to |inputs|
        invariant ScoredAll(before, c, all) == ScoredAll(l, c, ScoresFor(w, busy, inputs[i..]))
      {
        assert inputs[i..][0] == inputs[i] && inputs[i..][1..] == inputs[i + 1..];
        match PoolScore(w, busy, inputs[i]) {
          case Failed =>
            return;
          case Skipped =>
          case Done(score) =>
            var p := inputs[i].pool;
            assert ScoresFor(w, busy, inputs[i..])[1..] == ScoresFor(w, busy, inputs[i + 1..]);
            l := l.(scores := l.scores[(c, p) := ScoresOf(l, c, p).Set(l.epoch, score, NO_SCORE)]);
            var b := BudgetAt(l, p, l.epoch);
            l := l.(budgets := l.budgets[p := BudgetsOf(l, p).Set(l.epoch,
                                                                  b.(totalScore := b.totalScore + score.bonused),
                                                                 NO_BUDGET)]);
        }
      }
    }

    /**
     * The turn of a commitment in an epoch: its part of the last epoch's budgets, then its score for
     * this one. A failed distribution pays nothing; it does not stop the scoring.
     */
    method RewardCommitment(c: CommitmentId, staked: bool, w: Weights, commission: nat, ps: seq<PoolId>,
                            inputs: seq<ScoreInput>)
      returns (pay: Payout)
      requires Valid() && Once(ps) && OncePerPool(inputs)
      modifies this
      ensures Valid()
      ensures l == Turn(old(l), c, staked && !Weightless(w), ps, ScoresFor(w, busy, inputs))
      ensures pay == if Amount(old(l).lastScoring, c) < old(l).epoch && staked && !Weightless(w)
                     then PayoutOf(old(l), c, w, commission, ps) else Payout(0, 0, 0)
    {
      hide ScoredAll, TakenAll, ScoresFor, PayoutOf;
      ghost var before := l;
      ghost var takes := staked && !Weightless(w);
      ScoresAreScoring(w, busy, inputs);
      TurnGood(l, c, takes, ps, ScoresFor(w, busy, inputs));
      hide Good;
      pay := Payout(0, 0, 0);
      if Amount(l.lastScoring, c) >= l.epoch {
        return;
      }
      GoodInTime(l);
      TakenMark(l, c, ps);
      if staked {
        var paid := Distribute(c, w, commission, ps);
        if paid.Some? {
          pay := paid.value;
        }
      }
      l := l.(lastScoring := l.lastScoring[c := l.epoch]);
      ScoreCommitment(c, w, inputs);
    }
  }

  lemma {:induction false} TakenMark(l: Ledger, c: CommitmentId, ps: seq<PoolId>)
    requires l.epoch > 0 && InTime(l) && Once(ps)
    ensures TakenAll(l, c, ps).epoch == l.epoch && TakenAll(l, c, ps).lastScoring == l.lastScoring
  {
    hide TakenAll;
    TakenShares(l, c, ps, 0);
  }

  lemma {:induction false} TakenNothing(l: Ledger, c: CommitmentId)
    requires l.epoch > 0
    ensures TakenAll(l, c, []) == l && SharesOf(l, c, []) == 0
  {
  }

  lemma {:induction false} NoPayout(l: Ledger, c: CommitmentId, w: Weights, commission: nat)
    requires l.epoch > 0 && !Weightless(w)
    ensures PayoutOf(l, c, w, commission, []) == Payout(0, 0, 0)
  {
  }

  lemma {:induction false} NoPoolPayout(w: Weights, commission: nat, s: Score, b: Budget)
    requires !Weightless(w) && !Pays(b)
    ensures PoolPayout(w, commission, s, b) == Payout(0, 0, 0)
  {
  }

  lemma {:induction false} PoolPayoutSame(l: Ledger, l': Ledger, c: CommitmentId, w: Weights, commission: nat,
                                          p: PoolId)
    requires l.epoch > 0 && !Weightless(w) && SameScores(l, l') && SameBudget(l, l', p)
    ensures PoolPayout(w, commission, ScoreAt(l', c, p, l.epoch - 1), BudgetAt(l', p, l.epoch - 1))
         == PoolPayout(w, commission, ScoreAt(l, c, p, l.epoch - 1), BudgetAt(l, p, l.epoch - 1))
  {
    hide SelfPart, DelegatorsPart;
  }

  lemma {:induction false} PayoutAppend(l: Ledger, c: CommitmentId, w: Weights, commission: nat, ps: seq<PoolId>,
                                        i: nat)
    requires l.epoch > 0 && !Weightless(w) && i < |ps|
    ensures PayoutOf(l, c, w, commission, ps[..i + 1])
         == Plus(PayoutOf(l, c, w, commission, ps[..i]),
                 PoolPayout(w, commission, ScoreAt(l, c, ps[i], l.epoch - 1), BudgetAt(l, ps[i], l.epoch - 1)))
  {
    hide PoolPayout, ScoreAt, BudgetAt;
    assert ps[..i + 1][..i] == ps[..i];
  }

  lemma {:induction false} SharesAppend(l: Ledger, c: CommitmentId, ps: seq<PoolId>, i: nat)
    requires l.epoch > 0 && i < |ps|
    ensures SharesOf(l, c, ps[..i + 1])
         == SharesOf(l, c, ps[..i]) + Share(ScoreAt(l, c, ps[i], l.epoch - 1), BudgetAt(l, ps[i], l.epoch - 1))
  {
    hide Share, ScoreAt, BudgetAt;
    assert ps[..i + 1][..i] == ps[..i];
  }

  lemma {:induction false} NoShare(l: Ledger, c: CommitmentId, p: PoolId)
    requires l.epoch > 0 && !Pays(BudgetAt(l, p, l.epoch - 1))
    ensures Taken(l, c, p) == l && Share(ScoreAt(l, c, p, l.epoch - 1), BudgetAt(l, p, l.epoch - 1)) == 0
  {
  }
}
