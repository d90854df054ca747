/**
 * Rewards for staked compute. Each epoch every pool gets a budget; the commitments that report
 * during the epoch add their scores to it; and during the next epoch each of them, once, takes its
 * share of the budget in proportion to its score.
 *
 * `charged` is what has been taken out of the budgets of the epoch before the current one.
 */
module EpochBudget {
  import opened StakingBase
  import opened Arithmetic
  import opened MapSums
  import opened SlidingBuffers

  type PoolId = nat

  datatype Budget = Budget(total: nat, totalScore: nat, distributed: nat)

  /** A score without and with the bonus that is for the committer alone. */
  datatype Score = Score(plain: nat, bonused: nat)

  const NO_BUDGET := Budget(0, 0, 0)
  const NO_SCORE := Score(0, 0)

  type Scores = map<(CommitmentId, PoolId), Sliding<Score>>

  datatype Ledger = Ledger(epoch: nat, budgets: map<PoolId, Sliding<Budget>>, scores: Scores,
                           lastScoring: map<CommitmentId, nat>, charged: map<PoolId, nat>)

  const NO_LEDGER := Ledger(0, map[], map[], map[], map[])

  function BudgetsOf(l: Ledger, p: PoolId): Sliding<Budget> {
    if p in l.budgets then l.budgets[p] else Empty(NO_BUDGET)
  }

  function BudgetAt(l: Ledger, p: PoolId, e: nat): Budget {
    BudgetsOf(l, p).Get(e, NO_BUDGET)
  }

  function ScoresOf(l: Ledger, c: CommitmentId, p: PoolId): Sliding<Score> {
    if (c, p) in l.scores then l.scores[(c, p)] else Empty(NO_SCORE)
  }

  function ScoreAt(l: Ledger, c: CommitmentId, p: PoolId, e: nat): Score {
    ScoresOf(l, c, p).Get(e, NO_SCORE)
  }

  /** The scores of all commitments in a pool. */
  ghost function Bonused(scores: Scores, p: PoolId, e: nat): map<(CommitmentId, PoolId), nat> {
    map k | k in scores && k.1 == p :: scores[k].Get(e, NO_SCORE).bonused
  }

  /** Those of the last epoch, of commitments that have already taken their share. */
  ghost function Served(l: Ledger, p: PoolId): map<(CommitmentId, PoolId), nat>
    requires l.epoch > 0
  {
    map k | k in l.scores && k.1 == p && Amount(l.lastScoring, k.0) >= l.epoch ::
      l.scores[k].Get(l.epoch - 1, NO_SCORE).bonused
  }

  // ----- what holds in every reachable state -----

  ghost predicate InTime(l: Ledger) {
    && (forall p :: p in l.budgets ==> l.budgets[p].epoch <= l.epoch)
    && (forall c :: c in l.lastScoring ==> l.lastScoring[c] <= l.epoch)
    && (forall k :: k in l.scores ==> l.scores[k].epoch <= Amount(l.lastScoring, k.0))
  }

  predicate Ordered(s: Sliding<Score>) {
    s.prev.plain <= s.prev.bonused && s.cur.plain <= s.cur.bonused
  }

  ghost predicate AllOrdered(l: Ledger) {
    forall k :: k in l.scores ==> Ordered(l.scores[k])
  }

  /** The recorded total score of an epoch is the sum of the scores. */
  ghost predicate Summed(l: Ledger, p: PoolId, e: nat) {
    BudgetAt(l, p, e).totalScore == Total(Bonused(l.scores, p, e))
  }

  /** What was taken is in proportion to the scores of those who took it. */
  ghost predicate InProportion(l: Ledger, p: PoolId)
    requires l.epoch > 0
  {
    var b := BudgetAt(l, p, l.epoch - 1);
    Amount(l.charged, p) * b.totalScore <= b.total * Total(Served(l, p))
  }

  ghost predicate PoolOk(l: Ledger, p: PoolId) {
    Summed(l, p, l.epoch) && (l.epoch > 0 ==> Summed(l, p, l.epoch - 1) && InProportion(l, p))
  }

  ghost predicate Good(l: Ledger) {
    && InTime(l) && AllOrdered(l)
    && (forall p :: p in l.charged && l.charged[p] > 0 ==> l.epoch > 0 && BudgetAt(l, p, l.epoch - 1).totalScore > 0)
    && (forall p :: PoolOk(l, p))
  }

  /** A pool's budget for an epoch is never over-distributed. */
  lemma {:induction false} WithinBudget(l: Ledger, p: PoolId)
    requires Good(l) && l.epoch > 0
    ensures Amount(l.charged, p) <= BudgetAt(l, p, l.epoch - 1).total
  {
    var b := BudgetAt(l, p, l.epoch - 1);
    assert PoolOk(l, p);
    TotalBelow(Served(l, p), Bonused(l.scores, p, l.epoch - 1));
    hide Total;
    if Amount(l.charged, p) > 0 {
      Cancel(Amount(l.charged, p), b.totalScore, b.total, Total(Served(l, p)));
    }
  }

  // ----- a new epoch -----

  /** Every pool gets its budget for the new epoch. */
  function Opened(l: Ledger, totals: map<PoolId, nat>): Ledger {
    var e := l.epoch + 1;
    Ledger(e,
           map p | p in l.budgets.Keys + totals.Keys ::
             if p in totals then BudgetsOf(l, p).Set(e, Budget(totals[p], 0, 0), NO_BUDGET) else l.budgets[p],
           l.scores, l.lastScoring, map[])
  }

  lemma {:induction false} OpenedBudgets(l: Ledger, totals: map<PoolId, nat>, p: PoolId)
    requires InTime(l)
    ensures var l' := Opened(l, totals);
      && BudgetAt(l', p, l.epoch) == BudgetAt(l, p, l.epoch)
      && BudgetAt(l', p, l.epoch + 1) == Budget(Amount(totals, p), 0, 0)
      && (p in l'.budgets ==> l'.budgets[p].epoch <= l.epoch + 1)
  {
  }

  lemma {:induction false} OpenedPool(l: Ledger, totals: map<PoolId, nat>, p: PoolId)
    requires InTime(l) && Summed(l, p, l.epoch)
    ensures PoolOk(Opened(l, totals), p)
  {
    var l' := Opened(l, totals);
    OpenedBudgets(l, totals, p);
    TotalZero(Bonused(l'.scores, p, l'.epoch));
    hide Total, Opened, InTime;
  }

  lemma {:induction false} OpenedGood(l: Ledger, totals: map<PoolId, nat>)
    requires Good(l)
    ensures Good(Opened(l, totals))
  {
    hide Summed, InProportion;
    var l' := Opened(l, totals);
    forall p
      ensures PoolOk(l', p) && (p in l'.budgets ==> l'.budgets[p].epoch <= l'.epoch)
    {
      assert PoolOk(l, p);
      OpenedBudgets(l, totals, p);
      OpenedPool(l, totals, p);
    }
    hide PoolOk, BudgetAt;
  }

  // ----- taking a share -----

  /** A commitment's share of a pool's budget, and its bonus. */
  function Reward(s: Score, b: Budget): nat
    requires b.totalScore > 0
  {
    s.plain * b.total / b.totalScore
  }

  function Bonus(s: Score, b: Budget): nat
    requires b.totalScore > 0
  {
    Minus(s.bonused, s.plain) * b.total / b.totalScore
  }

  predicate Pays(b: Budget) {
    b.totalScore > 0 && b.total > 0
  }

  function Share(s: Score, b: Budget): nat {
    if Pays(b) then Reward(s, b) + Bonus(s, b) else 0
  }

  /** Two roundings down add up to no more than the exact share. */
  lemma {:induction false} ShareBound(s: Score, b: Budget)
    requires s.plain <= s.bonused
    ensures Share(s, b) * b.totalScore <= b.total * s.bonused
  {
    if Pays(b) {
      var x, y := s.plain * b.total, (s.bonused - s.plain) * b.total;
      var q, r := x / b.totalScore, y / b.totalScore;
      FloorOf(x, b.totalScore);
      FloorOf(y, b.totalScore);
      assert (q + r) * b.totalScore == q * b.totalScore + r * b.totalScore;
      assert x + y == b.total * s.bonused;
    }
  }

  /** One pool of a distribution. */
  function Taken(l: Ledger, c: CommitmentId, p: PoolId): Ledger
    requires l.epoch > 0
  {
    var b, s := BudgetAt(l, p, l.epoch - 1), ScoreAt(l, c, p, l.epoch - 1);
    if !Pays(b) then l
    else
      l.(charged := l.charged[p := Amount(l.charged, p) + Share(s, b)],
         budgets := l.budgets[p := BudgetsOf(l, p).Set(l.epoch - 1, b.(distributed := b.distributed + Reward(s, b)),
                                                       NO_BUDGET)])
  }

  function TakenAll(l: Ledger, c: CommitmentId, ps: seq<PoolId>): Ledger
    requires l.epoch > 0
    decreases |ps|
  {
    if ps == [] then l else TakenAll(Taken(l, c, ps[0]), c, ps[1..])
  }

  predicate Once(ps: seq<PoolId>) {
    ps == [] || (ps[0] !in ps[1..] && Once(ps[1..]))
  }

  /** Ledgers that differ in what was charged and distributed only. */
  ghost predicate SameScores(l: Ledger, l': Ledger) {
    && l'.epoch == l.epoch && l'.scores == l.scores && l'.lastScoring == l.lastScoring
    && (forall p :: p in l'.budgets ==> l'.budgets[p].epoch <= l.epoch)
  }

  /** A pool's budget is unchanged but for what is marked as distributed. */
  predicate SameBudget(l: Ledger, l': Ledger, p: PoolId)
    requires l.epoch > 0
  {
    && BudgetAt(l', p, l.epoch) == BudgetAt(l, p, l.epoch)
    && BudgetAt(l', p, l.epoch - 1).total == BudgetAt(l, p, l.epoch - 1).total
    && BudgetAt(l', p, l.epoch - 1).totalScore == BudgetAt(l, p, l.epoch - 1).totalScore
  }

  lemma {:induction false} TakenOne(l: Ledger, c: CommitmentId, q: PoolId, p: PoolId)
    requires l.epoch > 0 && InTime(l)
    ensures var l' := Taken(l, c, q);
      && InTime(l') && SameScores(l, l') && SameBudget(l, l', p)
      && Amount(l'.charged, p) == Amount(l.charged, p)
         + if p == q then Share(ScoreAt(l, c, p, l.epoch - 1), BudgetAt(l, p, l.epoch - 1)) else 0
  {
    hide Reward, Bonus;
  }

  /** Each pool is charged the commitment's share, once. */
  lemma {:induction false} TakenShares(l: Ledger, c: CommitmentId, ps: seq<PoolId>, p: PoolId)
    requires l.epoch > 0 && InTime(l) && Once(ps)
    ensures var l' := TakenAll(l, c, ps);
      && InTime(l') && SameScores(l, l') && SameBudget(l, l', p)
      && Amount(l'.charged, p) == Amount(l.charged, p)
         + if p in ps then Share(ScoreAt(l, c, p, l.epoch - 1), BudgetAt(l, p, l.epoch - 1)) else 0
    decreases |ps|
  {
    hide Taken, Share;
    if ps != [] {
      assert ps == [ps[0]] + ps[1..];
      TakenOne(l, c, ps[0], p);
      TakenShares(Taken(l, c, ps[0]), c, ps[1..], p);
      ShareOfSame(l, Taken(l, c, ps[0]), c, p);
    }
  }

  lemma {:induction false} ShareOfSame(l: Ledger, l': Ledger, c: CommitmentId, p: PoolId)
    requires l.epoch > 0 && SameScores(l, l') && SameBudget(l, l', p)
    ensures Share(ScoreAt(l', c, p, l.epoch - 1), BudgetAt(l', p, l.epoch - 1))
         == Share(ScoreAt(l, c, p, l.epoch - 1), BudgetAt(l, p, l.epoch - 1))
  {
  }

  // ----- scoring -----

  /** A commitment's score in one pool is recorded and added to the pool's. */
  function Scored(l: Ledger, c: CommitmentId, p: PoolId, s: Score): Ledger {
    var b := BudgetAt(l, p, l.epoch);
    l.(scores := l.scores[(c, p) := ScoresOf(l, c, p).Set(l.epoch, s, NO_SCORE)],
       budgets := l.budgets[p := BudgetsOf(l, p).Set(l.epoch, b.(totalScore := b.totalScore + s.bonused), NO_BUDGET)])
  }

  function ScoredAll(l: Ledger, c: CommitmentId, ss: seq<(PoolId, Score)>): Ledger
    decreases |ss|
  {
    if ss == [] then l else ScoredAll(Scored(l, c, ss[0].0, ss[0].1), c, ss[1..])
  }

  /** Scores of distinct pools, each with its bonus on top. */
  predicate Scoring(ss: seq<(PoolId, Score)>) {
    ss == [] || (ss[0].1.plain <= ss[0].1.bonused && Unscored(ss[1..], ss[0].0) && Scoring(ss[1..]))
  }

  predicate Unscored(ss: seq<(PoolId, Score)>, p: PoolId) {
    ss == [] || (ss[0].0 != p && Unscored(ss[1..], p))
  }

  /** The commitment has no score yet this epoch in the pools to come. */
  predicate Fresh(l: Ledger, c: CommitmentId, ss: seq<(PoolId, Score)>) {
    ss == [] || (ScoreAt(l, c, ss[0].0, l.epoch) == NO_SCORE && Fresh(l, c, ss[1..]))
  }

  lemma {:induction false} StillFresh(l: Ledger, c: CommitmentId, p: PoolId, s: Score, ss: seq<(PoolId, Score)>)
    requires Fresh(l, c, ss) && Unscored(ss, p)
    ensures Fresh(Scored(l, c, p, s), c, ss)
  {
    if ss != [] {
      StillFresh(l, c, p, s, ss[1..]);
    }
  }

  function BonusIn(s: Sliding<Score>, e: nat): nat {
    s.Get(e, NO_SCORE).bonused
  }

  lemma {:induction false} BonusedPut(scores: Scores, k: (CommitmentId, PoolId), s: Sliding<Score>, p: PoolId, e: nat)
    ensures Total(Bonused(scores[k := s], p, e)) + (if k in scores && k.1 == p then BonusIn(scores[k], e) else 0)
         == Total(Bonused(scores, p, e)) + (if k.1 == p then BonusIn(s, e) else 0)
  {
    hide Total;
    var m, m' := Bonused(scores, p, e), Bonused(scores[k := s], p, e);
    assert m' - {k} == m - {k};
    TotalChange(m, m', k);
  }

  lemma {:induction false} ServedPut(l: Ledger, k: (CommitmentId, PoolId), s: Sliding<Score>, p: PoolId)
    requires l.epoch > 0
    ensures var l' := l.(scores := l.scores[k := s]);
      var counts := k.1 == p && Amount(l.lastScoring, k.0) >= l.epoch;
      Total(Served(l', p)) + (if k in l.scores && counts then BonusIn(l.scores[k], l.epoch - 1) else 0)
      == Total(Served(l, p)) + (if counts then BonusIn(s, l.epoch - 1) else 0)
  {
    hide Total;
    var m, m' := Served(l, p), Served(l.(scores := l.scores[k := s]), p);
    assert m' - {k} == m - {k};
    TotalChange(m, m', k);
  }

  lemma {:induction false} ServedSame(l: Ledger, l': Ledger, p: PoolId)
    requires l.epoch > 0 && l'.epoch == l.epoch && l'.scores == l.scores && l'.lastScoring == l.lastScoring
    ensures Served(l', p) == Served(l, p)
  {
  }

  lemma {:induction false} ScoredTotals(l: Ledger, c: CommitmentId, q: PoolId, s: Score, p: PoolId)
    requires InTime(l) && ScoreAt(l, c, q, l.epoch) == NO_SCORE && l.epoch > 0
    ensures var l' := Scored(l, c, q, s);
      && Total(Bonused(l'.scores, p, l.epoch))
        == Total(Bonused(l.scores, p, l.epoch)) + (if p == q then s.bonused else 0)
      && Total(Bonused(l'.scores, p, l.epoch - 1)) == Total(Bonused(l.scores, p, l.epoch - 1))
      && Total(Served(l', p)) == Total(Served(l, p))
  {
    var l', k, e := Scored(l, c, q, s), (c, q), l.epoch;
    var t := ScoresOf(l, c, q).Set(e, s, NO_SCORE);
    SetGet(ScoresOf(l, c, q), e, s, NO_SCORE);
    hide Total, Bonused, Served;
    BonusedPut(l.scores, k, t, p, e);
    BonusedPut(l.scores, k, t, p, e - 1);
    ServedPut(l, k, t, p);
    ServedSame(l', l.(scores := l.scores[k := t]), p);
  }

  lemma {:induction false} ScoredBudget(l: Ledger, c: CommitmentId, q: PoolId, s: Score, p: PoolId)
    requires InTime(l) && l.epoch > 0
    ensures var l' := Scored(l, c, q, s);
      && BudgetAt(l', p, l.epoch).totalScore == BudgetAt(l, p, l.epoch).totalScore + (if p == q then s.bonused else 0)
      && BudgetAt(l', p, l.epoch - 1) == BudgetAt(l, p, l.epoch - 1)
  {
  }

  lemma {:induction false} ScoredPool(l: Ledger, c: CommitmentId, q: PoolId, s: Score, p: PoolId)
    requires InTime(l) && ScoreAt(l, c, q, l.epoch) == NO_SCORE && l.epoch > 0 && PoolOk(l, p)
    ensures PoolOk(Scored(l, c, q, s), p)
  {
    ScoredTotals(l, c, q, s, p);
    ScoredBudget(l, c, q, s, p);
    hide Total, BudgetAt, ScoreAt, Bonused, Served, InTime;
  }

  lemma {:induction false} ScoredGood(l: Ledger, c: CommitmentId, q: PoolId, s: Score)
    requires Good(l) && ScoreAt(l, c, q, l.epoch) == NO_SCORE && l.epoch > 0 && s.plain <= s.bonused
    requires Amount(l.lastScoring, c) == l.epoch
    ensures Good(Scored(l, c, q, s))
  {
    hide PoolOk;
    var l' := Scored(l, c, q, s);
    SetGet(ScoresOf(l, c, q), l.epoch, s, NO_SCORE);
    forall p
      ensures PoolOk(l', p)
    {
      assert PoolOk(l, p);
      ScoredPool(l, c, q, s, p);
    }
    forall p | p in l'.charged && l'.charged[p] > 0
      ensures BudgetAt(l', p, l'.epoch - 1).totalScore > 0
    {
      ScoredBudget(l, c, q, s, p);
    }
  }

  lemma {:induction false} ScoredAllGood(l: Ledger, c: CommitmentId, ss: seq<(PoolId, Score)>)
    requires Good(l) && l.epoch > 0 && Scoring(ss) && Fresh(l, c, ss) && Amount(l.lastScoring, c) == l.epoch
    ensures Good(ScoredAll(l, c, ss))
    decreases |ss|
  {
    hide Good;
    if ss != [] {
      ScoredGood(l, c, ss[0].0, ss[0].1);
      StillFresh(l, c, ss[0].0, ss[0].1, ss[1..]);
      ScoredAllGood(Scored(l, c, ss[0].0, ss[0].1), c, ss[1..]);
    }
  }

  // ----- a commitment's turn -----

  /** The commitment has had its turn this epoch. */
  function Marked(l: Ledger, c: CommitmentId): Ledger {
    l.(lastScoring := l.lastScoring[c := l.epoch])
  }

  /** A commitment takes its shares of the last epoch, if it may, and is scored for the next. */
  function Turn(l: Ledger, c: CommitmentId, takes: bool, ps: seq<PoolId>, ss: seq<(PoolId, Score)>): Ledger {
    if Amount(l.lastScoring, c) >= l.epoch then l
    else ScoredAll(Marked(if takes then TakenAll(l, c, ps) else l, c), c, ss)
  }

  lemma {:induction false} MarkedServed(l: Ledger, c: CommitmentId, p: PoolId)
    requires l.epoch > 0 && Amount(l.lastScoring, c) < l.epoch
    ensures Total(Served(Marked(l, c), p)) == Total(Served(l, p)) + ScoreAt(l, c, p, l.epoch - 1).bonused
  {
    hide Total;
    var m, m' := Served(l, p), Served(Marked(l, c), p);
    assert m' - {(c, p)} == m - {(c, p)};
    TotalChange(m, m', (c, p));
  }

  /** Taking a share keeps what was taken in proportion. */
  lemma {:induction false} ProportionGrows(charged: nat, share: nat, b: Budget, served: nat, score: nat)
    requires charged * b.totalScore <= b.total * served && share * b.totalScore <= b.total * score
    ensures (charged + share) * b.totalScore <= b.total * (served + score)
  {
    assert (charged + share) * b.totalScore == charged * b.totalScore + share * b.totalScore;
    assert b.total * (served + score) == b.total * served + b.total * score;
  }

  lemma {:induction false} MarkedSame(l: Ledger, l1: Ledger, c: CommitmentId, p: PoolId)
    requires l.epoch > 0 && SameScores(l, l1) && SameBudget(l, l1, p)
    ensures var l' := Marked(l1, c);
      && l1.epoch == l.epoch == l'.epoch && l1.lastScoring == l.lastScoring && l1.scores == l.scores
      && ScoreAt(l1, c, p, l.epoch - 1) == ScoreAt(l, c, p, l.epoch - 1)
      && BudgetAt(l', p, l.epoch - 1).total == BudgetAt(l, p, l.epoch - 1).total
      && BudgetAt(l', p, l.epoch - 1).totalScore == BudgetAt(l, p, l.epoch - 1).totalScore
      && l'.charged == l1.charged
  {
  }

  lemma {:induction false} TakenProportion(l: Ledger, l1: Ledger, c: CommitmentId, p: PoolId, share: nat)
    requires l.epoch > 0 && SameScores(l, l1) && SameBudget(l, l1, p) && InProportion(l, p)
    requires Amount(l.lastScoring, c) < l.epoch && Amount(l1.charged, p) == Amount(l.charged, p) + share
    requires var b := BudgetAt(l, p, l.epoch - 1);
      share * b.totalScore <= b.total * ScoreAt(l, c, p, l.epoch - 1).bonused
    ensures InProportion(Marked(l1, c), p)
  {
    hide Total, Served, ScoreAt, BudgetAt, Amount, SameScores, Marked;
    MarkedSame(l, l1, c, p);
    ServedSame(l, l1, p);
    MarkedServed(l1, c, p);
    ProportionGrows(Amount(l.charged, p), share, BudgetAt(l, p, l.epoch - 1), Total(Served(l, p)),
                    ScoreAt(l, c, p, l.epoch - 1).bonused);
  }

  lemma {:induction false} TakenSums(l: Ledger, l1: Ledger, c: CommitmentId, p: PoolId)
    requires l.epoch > 0 && SameScores(l, l1) && SameBudget(l, l1, p)
    requires Summed(l, p, l.epoch) && Summed(l, p, l.epoch - 1)
    ensures Summed(Marked(l1, c), p, l.epoch) && Summed(Marked(l1, c), p, l.epoch - 1)
  {
  }

  lemma {:induction false} TakenPool(l: Ledger, c: CommitmentId, takes: bool, ps: seq<PoolId>, p: PoolId)
    requires Good(l) && Once(ps) && Amount(l.lastScoring, c) < l.epoch
    ensures var l' := Marked(if takes then TakenAll(l, c, ps) else l, c);
      && l'.epoch == l.epoch && PoolOk(l', p)
      && (Amount(l'.charged, p) > 0 ==> BudgetAt(l', p, l.epoch - 1).totalScore > 0)
  {
    hide TakenAll, Share, Served, Bonused, Total;
    var e := l.epoch - 1;
    var l1 := if takes then TakenAll(l, c, ps) else l;
    TakenShares(l, c, ps, p);
    assert PoolOk(l, p);
    var s, b := ScoreAt(l, c, p, e), BudgetAt(l, p, e);
    assert s.plain <= s.bonused;
    SharePositive(s, b);
    ShareBound(s, b);
    TakenSums(l, l1, c, p);
    TakenProportion(l, l1, c, p, if takes && p in ps then Share(s, b) else 0);
    hide InProportion, Summed;
  }

  lemma {:induction false} SharePositive(s: Score, b: Budget)
    ensures Share(s, b) > 0 ==> b.totalScore > 0
  {
  }

  lemma {:induction false} TakenGood(l: Ledger, c: CommitmentId, takes: bool, ps: seq<PoolId>)
    requires Good(l) && Once(ps) && Amount(l.lastScoring, c) < l.epoch
    ensures Good(Marked(if takes then TakenAll(l, c, ps) else l, c))
  {
    hide PoolOk, TakenAll, Share, BudgetAt;
    var l1 := if takes then TakenAll(l, c, ps) else l;
    var l' := Marked(l1, c);
    TakenShares(l, c, ps, 0);
    forall p
      ensures PoolOk(l', p) && (p in l'.charged && l'.charged[p] > 0 ==> BudgetAt(l', p, l'.epoch - 1).totalScore > 0)
    {
      TakenPool(l, c, takes, ps, p);
    }
  }

  lemma {:induction false} FreshTurn(l: Ledger, c: CommitmentId, ss: seq<(PoolId, Score)>)
    requires InTime(l) && Amount(l.lastScoring, c) < l.epoch
    ensures Fresh(l, c, ss)
  {
    if ss != [] {
      FreshTurn(l, c, ss[1..]);
    }
  }

  lemma {:induction false} FreshSame(l: Ledger, l': Ledger, c: CommitmentId, ss: seq<(PoolId, Score)>)
    requires Fresh(l, c, ss) && l'.scores == l.scores && l'.epoch == l.epoch
    ensures Fresh(l', c, ss)
  {
    if ss != [] {
      FreshSame(l, l', c, ss[1..]);
    }
  }

  lemma {:induction false} TurnGood(l: Ledger, c: CommitmentId, takes: bool, ps: seq<PoolId>, ss: seq<(PoolId, Score)>)
    requires Good(l) && Once(ps) && Scoring(ss)
    ensures Good(Turn(l, c, takes, ps, ss))
  {
    if Amount(l.lastScoring, c) < l.epoch {
      var l1 := if takes then TakenAll(l, c, ps) else l;
      TakenGood(l, c, takes, ps);
      TakenShares(l, c, ps, 0);
      FreshTurn(l, c, ss);
      FreshSame(l, Marked(l1, c), c, ss);
      hide Good, TakenAll, Fresh;
      ScoredAllGood(Marked(l1, c), c, ss);
    }
  }

  lemma {:induction false} ScoredAllMarked(l: Ledger, c: CommitmentId, ss: seq<(PoolId, Score)>)
    ensures ScoredAll(l, c, ss).lastScoring == l.lastScoring && ScoredAll(l, c, ss).epoch == l.epoch
    decreases |ss|
  {
    hide BudgetAt, ScoresOf, BudgetsOf;
    if ss != [] {
      ScoredAllMarked(Scored(l, c, ss[0].0, ss[0].1), c, ss[1..]);
    }
  }

  /** A turn marks its commitment for the epoch and no other. */
  lemma {:induction false} TurnMarks(l: Ledger, c: CommitmentId, takes: bool, ps: seq<PoolId>, ss: seq<(PoolId, Score)>)
    requires InTime(l) && Once(ps)
    ensures var l' := Turn(l, c, takes, ps, ss);
      && l'.epoch == l.epoch && Amount(l'.lastScoring, c) >= l.epoch
      && forall d :: d != c ==> Amount(l'.lastScoring, d) == Amount(l.lastScoring, d)
  {
    hide ScoredAll, TakenAll;
    if Amount(l.lastScoring, c) < l.epoch {
      TakenShares(l, c, ps, 0);
      ScoredAllMarked(Marked(if takes then TakenAll(l, c, ps) else l, c), c, ss);
    }
  }

  // ----- runs -----

  datatype Step =
    | NewEpoch(totals: map<PoolId, nat>)
    | Commit(c: CommitmentId, takes: bool, ps: seq<PoolId>, ss: seq<(PoolId, Score)>)

  predicate WellFormed(step: Step) {
    step.Commit? ==> Once(step.ps) && Scoring(step.ss)
  }

  function Next(l: Ledger, step: Step): Ledger {
    match step
    case NewEpoch(totals) => Opened(l, totals)
    case Commit(c, takes, ps, ss) => Turn(l, c, takes, ps, ss)
  }

  function Run(l: Ledger, steps: seq<Step>): Ledger
    decreases |steps|
  {
    if steps == [] then l else Run(Next(l, steps[0]), steps[1..])
  }

  predicate AllWellFormed(steps: seq<Step>) {
    steps == [] || (WellFormed(steps[0]) && AllWellFormed(steps[1..]))
  }

  lemma {:induction false} RunGood(l: Ledger, steps: seq<Step>)
    requires Good(l) && AllWellFormed(steps)
    ensures Good(Run(l, steps))
    decreases |steps|
  {
    hide Good, Opened, Turn;
    if steps != [] {
      match steps[0] {
        case NewEpoch(totals) => OpenedGood(l, totals);
        case Commit(c, takes, ps, ss) => TurnGood(l, c, takes, ps, ss);
      }
      RunGood(Next(l, steps[0]), steps[1..]);
    }
  }

  lemma {:induction false} EmptyGood()
    ensures Good(NO_LEDGER)
  {
  }

  /** Over every run, no pool's budget is over-distributed, and its total score is the sum of the scores. */
  lemma {:induction false} BudgetNeverOverspent(steps: seq<Step>, p: PoolId)
    requires AllWellFormed(steps)
    ensures var l := Run(NO_LEDGER, steps);
      && BudgetAt(l, p, l.epoch).totalScore == Total(Bonused(l.scores, p, l.epoch))
      && (l.epoch > 0 ==> Amount(l.charged, p) <= BudgetAt(l, p, l.epoch - 1).total)
  {
    EmptyGood();
    hide Run, Total;
    RunGood(NO_LEDGER, steps);
    var l := Run(NO_LEDGER, steps);
    assert PoolOk(l, p);
    if l.epoch > 0 {
      WithinBudget(l, p);
    }
  }

  predicate SameEpoch(steps: seq<Step>) {
    steps == [] || (!steps[0].NewEpoch? && SameEpoch(steps[1..]))
  }

  lemma {:induction false} StaysMarked(l: Ledger, steps: seq<Step>, c: CommitmentId)
    requires Good(l) && AllWellFormed(steps) && SameEpoch(steps) && Amount(l.lastScoring, c) >= l.epoch
    ensures Amount(Run(l, steps).lastScoring, c) >= Run(l, steps).epoch
    decreases |steps|
  {
    hide Good, Turn;
    if steps != [] {
      var step := steps[0];
      GoodInTime(l);
      TurnGood(l, step.c, step.takes, step.ps, step.ss);
      TurnMarks(l, step.c, step.takes, step.ps, step.ss);
      StaysMarked(Next(l, step), steps[1..], c);
    }
  }

  lemma {:induction false} GoodInTime(l: Ledger)
    requires Good(l)
    ensures InTime(l)
  {
  }

  /**
   * A commitment takes its shares and is scored at most once per epoch: after its turn, another one
   * later in the epoch changes nothing, whichever commitments had theirs in between.
   */
  lemma {:induction false} TurnOnce(steps: seq<Step>, first: Step, between: seq<Step>, second: Step)
    requires first.Commit? && second.Commit? && second.c == first.c && SameEpoch(between)
    requires AllWellFormed(steps) && WellFormed(first) && AllWellFormed(between)
    ensures var l := Run(Next(Run(NO_LEDGER, steps), first), between);
      Next(l, second) == l
  {
    hide Good, Run, TakenAll, ScoredAll;
    EmptyGood();
    RunGood(NO_LEDGER, steps);
    var l := Run(NO_LEDGER, steps);
    GoodInTime(l);
    TurnGood(l, first.c, first.takes, first.ps, first.ss);
    TurnMarks(l, first.c, first.takes, first.ps, first.ss);
    StaysMarked(Next(l, first), between, first.c);
  }
}
