/**
 * Budgets from below: a commitment's share is less than two short of its exact share, and once all
 * commitments with a score have taken theirs, less than two for each of them is left of the budget.
 */
module BudgetShares {
  import opened StakingBase
  import opened Arithmetic
  import opened MapSums
  import opened SlidingBuffers
  import opened EpochBudget

  // ----- one share -----

  /** Reward and bonus are each the exact part of the budget, rounded down. */
  lemma {:induction false} RewardExact(s: Score, b: Budget)
    requires b.totalScore > 0 && s.plain <= s.bonused
    ensures Reward(s, b) * b.totalScore <= b.total * s.plain < (Reward(s, b) + 1) * b.totalScore
    ensures Bonus(s, b) * b.totalScore <= b.total * (s.bonused - s.plain) < (Bonus(s, b) + 1) * b.totalScore
  {
    FloorOf(s.plain * b.total, b.totalScore);
    FloorOf((s.bonused - s.plain) * b.total, b.totalScore);
  }

  lemma {:induction false} ShareLow(s: Score, b: Budget)
    requires Pays(b) && s.plain <= s.bonused
    ensures b.total * s.bonused + 2 <= (Share(s, b) + 2) * b.totalScore
  {
    RewardExact(s, b);
    hide Reward, Bonus;
    var q, r := Reward(s, b), Bonus(s, b);
    assert (q + 1) * b.totalScore + (r + 1) * b.totalScore == (q + r + 2) * b.totalScore;
    assert b.total * s.plain + b.total * (s.bonused - s.plain) == b.total * s.bonused;
  }

  /** The pool's budget keeps account of the rewards, without the bonuses, that were taken from it. */
  lemma {:induction false} TakenDistributed(l: Ledger, c: CommitmentId, q: PoolId, p: PoolId)
    requires l.epoch > 0 && InTime(l)
    ensures var b, b', s := BudgetAt(l, p, l.epoch - 1), BudgetAt(Taken(l, c, q), p, l.epoch - 1),
                            ScoreAt(l, c, p, l.epoch - 1);
      && (p == q && Pays(b) ==>
            && b.distributed <= b'.distributed
            && (b'.distributed - b.distributed) * b.totalScore <= b.total * s.plain
            && b.total * s.plain < (b'.distributed - b.distributed + 1) * b.totalScore)
      && (p != q || !Pays(b) ==> b' == b)
  {
    var b, s := BudgetAt(l, p, l.epoch - 1), ScoreAt(l, c, p, l.epoch - 1);
    if Pays(b) {
      FloorOf(s.plain * b.total, b.totalScore);
    }
    hide Bonus, ScoreAt;
  }

  // ----- who has taken a share -----

  /** The scores of the last epoch. */
  ghost function Scorers(l: Ledger, p: PoolId): map<(CommitmentId, PoolId), nat>
    requires l.epoch > 0
  {
    map k | k in l.scores && k.1 == p && BonusIn(l.scores[k], l.epoch - 1) > 0 :: BonusIn(l.scores[k], l.epoch - 1)
  }

  /** Those of commitments that have had their turn. */
  ghost function Takers(l: Ledger, p: PoolId): map<(CommitmentId, PoolId), nat>
    requires l.epoch > 0
  {
    map k | k in l.scores && k.1 == p && Amount(l.lastScoring, k.0) >= l.epoch
            && BonusIn(l.scores[k], l.epoch - 1) > 0 :: BonusIn(l.scores[k], l.epoch - 1)
  }

  lemma {:induction false} ScoredBonus(l: Ledger, c: CommitmentId, q: PoolId, s: Score, k: (CommitmentId, PoolId))
    requires InTime(l) && l.epoch > 0
    ensures var l' := Scored(l, c, q, s);
      && l'.epoch == l.epoch && l'.lastScoring == l.lastScoring
      && (k in l.scores ==>
            k in l'.scores && BonusIn(l'.scores[k], l.epoch - 1) == BonusIn(l.scores[k], l.epoch - 1))
      && (k !in l.scores && k in l'.scores ==> BonusIn(l'.scores[k], l.epoch - 1) == 0)
  {
    hide BudgetAt, BudgetsOf;
    SetGet(ScoresOf(l, c, q), l.epoch, s, NO_SCORE);
  }

  lemma {:induction false} ScoredKeeps(l: Ledger, c: CommitmentId, q: PoolId, s: Score, p: PoolId)
    requires InTime(l) && l.epoch > 0
    ensures var l' := Scored(l, c, q, s);
      Takers(l', p) == Takers(l, p) && Scorers(l', p) == Scorers(l, p)
  {
    hide Scored, BonusIn, InTime;
    forall k
      ensures var l' := Scored(l, c, q, s);
        && l'.epoch == l.epoch && l'.lastScoring == l.lastScoring
        && (k in l.scores ==>
              k in l'.scores && BonusIn(l'.scores[k], l.epoch - 1) == BonusIn(l.scores[k], l.epoch - 1))
        && (k !in l.scores && k in l'.scores ==> BonusIn(l'.scores[k], l.epoch - 1) == 0)
    {
      ScoredBonus(l, c, q, s, k);
    }
    ScoredBonus(l, c, q, s, (c, q));
  }

  lemma {:induction false} ScoredInTime(l: Ledger, c: CommitmentId, q: PoolId, s: Score)
    requires InTime(l) && Amount(l.lastScoring, c) == l.epoch > 0
    ensures InTime(Scored(l, c, q, s))
    ensures Scored(l, c, q, s).charged == l.charged && Scored(l, c, q, s).lastScoring == l.lastScoring
  {
  }

  lemma {:induction false} ScoredAllKeeps(l: Ledger, c: CommitmentId, ss: seq<(PoolId, Score)>, p: PoolId)
    requires InTime(l) && Amount(l.lastScoring, c) == l.epoch > 0
    ensures var l' := ScoredAll(l, c, ss);
      && l'.epoch == l.epoch && Takers(l', p) == Takers(l, p) && Scorers(l', p) == Scorers(l, p)
      && l'.charged == l.charged && BudgetAt(l', p, l.epoch - 1) == BudgetAt(l, p, l.epoch - 1)
    decreases |ss|
  {
    hide Takers, Scorers, InTime, BudgetAt, Scored;
    if ss != [] {
      var l1 := Scored(l, c, ss[0].0, ss[0].1);
      assert l1.epoch == l.epoch by { ScoredAllMarked(l, c, [ss[0]]); ScoredOne(l, c, ss[0]); }
      ScoredKeeps(l, c, ss[0].0, ss[0].1, p);
      ScoredInTime(l, c, ss[0].0, ss[0].1);
      ScoredBudget(l, c, ss[0].0, ss[0].1, p);
      ScoredAllKeeps(l1, c, ss[1..], p);
    }
  }

  lemma {:induction false} ScoredOne(l: Ledger, c: CommitmentId, s: (PoolId, Score))
    ensures ScoredAll(l, c, [s]) == Scored(l, c, s.0, s.1)
  {
    hide Scored;
    assert [s][1..] == [];
  }

  lemma {:induction false} ScoreIsBonus(l: Ledger, c: CommitmentId, p: PoolId)
    requires l.epoch > 0
    ensures ScoreAt(l, c, p, l.epoch - 1).bonused
         == if (c, p) in l.scores then BonusIn(l.scores[(c, p)], l.epoch - 1) else 0
  {
  }

  lemma {:induction false} TakerAt(l: Ledger, p: PoolId, k: (CommitmentId, PoolId))
    requires l.epoch > 0
    ensures var s := ScoreAt(l, k.0, k.1, l.epoch - 1).bonused;
      && (k in Takers(l, p) <==> k.1 == p && Amount(l.lastScoring, k.0) >= l.epoch && s > 0)
      && (k in Takers(l, p) ==> Takers(l, p)[k] == s)
      && (k in Scorers(l, p) <==> k.1 == p && s > 0) && (k in Scorers(l, p) ==> Scorers(l, p)[k] == s)
  {
    ScoreIsBonus(l, k.0, k.1);
    hide BonusIn, ScoreAt;
  }

  lemma {:induction false} MarkedTakers(l: Ledger, c: CommitmentId, p: PoolId)
    requires l.epoch > 0 && Amount(l.lastScoring, c) < l.epoch
    ensures var s := ScoreAt(l, c, p, l.epoch - 1).bonused;
      && (c, p) !in Takers(l, p)
      && Takers(Marked(l, c), p) == if s > 0 then Takers(l, p)[(c, p) := s] else Takers(l, p)
  {
    hide Takers, Scorers;
    var l' := Marked(l, c);
    forall k
      ensures k in Takers(l', p) <==> k in Takers(l, p) || (k == (c, p) && ScoreAt(l, c, p, l.epoch - 1).bonused > 0)
      ensures k in Takers(l', p) ==> Takers(l', p)[k] == ScoreAt(l, k.0, k.1, l.epoch - 1).bonused
      ensures k in Takers(l, p) ==> Takers(l, p)[k] == ScoreAt(l, k.0, k.1, l.epoch - 1).bonused
    {
      TakerAt(l, p, k);
      TakerAt(l', p, k);
    }
    TakerAt(l, p, (c, p));
  }

  // ----- a turn -----

  /** A commitment with a score takes its share of the pool when its turn comes. */
  predicate TakesDue(l: Ledger, step: Step, p: PoolId)
    requires l.epoch > 0
  {
    && step.Commit?
    && (Amount(l.lastScoring, step.c) < l.epoch && ScoreAt(l, step.c, p, l.epoch - 1).bonused > 0 ==>
          step.takes && p in step.ps)
  }

  /** What is left of a budget is less than two for each share taken, and for the scores still to come. */
  ghost predicate Fair(l: Ledger, p: PoolId)
    requires l.epoch > 0
  {
    var b, n := BudgetAt(l, p, l.epoch - 1), |Takers(l, p)|;
    Pays(b) ==> b.total * Total(Takers(l, p)) + 2 * n <= (Amount(l.charged, p) + 2 * n) * b.totalScore
  }

  lemma {:induction false} AddTaker(m: map<(CommitmentId, PoolId), nat>, k: (CommitmentId, PoolId), x: nat)
    requires k !in m
    ensures Total(m[k := x]) == Total(m) + x && |m[k := x]| == |m| + 1
  {
    hide Total;
    assert m[k := x] - {k} == m - {k};
    TotalChange(m, m[k := x], k);
    assert m[k := x].Keys == m.Keys + {k};
  }

  lemma {:induction false} FairGrows(total: nat, score: nat, charged: nat, share: nat, taken: nat, s: nat, n: nat)
    requires total * taken + 2 * n <= (charged + 2 * n) * score && total * s + 2 <= (share + 2) * score
    ensures total * (taken + s) + 2 * (n + 1) <= (charged + share + 2 * (n + 1)) * score
  {
    assert total * (taken + s) == total * taken + total * s;
    assert (charged + 2 * n) * score + (share + 2) * score == (charged + share + 2 * (n + 1)) * score;
  }

  lemma {:induction false} FairMore(total: nat, score: nat, charged: nat, share: nat, taken: nat, n: nat)
    requires total * taken + 2 * n <= (charged + 2 * n) * score
    ensures total * taken + 2 * n <= (charged + share + 2 * n) * score
  {
    MulMonotone(score, charged + 2 * n, charged + share + 2 * n);
  }

  /** The pool's last budget, but for what is marked as distributed, and the scores it is for. */
  ghost predicate SameTerms(l: Ledger, l': Ledger, p: PoolId)
    requires l.epoch > 0
  {
    && l'.epoch == l.epoch && Scorers(l', p) == Scorers(l, p)
    && BudgetAt(l', p, l.epoch - 1).total == BudgetAt(l, p, l.epoch - 1).total
    && BudgetAt(l', p, l.epoch - 1).totalScore == BudgetAt(l, p, l.epoch - 1).totalScore
  }

  lemma {:induction false} FairStep(l: Ledger, l': Ledger, p: PoolId, k: (CommitmentId, PoolId), s: nat, share: nat)
    requires l.epoch > 0 && SameTerms(l, l', p) && Fair(l, p) && k !in Takers(l, p)
    requires Amount(l'.charged, p) == Amount(l.charged, p) + share
    requires Takers(l', p) == if s > 0 then Takers(l, p)[k := s] else Takers(l, p)
    requires var b := BudgetAt(l, p, l.epoch - 1);
      Pays(b) && s > 0 ==> b.total * s + 2 <= (share + 2) * b.totalScore
    ensures Fair(l', p)
  {
    hide Total, Takers, Scorers, BudgetAt;
    var b, m := BudgetAt(l, p, l.epoch - 1), Takers(l, p);
    if Pays(b) {
      if s > 0 {
        AddTaker(m, k, s);
        FairGrows(b.total, b.totalScore, Amount(l.charged, p), share, Total(m), s, |m|);
      } else {
        FairMore(b.total, b.totalScore, Amount(l.charged, p), share, Total(m), |m|);
      }
    }
  }

  lemma {:induction false} TakenTerms(l: Ledger, l1: Ledger, c: CommitmentId, p: PoolId)
    requires l.epoch > 0 && SameScores(l, l1) && SameBudget(l, l1, p) && Amount(l.lastScoring, c) < l.epoch
    ensures var l', s := Marked(l1, c), ScoreAt(l, c, p, l.epoch - 1).bonused;
      && SameTerms(l, l', p) && (c, p) !in Takers(l, p) && l'.charged == l1.charged
      && Takers(l', p) == if s > 0 then Takers(l, p)[(c, p) := s] else Takers(l, p)
  {
    hide Takers, Scorers, BudgetAt, ScoreAt;
    MarkedSame(l, l1, c, p);
    TakersSame(l, l1, p);
    ScorersSame(l1, Marked(l1, c), p);
    MarkedTakers(l1, c, p);
  }

  lemma {:induction false} TakenFairBy(l: Ledger, l1: Ledger, c: CommitmentId, p: PoolId, taken: bool)
    requires l.epoch > 0 && SameScores(l, l1) && SameBudget(l, l1, p)
    requires Amount(l.lastScoring, c) < l.epoch && Fair(l, p)
    requires var s, b := ScoreAt(l, c, p, l.epoch - 1), BudgetAt(l, p, l.epoch - 1);
      && s.plain <= s.bonused && (s.bonused > 0 ==> taken)
      && Amount(l1.charged, p) == Amount(l.charged, p) + if taken then Share(s, b) else 0
    ensures SameTerms(l, Marked(l1, c), p) && Fair(Marked(l1, c), p)
  {
    hide Share, Takers, Scorers, BudgetAt, ScoreAt, SameScores, SameBudget, Fair, SameTerms, Marked;
    var s, b := ScoreAt(l, c, p, l.epoch - 1), BudgetAt(l, p, l.epoch - 1);
    TakenTerms(l, l1, c, p);
    if Pays(b) && s.bonused > 0 {
      ShareLow(s, b);
    }
    FairStep(l, Marked(l1, c), p, (c, p), s.bonused, if taken then Share(s, b) else 0);
  }

  /** After the shares have been taken and the commitment is marked. */
  lemma {:induction false} TakenFair(l: Ledger, c: CommitmentId, takes: bool, ps: seq<PoolId>, p: PoolId)
    requires Good(l) && Once(ps) && Amount(l.lastScoring, c) < l.epoch && Fair(l, p)
    requires ScoreAt(l, c, p, l.epoch - 1).bonused > 0 ==> takes && p in ps
    ensures var l' := Marked(if takes then TakenAll(l, c, ps) else l, c);
      SameTerms(l, l', p) && Fair(l', p)
  {
    hide TakenAll, Good, Share, Takers, Scorers, BudgetAt, ScoreAt, SameScores, SameBudget, Fair, SameTerms, InTime;
    GoodInTime(l);
    GoodOrdered(l, c, p);
    if takes {
      TakenShares(l, c, ps, p);
      TakenFairBy(l, TakenAll(l, c, ps), c, p, p in ps);
    } else {
      GoodSame(l, p);
      TakenFairBy(l, l, c, p, false);
    }
  }

  lemma {:induction false} GoodSame(l: Ledger, p: PoolId)
    requires Good(l) && l.epoch > 0
    ensures SameScores(l, l) && SameBudget(l, l, p)
  {
  }

  lemma {:induction false} GoodOrdered(l: Ledger, c: CommitmentId, p: PoolId)
    requires Good(l) && l.epoch > 0
    ensures ScoreAt(l, c, p, l.epoch - 1).plain <= ScoreAt(l, c, p, l.epoch - 1).bonused
  {
  }

  lemma {:induction false} TakersSame(l: Ledger, l1: Ledger, p: PoolId)
    requires l.epoch > 0 && l1.epoch == l.epoch && l1.scores == l.scores && l1.lastScoring == l.lastScoring
    ensures Takers(l1, p) == Takers(l, p) && Scorers(l1, p) == Scorers(l, p)
  {
    hide BonusIn;
  }

  lemma {:induction false} ScorersSame(l: Ledger, l1: Ledger, p: PoolId)
    requires l.epoch > 0 && l1.epoch == l.epoch && l1.scores == l.scores
    ensures Scorers(l1, p) == Scorers(l, p)
  {
    hide BonusIn;
  }

  lemma {:induction false} TurnFair(l: Ledger, step: Step, p: PoolId)
    requires Good(l) && l.epoch > 0 && WellFormed(step) && Fair(l, p) && TakesDue(l, step, p)
    ensures Good(Next(l, step)) && SameTerms(l, Next(l, step), p) && Fair(Next(l, step), p)
  {
    var c, takes, ps, ss := step.c, step.takes, step.ps, step.ss;
    hide Good, TakenAll, ScoredAll, Fair, Takers, Scorers, BudgetAt, ScoreAt, InTime;
    TurnGood(l, c, takes, ps, ss);
    if Amount(l.lastScoring, c) < l.epoch {
      TakenFair(l, c, takes, ps, p);
      TakenGood(l, c, takes, ps);
      var l1 := Marked(if takes then TakenAll(l, c, ps) else l, c);
      GoodInTime(l1);
      ScoredAllKeeps(l1, c, ss, p);
      FairSame(l1, Next(l, step), p);
    }
  }

  /** A turn marks its commitment, and takes no mark away. */
  lemma {:induction false} TurnLater(l: Ledger, step: Step, d: CommitmentId)
    requires Good(l) && WellFormed(step) && step.Commit?
    ensures Amount(Next(l, step).lastScoring, d) >= if d == step.c then l.epoch else Amount(l.lastScoring, d)
    ensures Amount(Next(l, step).lastScoring, d) >= Amount(l.lastScoring, d)
  {
    hide Good, Turn;
    GoodInTime(l);
    TurnMarks(l, step.c, step.takes, step.ps, step.ss);
  }

  lemma {:induction false} FairSame(l: Ledger, l': Ledger, p: PoolId)
    requires l.epoch > 0 && l'.epoch == l.epoch && Fair(l, p) && Takers(l', p) == Takers(l, p)
    requires l'.charged == l.charged && BudgetAt(l', p, l.epoch - 1) == BudgetAt(l, p, l.epoch - 1)
    ensures Fair(l', p)
  {
    hide Total, Takers, BudgetAt;
  }

  // ----- an epoch -----

  predicate AllTakeDue(l: Ledger, turns: seq<Step>, p: PoolId)
    decreases |turns|
  {
    turns == [] || (l.epoch > 0 && TakesDue(l, turns[0], p) && AllTakeDue(Next(l, turns[0]), turns[1..], p))
  }

  /** The commitment has a turn. */
  predicate HasTurn(turns: seq<Step>, c: CommitmentId) {
    turns != [] && ((turns[0].Commit? && turns[0].c == c) || HasTurn(turns[1..], c))
  }

  lemma {:induction false} TurnsFair(l: Ledger, turns: seq<Step>, p: PoolId)
    requires Good(l) && l.epoch > 0 && AllWellFormed(turns) && Fair(l, p) && AllTakeDue(l, turns, p)
    ensures var l' := Run(l, turns);
      && Good(l') && SameTerms(l, l', p) && Fair(l', p)
      && (forall c :: Amount(l'.lastScoring, c) >= Amount(l.lastScoring, c))
      && (forall c :: HasTurn(turns, c) ==> Amount(l'.lastScoring, c) >= l.epoch)
    decreases |turns|
  {
    hide Good, Next, Fair, Takers, Scorers, TakesDue;
    if turns != [] {
      assert turns[0].Commit? by { CommitOnly(l, turns[0], p); }
      TurnFair(l, turns[0], p);
      forall c
        ensures Amount(Next(l, turns[0]).lastScoring, c) >= Amount(l.lastScoring, c)
        ensures c == turns[0].c ==> Amount(Next(l, turns[0]).lastScoring, c) >= l.epoch
      {
        TurnLater(l, turns[0], c);
      }
      TurnsFair(Next(l, turns[0]), turns[1..], p);
    }
  }

  lemma {:induction false} CommitOnly(l: Ledger, step: Step, p: PoolId)
    requires l.epoch > 0 && TakesDue(l, step, p)
    ensures step.Commit?
  {
  }

  lemma {:induction false} OpenedMarks(l: Ledger, totals: map<PoolId, nat>)
    requires Good(l)
    ensures var l' := Opened(l, totals);
      l'.epoch > 0 && l'.charged == map[] && forall c :: Amount(l'.lastScoring, c) < l'.epoch
  {
    hide PoolOk;
  }

  lemma {:induction false} FreshFair(l: Ledger, totals: map<PoolId, nat>, p: PoolId)
    requires Good(l)
    ensures Fair(Opened(l, totals), p)
  {
    hide BudgetAt, Opened, Good, Takers, Fair, ScoreAt;
    var l' := Opened(l, totals);
    OpenedMarks(l, totals);
    forall k
      ensures k !in Takers(l', p)
    {
      TakerAt(l', p, k);
    }
    NoTakers(l', p);
  }

  lemma {:induction false} NoTakers(l: Ledger, p: PoolId)
    requires l.epoch > 0 && forall k :: k !in Takers(l, p)
    ensures Fair(l, p)
  {
    hide Takers, BudgetAt, Total;
    var m := Takers(l, p);
    TotalZero(m);
    assert |m| == 0 by { assert m == map[]; }
  }

  /** The recorded total score is that of the scorers. */
  lemma {:induction false} ScorersSum(l: Ledger, p: PoolId)
    requires Good(l) && l.epoch > 0
    ensures BudgetAt(l, p, l.epoch - 1).totalScore == Total(Scorers(l, p))
  {
    assert PoolOk(l, p);
    hide Total, BudgetAt, InProportion;
    var all, some := Bonused(l.scores, p, l.epoch - 1), Scorers(l, p);
    TotalBelow(all, some);
    TotalBelow(some, all);
  }

  lemma {:induction false} AllTaken(l: Ledger, p: PoolId)
    requires l.epoch > 0 && forall k :: k in Scorers(l, p) ==> Amount(l.lastScoring, k.0) >= l.epoch
    ensures Takers(l, p) == Scorers(l, p)
  {
    hide Takers, Scorers, ScoreAt;
    forall k
      ensures k in Takers(l, p) <==> k in Scorers(l, p)
      ensures k in Takers(l, p) ==> Takers(l, p)[k] == Scorers(l, p)[k]
    {
      TakerAt(l, p, k);
    }
  }

  lemma {:induction false} NoneLeft(total: nat, score: nat, charged: nat, n: nat)
    requires score > 0 && total * score + 2 * n <= (charged + 2 * n) * score && n > 0
    ensures total < charged + 2 * n
  {
    if total >= charged + 2 * n {
      MulMonotone(score, charged + 2 * n, total);
    }
  }

  lemma {:induction false} Spent(l: Ledger, p: PoolId)
    requires l.epoch > 0 && Fair(l, p) && Takers(l, p) == Scorers(l, p)
    requires BudgetAt(l, p, l.epoch - 1).totalScore == Total(Scorers(l, p))
    ensures var b := BudgetAt(l, p, l.epoch - 1);
      Pays(b) ==> b.total < Amount(l.charged, p) + 2 * |Scorers(l, p)|
  {
    var b, m := BudgetAt(l, p, l.epoch - 1), Scorers(l, p);
    hide BudgetAt, Takers, Scorers;
    if Pays(b) {
      NothingCharged();
      assert m != map[];
      hide Total;
      NoneLeft(b.total, b.totalScore, Amount(l.charged, p), |m|);
    }
  }

  lemma {:induction false} NothingCharged()
    ensures Total<(CommitmentId, PoolId)>(map[]) == 0
  {
  }

  /**
   * In every run: if every commitment with a score in a pool has its turn in the next epoch, and takes
   * its share then, less than two for each of them is left of the budget, and nothing overspent.
   */
  lemma {:induction false} BudgetSpent(steps: seq<Step>, totals: map<PoolId, nat>, turns: seq<Step>, p: PoolId)
    requires AllWellFormed(steps) && AllWellFormed(turns)
    requires AllTakeDue(Next(Run(NO_LEDGER, steps), NewEpoch(totals)), turns, p)
    requires var l := Next(Run(NO_LEDGER, steps), NewEpoch(totals));
      l.epoch > 0 && forall k :: k in Scorers(l, p) ==> HasTurn(turns, k.0)
    ensures var l0 := Next(Run(NO_LEDGER, steps), NewEpoch(totals));
      var b, taken := BudgetAt(l0, p, l0.epoch - 1), Amount(Run(l0, turns).charged, p);
      Pays(b) ==> taken <= b.total < taken + 2 * |Scorers(l0, p)|
  {
    hide Run, Good, Total, Fair, Takers, Scorers, HasTurn, AllTakeDue, BudgetAt;
    EmptyGood();
    RunGood(NO_LEDGER, steps);
    var l := Run(NO_LEDGER, steps);
    OpenedGood(l, totals);
    FreshFair(l, totals, p);
    var l0 := Opened(l, totals);
    TurnsFair(l0, turns, p);
    var l' := Run(l0, turns);
    ScorersSum(l', p);
    AllTaken(l', p);
    WithinBudget(l', p);
    Spent(l', p);
  }
}
