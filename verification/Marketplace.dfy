/** The marketplace operations on the storage of one job, in the order in which they read and write it. */
module Marketplace {
  import opened Wrappers
  import opened MapSums
  import opened Schedules
  import opened JobMarket
  import opened JobRuns

  class Market {
    const c: Settings
    var j: Job

    ghost predicate Valid()
      reads this
    {
      Sound(j) && c.percent <= 100
    }

    constructor (c: Settings)
      requires c.percent <= 100
      ensures Valid() && this.c == c && j == NO_JOB
    {
      hide Sound;
      this.c, j := c, NO_JOB;
      new;
      EmptySound();
    }

    /** Registers a job, matches it if a match comes with it, and locks its whole reward. */
    method RegisterHook(r: Registration, instant: Option<seq<Plan>>, now: nat, lockable: bool) returns (ok: bool)
      requires Valid()
      modifies this
      ensures Valid() && ok == Registering(old(j), r, instant, now, lockable).Some?
      ensures j == if ok then Registering(old(j), r, instant, now, lockable).value else old(j)
    {
      hide Sound, Matching, TotalReward;
      if Registering(j, r, instant, now, lockable).Some? {
        RegisteringSound(j, r, instant, now, lockable);
      }
      if !Registrable(r, now) || (j.status.Some? && j.status.value != Open) {
        return false;
      }
      var before := j;
      j := Stored(j, r);
      if instant.Some? {
        var matched := MatchOpen(instant.value, None, now);
        if !matched {
          j := before;
          return false;
        }
      }
      if !lockable {
        j := before;
        return false;
      }
      j := j.(budget := j.budget + TotalReward(r), locked := j.locked + TotalReward(r),
              funded := j.funded + TotalReward(r));
      return true;
    }

    /** Proposes processors for all slots of an open job. */
    method ProcessMatching(plans: seq<Plan>, matcher: Option<Matcher>, now: nat) returns (ok: bool)
      requires Valid()
      modifies this
      ensures Valid() && ok == Matching(old(j), plans, matcher, now).Some?
      ensures j == if ok then Matching(old(j), plans, matcher, now).value else old(j)
    {
      hide Sound, Matching;
      if Matching(j, plans, matcher, now).Some? {
        MatchingSound(j, plans, matcher, now);
      }
      ok := MatchOpen(plans, matcher, now);
    }

    method MatchOpen(plans: seq<Plan>, matcher: Option<Matcher>, now: nat) returns (ok: bool)
      modifies this
      ensures ok == Matching(old(j), plans, matcher, now).Some?
      ensures j == if ok then Matching(old(j), plans, matcher, now).value else old(j)
    {
      var before := j;
      if j.status.None? {
        return false;
      }
      if j.status.value != Open {
        return true;
      }
      if j.registration.None? {
        return false;
      }
      var r := j.registration.value;
      if now >= r.schedule.start || |plans| != r.slots {
        return false;
      }
      assert plans[0..] == plans;
      for i := 0 to |plans|
        invariant j.registration == before.registration && j.status == before.status
        invariant AssignedAll(before, plans) == AssignedAll(j, plans[i..])
        invariant j.matcher == before.matcher
      {
        var plan := plans[i];
        assert plans[i..][0] == plan && plans[i..][1..] == plans[i + 1..];
        if !plan.admissible || plan.fee > r.reward || plan.processor in j.matches {
          j := before;
          return false;
        }
        var m := Match(All, plan.delay, plan.fee, false, Count(r), 0);
        j := j.(matches := j.matches[plan.processor := m], processors := j.processors + {plan.processor},
                paid := j.paid[plan.processor := 0], commission := j.commission[plan.processor := 0]);
      }
      if matcher.Some? && plans != [] {
        j := j.(matcher := matcher);
      }
      j := j.(status := Some(Matched));
      return true;
    }

    /** Acknowledges a match; the first time, the job's status, the next report and the matcher's fee follow. */
    method ProcessAcknowledgeMatch(p: Processor, execution: Execution, now: nat) returns (ok: bool)
      requires Valid()
      modifies this
      ensures Valid() && ok == Acknowledging(old(j), p, execution, now, c.tolerance, c.percent).Some?
      ensures j == if ok then Acknowledging(old(j), p, execution, now, c.tolerance, c.percent).value else old(j)
    {
      hide Sound, MatcherFee, ReportExpected, StatusRaised, Count;
      var before := j;
      if Acknowledging(j, p, execution, now, c.tolerance, c.percent).Some? {
        AcknowledgingSound(j, p, execution, now, c.tolerance, c.percent);
      }
      if !MayAcknowledge(j, p, execution, now) {
        return false;
      }
      var m := j.matches[p];
      if m.acknowledged {
        return true;
      }
      m := m.(acknowledged := true);
      j := j.(matches := j.matches[p := m]);
      var raised := StatusRaised(j, execution);
      if raised.None? {
        j := before;
        return false;
      }
      j := raised.value;
      j := j.(nextReport := j.nextReport[p := ReportExpected(before, p, m, now, c.tolerance)]);
      if j.matcher.Some? {
        var fee := MatcherFee(m, before.registration.value, c.percent);
        if fee > j.budget {
          j := before;
          return false;
        }
        j := j.(budget := j.budget - fee, spent := j.spent + fee, paid := j.paid[p := Amount(j.paid, p) + fee],
                commission := j.commission[p := fee]);
      }
      return true;
    }

    /** A report: counted, tied to an execution, paid; the last one ends the match. */
    method DoReport(p: Processor, now: nat) returns (ok: bool)
      requires Valid()
      modifies this
      ensures Valid() && ok == Reporting(old(j), p, now, c.tolerance).Some?
      ensures j == if ok then Reporting(old(j), p, now, c.tolerance).value else old(j)
    {
      hide Sound, Timely, CurrentIndex;
      var before := j;
      if Reporting(j, p, now, c.tolerance).Some? {
        ReportingSound(j, p, now, c.tolerance);
      }
      if !MayReport(j, p) {
        return false;
      }
      var m := j.matches[p];
      var s := j.registration.value.schedule;
      j := j.(matches := j.matches[p := m.(met := m.met + 1)]);

      var current := CurrentIndex(s, m.delay, now);
      var index := if current.Some? then current.value else 0;
      var expected := if p in j.nextReport then j.nextReport[p] else index;
      if index < expected {
        j := before;
        return false;
      }
      if !Timely(s, m.delay, now, expected, c.tolerance) && expected != index {
        if !Timely(s, m.delay, now, index, c.tolerance) {
          j := before;
          return false;
        }
        expected := index;
      }
      var next := NextExpected(m, expected);
      j := j.(nextReport := if next.Some? then j.nextReport[p := next.value] else j.nextReport - {p});

      if m.fee > j.budget {
        j := before;
        return false;
      }
      j := j.(budget := j.budget - m.fee, spent := j.spent + m.fee, paid := j.paid[p := Amount(j.paid, p) + m.fee]);
      if next.None? {
        assert j.matches - {p} == before.matches - {p};
        j := j.(matches := j.matches - {p}, processors := j.processors - {p});
      }
      return true;
    }

    /** Ends a job: pays the processors of an assigned one once more and refunds the rest. */
    method DeregisterHook(now: nat) returns (ok: bool, ghost cleared: set<nat>)
      requires Valid()
      modifies this
      ensures Valid() && ok == MayEnd(old(j), now)
      ensures j == if ok then Gone(old(j), cleared, LeftAtEnd(old(j), now)) else old(j)
      ensures ok ==> cleared <= old(j).executions.Keys && |cleared| <= ClearLimit(old(j))
      ensures ok ==> |cleared| == ClearLimit(old(j)) || j.executions == map[]
    {
      hide Sound, Count, ClearLimit, LeftAtEnd, Total, Payouts;
      cleared := {};
      ghost var before := j;
      var limit := if j.status.None? || j.registration.None? then 0 else ClearLimit(j);
      var budget := j.budget;
      ok := Settle(now);
      if ok {
        j := j.(budget := 0, spent := j.spent + (budget - j.budget), refunded := j.refunded + j.budget,
                registration := None, status := None, paid := map[], commission := map[], locked := 0);
        cleared := ClearExecutions(limit);
        GoneSound(before, cleared, LeftAtEnd(before, now));
      }
    }

    /** What ending a job does by its status: matches and processors go, and those of an assigned one are paid. */
    method Settle(now: nat) returns (ok: bool)
      modifies this
      ensures ok == MayEnd(old(j), now)
      ensures !ok ==> j == old(j)
      ensures ok ==> LeftAtEnd(old(j), now) <= old(j).budget
      ensures ok ==> var g := Gone(old(j), {}, LeftAtEnd(old(j), now));
        j == old(j).(matches := g.matches, processors := g.processors, nextReport := g.nextReport, matcher := g.matcher,
                     budget := LeftAtEnd(old(j), now))
    {
      hide Total, Payouts;
      if j.status.None? || j.registration.None? {
        return false;
      }
      var before := j;
      var status := j.status.value;
      if status == Matched {
        j := j.(matches := j.matches - j.processors, processors := {});
      } else if status.Assigned? {
        var paid := PayAtEnd(now);
        if !paid {
          j := before;
          return false;
        }
        j := j.(nextReport := map[], matcher := None);
      }
      return true;
    }

    /** Clears up to `limit` statuses of executions; which, is up to the storage. */
    method ClearExecutions(limit: nat) returns (ghost cleared: set<nat>)
      modifies this
      ensures cleared <= old(j).executions.Keys && |cleared| <= limit
      ensures j == old(j).(executions := old(j).executions - cleared)
      ensures |cleared| == limit || j.executions == map[]
    {
      cleared := {};
      ghost var before := j;
      var left := limit;
      assert before.executions - {} == before.executions;
      while left > 0 && j.executions != map[]
        invariant cleared <= before.executions.Keys && |cleared| == limit - left
        invariant j == before.(executions := before.executions - cleared)
        decreases left
      {
        var i :| i in j.executions;
        assert before.executions - (cleared + {i}) == (before.executions - cleared) - {i};
        j := j.(executions := j.executions - {i});
        cleared := cleared + {i};
        left := left - 1;
      }
    }

    /** Drains the assigned processors and pays those with an acknowledged match. */
    method PayAtEnd(now: nat) returns (ok: bool)
      requires j.registration.Some?
      modifies this
      ensures ok == (Total(Payouts(old(j), now)) <= old(j).budget)
      ensures ok ==> j == old(j).(matches := old(j).matches - old(j).processors, processors := {}, budget := j.budget)
      ensures ok ==> j.budget + Total(Payouts(old(j), now)) == old(j).budget
    {
      hide Total, LeftOf, Payouts, EndFee;
      var before := j;
      ghost var due := Payouts(before, now);
      LeftAll(before, now);
      assert before.matches - {} == before.matches;
      while j.processors != {}
        invariant j.processors <= before.processors
        invariant j == before.(matches := before.matches - (before.processors - j.processors),
                               processors := j.processors, budget := j.budget)
        invariant j.budget + Total(due) == before.budget + Total(LeftOf(due, j.processors))
        decreases |j.processors|
      {
        var p :| p in j.processors;
        LeftStep(due, j.processors, p);
        DueAtEnd(before, now, p);
        DrainStep(before, j.processors, p);
        SameAtEnd(before, j, now, p);
        var paid := DrainOne(p, now);
        if !paid {
          return false;
        }
      }
      return true;
    }

    /** Takes out one processor and its match, and pays it if it is due. */
    method DrainOne(p: Processor, now: nat) returns (ok: bool)
      requires j.registration.Some? && p in j.processors
      modifies this
      ensures ok == (EndFee(old(j), p, now) <= old(j).budget)
      ensures ok ==> j == old(j).(processors := old(j).processors - {p}, matches := old(j).matches - {p},
                                  budget := old(j).budget - EndFee(old(j), p, now))
    {
      hide NextIndex;
      var m := if p in j.matches then Some(j.matches[p]) else None;
      var s := j.registration.value.schedule;
      assert p !in j.matches ==> j.matches - {p} == j.matches;
      j := j.(processors := j.processors - {p}, matches := j.matches - {p});
      if m.Some? {
        if m.value.execution.Index? && m.value.execution.i != NextIndex(s, m.value.delay, now) {
          return true;
        }
        if m.value.acknowledged {
          if m.value.fee > j.budget {
            return false;
          }
          j := j.(budget := j.budget - m.value.fee);
        }
      }
      return true;
    }

    /** Removes a match of no more use, for its processor or on its behalf. */
    method CleanupAssignment(p: Processor, now: nat)
      requires Valid()
      modifies this
      ensures Valid() && j == CleanedUp(old(j), p, now, c.tolerance)
    {
      hide Sound, Invalid;
      WithoutSound(j, {p});
      if p !in j.matches {
        return;
      }
      if j.registration.None? || Invalid(j.matches[p], j.registration.value.schedule, now, c.tolerance) {
        j := j.(matches := j.matches - {p}, processors := j.processors - {p});
      }
    }

    /** Removes up to `most` matches of a job that is gone; which, is up to the storage. */
    method CleanupStorage(most: nat) returns (ghost ps: set<Processor>)
      requires Valid()
      modifies this
      ensures Valid() && ps <= old(j).processors && |ps| <= most
      ensures j == if old(j).registration.None? then Without(old(j), ps) else old(j)
      ensures old(j).registration.None? ==> |ps| == most || j.processors == {}
    {
      hide Sound;
      ps := {};
      if j.registration.Some? {
        return;
      }
      ghost var before := j;
      var left := most;
      while left > 0 && j.processors != {}
        invariant ps <= before.processors && |ps| == most - left
        invariant j == Without(before, ps)
        decreases left
      {
        var p :| p in j.processors;
        assert before.matches - (ps + {p}) == (before.matches - ps) - {p};
        assert before.processors - (ps + {p}) == (before.processors - ps) - {p};
        j := j.(processors := j.processors - {p}, matches := j.matches - {p});
        ps := ps + {p};
        left := left - 1;
      }
      WithoutSound(before, ps);
    }

    /** Removes all matches of a job that has expired or is gone. */
    method CleanupJobAssignments(now: nat)
      requires Valid()
      modifies this
      ensures Valid() && j == if Over(old(j), now, c.tolerance) then Without(old(j), old(j).processors) else old(j)
    {
      hide Sound, Expired;
      WithoutSound(j, j.processors);
      if Over(j, now, c.tolerance) {
        ghost var before := j;
        assert before.matches - {} == before.matches;
        while j.processors != {}
          invariant j.processors <= before.processors
          invariant j == before.(matches := before.matches - (before.processors - j.processors),
                                 processors := j.processors)
          decreases |j.processors|
        {
          var p :| p in j.processors;
          DrainStep(before, j.processors, p);
          j := j.(processors := j.processors - {p}, matches := j.matches - {p});
        }
        assert before.processors - {} == before.processors && before.processors - before.processors == {};
      }
    }

    /** Drops the matches and the status of executions at least two before. */
    method CleanupPreviousExecutionMatches(index: nat)
      modifies this
      ensures j == Without(old(j), Outdated(old(j), index)).(
                     executions := if index < 2 then old(j).executions else old(j).executions - {index - 2})
    {
      if index < 2 {
        assert Outdated(j, index) == {};
        assert j.matches - {} == j.matches && j.processors - {} == j.processors;
        return;
      }
      hide Outdated;
      var before := j;
      j := j.(executions := j.executions - {index - 2});
      var todo, gone := before.processors, {};
      OutdatedFrom(before, index);
      assert before.matches - {} == before.matches;
      while todo != {}
        invariant todo <= before.processors && gone !! todo
        invariant gone == Outdated(before, index) - todo
        invariant j == before.(executions := before.executions - {index - 2}, matches := before.matches - gone)
        decreases |todo|
      {
        var p :| p in todo;
        OutdatedAt(before, index, p);
        if p in j.matches {
          var e := j.matches[p].execution;
          if e.Index? && e.i <= index - 2 {
            assert before.matches - (gone + {p}) == (before.matches - gone) - {p};
            j := j.(matches := j.matches - {p});
            gone := gone + {p};
          }
        } else {
          assert before.matches - (gone + {p}) == before.matches - gone;
          gone := gone + {p};
        }
        todo := todo - {p};
      }
      j := j.(processors := j.processors - gone);
    }

    /** Proposes processors for one execution of a job, dropping those of executions two before. */
    method ProcessExecutionMatching(index: nat, plans: seq<Plan>, matcher: Option<Matcher>, now: nat) returns (ok: bool)
      requires Valid()
      modifies this
      ensures Valid() && ok == ExecutionMatching(old(j), index, plans, matcher, now, c.delta).Some?
      ensures j == if ok then ExecutionMatching(old(j), index, plans, matcher, now, c.delta).value else old(j)
    {
      hide Sound, Outdated;
      var before := j;
      if ExecutionMatching(j, index, plans, matcher, now, c.delta).Some? {
        ExecutionMatchingSound(j, index, plans, matcher, now, c.delta);
      }
      if StatusOf(j, index) != Open {
        return true;
      }
      if j.registration.None? {
        return false;
      }
      var r := j.registration.value;
      var start := r.schedule.NthStartTime(0, index);
      if start.None? || now >= start.value || now + c.delta < start.value || |plans| != r.slots {
        return false;
      }
      CleanupPreviousExecutionMatches(index);
      j := j.(mixed := true);
      ghost var cleaned := j;
      assert plans[0..] == plans;
      for i := 0 to |plans|
        invariant j.registration == before.registration
        invariant AssignedOnes(cleaned, plans, index) == AssignedOnes(j, plans[i..], index)
      {
        var plan := plans[i];
        assert plans[i..][0] == plan && plans[i..][1..] == plans[i + 1..];
        if !plan.admissible || plan.fee > r.reward {
          j := before;
          return false;
        }
        if plan.processor in j.matches && j.matches[plan.processor].execution == Index(index) {
          j := before;
          return false;
        }
        j := AssigningOne(j, plan, index);
      }
      j := j.(status := Some(Matched), executions := j.executions[index := Matched]);
      if matcher.Some? {
        j := j.(matcher := matcher);
      }
      return true;
    }
  }

  // ----- draining -----

  lemma {:induction false} OutdatedFrom(j: Job, index: nat)
    ensures Outdated(j, index) <= j.processors
  {
  }

  lemma {:induction false} OutdatedAt(j: Job, index: nat, p: Processor)
    requires index >= 2 && p in j.processors
    ensures p in Outdated(j, index) <==>
      (p in j.matches ==> j.matches[p].execution.Index? && j.matches[p].execution.i <= index - 2)
  {
  }

  ghost function LeftOf(due: map<Processor, nat>, ps: set<Processor>): map<Processor, nat> {
    map p | p in due && p in ps :: due[p]
  }

  lemma {:induction false} LeftStep(due: map<Processor, nat>, ps: set<Processor>, p: Processor)
    requires p in ps
    ensures Total(LeftOf(due, ps)) == Total(LeftOf(due, ps - {p})) + Amount(due, p)
  {
    hide Total;
    assert LeftOf(due, ps - {p}) - {p} == LeftOf(due, ps) - {p};
    TotalChange(LeftOf(due, ps), LeftOf(due, ps - {p}), p);
  }

  lemma {:induction false} LeftAll(j: Job, now: nat)
    requires j.registration.Some?
    ensures LeftOf(Payouts(j, now), j.processors) == Payouts(j, now)
    ensures Total(LeftOf(Payouts(j, now), {})) == 0
  {
  }

  lemma {:induction false} DueAtEnd(j: Job, now: nat, p: Processor)
    requires j.registration.Some? && p in j.processors
    ensures Amount(Payouts(j, now), p) == EndFee(j, p, now)
  {
  }

  function EndFee(j: Job, p: Processor, now: nat): nat
    requires j.registration.Some?
  {
    if PaidAtEnd(j, p, now) then j.matches[p].fee else 0
  }

  lemma {:induction false} SameAtEnd(j: Job, j': Job, now: nat, p: Processor)
    requires j.registration.Some? && j'.registration == j.registration && p in j'.processors
      && j'.processors <= j.processors
    requires j'.matches == j.matches - (j.processors - j'.processors)
    ensures EndFee(j', p, now) == EndFee(j, p, now)
  {
  }

  lemma {:induction false} DrainStep(j: Job, ps: set<Processor>, p: Processor)
    requires ps <= j.processors && p in ps
    ensures j.matches - (j.processors - (ps - {p})) == (j.matches - (j.processors - ps)) - {p}
    ensures p in j.matches <==> p in j.matches - (j.processors - ps)
  {
  }
}
