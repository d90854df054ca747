/** When jobs are registered, matched, acknowledged and cleaned up, and what that leaves in storage. */
module JobRules {
  import opened Wrappers
  import opened Arithmetic
  import opened MapSums
  import opened Schedules
  import opened JobMarket
  import opened JobRuns

  // ----- matching -----

  /** Each plan is for a processor of its own that is not matched yet, at a price within the reward. */
  predicate Fitting(j: Job, plans: seq<Plan>)
    requires j.registration.Some?
  {
    && (forall i :: 0 <= i < |plans| ==>
          plans[i].admissible && plans[i].fee <= j.registration.value.reward && plans[i].processor !in j.matches)
    && (forall i, k :: 0 <= i < k < |plans| ==> plans[i].processor != plans[k].processor)
  }

  /** The matches of a job, with those of the plans. */
  ghost predicate MatchedBy(j: Job, j': Job, plans: seq<Plan>)
    requires j.registration.Some?
  {
    && (forall i :: 0 <= i < |plans| ==>
          && plans[i].processor in j'.matches
          && j'.matches[plans[i].processor]
             == Match(All, plans[i].delay, plans[i].fee, false, Count(j.registration.value), 0))
    && (forall p :: p in j.matches ==> p in j'.matches && j'.matches[p] == j.matches[p])
    && (forall p :: p in j'.matches ==> p in j.matches || exists i :: 0 <= i < |plans| && plans[i].processor == p)
  }

  lemma {:induction false} AssignedWhen(j: Job, plans: seq<Plan>)
    requires j.registration.Some?
    ensures AssignedAll(j, plans).Some? <==> Fitting(j, plans)
    decreases |plans|
  {
    if plans != [] {
      var plan, rest := plans[0], plans[1..];
      if plan.admissible && plan.fee <= j.registration.value.reward && plan.processor !in j.matches {
        var j1 := Assigning(j, plan);
        AssignedWhen(j1, rest);
        if Fitting(j1, rest) {
          FittingMore(j, plans);
        }
        if Fitting(j, plans) {
          assert forall i :: 0 <= i < |rest| ==> rest[i] == plans[i + 1];
        }
      }
    }
  }

  lemma {:induction false} FittingMore(j: Job, plans: seq<Plan>)
    requires j.registration.Some? && plans != [] && Fitting(Assigning(j, plans[0]), plans[1..])
    requires plans[0].admissible && plans[0].fee <= j.registration.value.reward && plans[0].processor !in j.matches
    ensures Fitting(j, plans)
  {
    var j1, rest := Assigning(j, plans[0]), plans[1..];
    forall i | 0 <= i < |plans|
      ensures plans[i].admissible && plans[i].fee <= j.registration.value.reward && plans[i].processor !in j.matches
      ensures i > 0 ==> plans[i].processor != plans[0].processor
    {
      if i > 0 {
        assert rest[i - 1] == plans[i];
      }
    }
    forall i, k | 0 <= i < k < |plans|
      ensures plans[i].processor != plans[k].processor
    {
      if i > 0 {
        assert rest[i - 1] == plans[i] && rest[k - 1] == plans[k];
      }
    }
  }

  lemma {:induction false} AssignedMatches(j: Job, plans: seq<Plan>)
    requires j.registration.Some? && AssignedAll(j, plans).Some?
    ensures MatchedBy(j, AssignedAll(j, plans).value, plans)
    decreases |plans|
  {
    hide Count;
    if plans != [] {
      var j1, j', rest := Assigning(j, plans[0]), AssignedAll(j, plans).value, plans[1..];
      AssignedMatches(j1, rest);
      forall i | 0 <= i < |plans|
        ensures plans[i].processor in j'.matches
        ensures j'.matches[plans[i].processor]
             == Match(All, plans[i].delay, plans[i].fee, false, Count(j.registration.value), 0)
      {
        if i > 0 {
          assert rest[i - 1] == plans[i];
        } else {
          assert plans[0].processor in j1.matches;
        }
      }
      forall p | p in j'.matches && p !in j.matches
        ensures exists i :: 0 <= i < |plans| && plans[i].processor == p
      {
        if p == plans[0].processor {
          assert plans[0].processor == p;
        } else {
          assert p !in j1.matches;
          var i :| 0 <= i < |rest| && rest[i].processor == p;
          assert plans[i + 1].processor == p;
        }
      }
    }
  }

  /** An open job is matched exactly before it begins, by as many fitting plans as it has slots. */
  lemma {:induction false} MatchedWhen(j: Job, plans: seq<Plan>, matcher: Option<Matcher>, now: nat)
    requires j.status == Some(Open) && j.registration.Some?
    ensures var r := Matching(j, plans, matcher, now);
      && (r.Some? <==> && now < j.registration.value.schedule.start && |plans| == j.registration.value.slots
                       && Fitting(j, plans))
      && (r.Some? ==> && r.value.status == Some(Matched) && MatchedBy(j, r.value, plans)
                      && (matcher.Some? && plans != [] ==> r.value.matcher == matcher))
  {
    AssignedWhen(j, plans);
    hide AssignedAll, Fitting;
    if Fitting(j, plans) {
      AssignedMatches(j, plans);
      MatchedSame(j, AssignedAll(j, plans).value, plans);
    }
    hide MatchedBy;
  }

  lemma {:induction false} MatchedSame(j: Job, j': Job, plans: seq<Plan>)
    requires j.registration.Some? && MatchedBy(j, j', plans)
    ensures forall m: Option<Matcher> :: MatchedBy(j, j'.(status := Some(Matched), matcher := m), plans)
  {
  }

  // ----- registering -----

  /**
   * A job is registered exactly with a valid schedule in the future and not too many executions, if it
   * is new or still open, its reward can be locked and its instant match, if any, goes through.
   */
  lemma {:induction false} RegisteredWhen(j: Job, r: Registration, instant: Option<seq<Plan>>, now: nat, lockable: bool)
    ensures Registering(j, r, instant, now, lockable).Some? <==>
      && 0 < r.schedule.duration < r.schedule.interval && now <= r.schedule.start < r.schedule.end
      && r.schedule.ExecutionCount() <= MAX_EXECUTIONS && r.slots > 0 && lockable
      && (j.status.None? || j.status.value == Open)
      && (instant.Some? ==>
            now < r.schedule.start && |instant.value| == r.slots && Fitting(Stored(j, r), instant.value))
    ensures Registering(j, r, instant, now, lockable).Some? ==>
      && var j' := Registering(j, r, instant, now, lockable).value;
      && j'.registration == Some(r) && j'.status == Some(if instant.Some? then Matched else Open)
      && j'.budget == j.budget + r.reward * r.slots * r.schedule.ExecutionCount()
  {
    if r.schedule.interval > 0 {
      CountPositive(r.schedule);
    }
    hide Fitting;
    if instant.Some? {
      MatchedWhen(Stored(j, r), instant.value, None, now);
      if Fitting(Stored(j, r), instant.value) {
        AssignedWhen(Stored(j, r), instant.value);
        AssignedKeeps(Stored(j, r), instant.value);
      }
    }
    hide Schedule.ExecutionCount, AssignedAll;
  }

  lemma {:induction false} CountPositive(s: Schedule)
    requires s.interval > 0
    ensures s.ExecutionCount() > 0 <==> s.start < s.end
  {
    ExecutionsFit(s, 0);
  }

  lemma {:induction false} AssignedKeeps(j: Job, plans: seq<Plan>)
    requires j.registration.Some? && AssignedAll(j, plans).Some?
    ensures var j' := AssignedAll(j, plans).value;
      j'.registration == j.registration && j'.budget == j.budget
    decreases |plans|
  {
    if plans != [] {
      AssignedKeeps(Assigning(j, plans[0]), plans[1..]);
    }
  }

  // ----- acknowledging -----

  lemma {:induction false} MayAcknowledgeWhen(j: Job, p: Processor, now: nat)
    ensures MayAcknowledge(j, p, All, now) <==>
      && j.registration.Some? && p in j.matches && j.matches[p].execution.All?
      && now <= j.registration.value.schedule.start + j.matches[p].delay
  {
  }

  /** An execution can be reported from its beginning until the tolerance after its end. */
  lemma {:induction false} TimelyWhen(s: Schedule, delay: nat, now: nat, i: nat, tolerance: nat)
    ensures Timely(s, delay, now, i, tolerance) <==>
      && i < s.ExecutionCount()
      && NthInterval(s, delay, i).0 <= now < NthInterval(s, delay, i).1 + tolerance
  {
    hide Schedule.ExecutionCount;
  }

  /** A match is acknowledged before it begins. */
  lemma {:induction false} AcknowledgedWhen(j: Job, p: Processor, execution: Execution, now: nat, tolerance: nat,
                                            percent: nat)
    requires Acknowledging(j, p, execution, now, tolerance, percent).Some?
    ensures j.registration.Some? && p in j.matches && j.matches[p].execution == execution
    ensures var s, m, j' := j.registration.value.schedule, j.matches[p],
                            Acknowledging(j, p, execution, now, tolerance, percent).value;
      && (execution.All? ==> now <= s.start + m.delay)
      && (execution.Index? && execution.i < s.ExecutionCount() ==> now <= NthInterval(s, m.delay, execution.i).0)
      && p in j'.matches && j'.matches[p].acknowledged && (m.acknowledged ==> j' == j)
  {
    hide MatcherFee, Schedule.ExecutionCount, Timely, StatusRaised, ReportExpected;
    var m := j.matches[p].(acknowledged := true);
    StatusRaisedKeeps(j.(matches := j.matches[p := m]), m.execution);
  }

  function CountOf(status: Status): nat {
    if status.Assigned? then status.count else 0
  }

  /** One acknowledgment more is counted, of the job or of the execution, and a report expected. */
  lemma {:induction false} AcknowledgedCounts(j: Job, p: Processor, now: nat, tolerance: nat, percent: nat)
    requires j.registration.Some? && p in j.matches && FirstAcknowledged(j, p, now, tolerance, percent).Some?
    ensures var j' := FirstAcknowledged(j, p, now, tolerance, percent).value;
      && j'.status.Some? && p in j'.nextReport
      && match j.matches[p].execution
         case All =>
           && j.status.Some? && j'.status.value == Assigned(CountOf(j.status.value) + 1)
           && j'.executions == j.executions && j'.nextReport[p] == 0
         case Index(i) =>
           && i in j.executions && j'.status.value == Assigned(CountOf(j.executions[i]) + 1)
           && j'.executions == j.executions[i := j'.status.value]
           && (Expected(j, p, now, tolerance) ==> p in j.nextReport && j'.nextReport[p] == j.nextReport[p])
           && (!Expected(j, p, now, tolerance) ==> j'.nextReport[p] == i)
  {
    hide MatcherFee, Schedule.ExecutionCount, NthInterval, StatusRaised, ReportExpected, Expected;
    var m := j.matches[p].(acknowledged := true);
    RaisedCounts(j.(matches := j.matches[p := m]), m.execution);
    ExpectedReport(j, p, m, now, tolerance);
  }

  lemma {:induction false} RaisedCounts(j: Job, execution: Execution)
    ensures var r := StatusRaised(j, execution);
      r.Some? ==>
        && r.value == j.(status := r.value.status, executions := r.value.executions) && r.value.status.Some?
        && match execution
           case All =>
             && j.status.Some? && r.value.status.value == Assigned(CountOf(j.status.value) + 1)
             && r.value.executions == j.executions
           case Index(i) =>
             && i in j.executions && r.value.status.value == Assigned(CountOf(j.executions[i]) + 1)
             && r.value.executions == j.executions[i := r.value.status.value]
  {
  }

  lemma {:induction false} ExpectedReport(j: Job, p: Processor, m: Match, now: nat, tolerance: nat)
    requires j.registration.Some? && p in j.matches && m == j.matches[p].(acknowledged := true)
    ensures Expected(j, p, now, tolerance) ==> p in j.nextReport
    ensures ReportExpected(j, p, m, now, tolerance)
         == match m.execution
            case All => 0
            case Index(i) => if Expected(j, p, now, tolerance) then j.nextReport[p] else i
  {
    hide Schedule.ExecutionCount, NthInterval;
    if p in j.nextReport {
      TimelyWhen(j.registration.value.schedule, j.matches[p].delay, now, j.nextReport[p], tolerance);
    }
    hide Timely;
  }

  /** The report expected next is one that can still be made. */
  predicate Expected(j: Job, p: Processor, now: nat, tolerance: nat)
    requires j.registration.Some? && p in j.matches
  {
    && p in j.nextReport && j.nextReport[p] < j.registration.value.schedule.ExecutionCount()
    && var x := NthInterval(j.registration.value.schedule, j.matches[p].delay, j.nextReport[p]);
    x.0 <= now < x.1 + tolerance
  }

  /** A report within the tolerance for the execution expected is accepted for it. */
  lemma {:induction false} ToleratedReport(j: Job, p: Processor, now: nat, tolerance: nat)
    requires j.registration.Some? && j.registration.value.schedule.Valid() && p in j.matches
    requires Expected(j, p, now, tolerance)
    ensures ReportedIndex(j, p, now, tolerance) == Some(j.nextReport[p])
  {
    var s, delay, i := j.registration.value.schedule, j.matches[p].delay, j.nextReport[p];
    TimelyWhen(s, delay, now, i, tolerance);
    CurrentFrom(s, delay, now, i);
    hide Timely, CurrentIndex;
  }

  /** The execution can be reported now. */
  predicate Reportable(s: Schedule, delay: nat, now: nat, tolerance: nat, i: nat) {
    i < s.ExecutionCount() && NthInterval(s, delay, i).0 <= now < NthInterval(s, delay, i).1 + tolerance
  }

  /**
   * A report is refused if the one expected is still to come, and if it came too late for the one
   * expected and for the current one; it is for the one expected if it can be, or else for the current.
   */
  lemma {:induction false} ReportedWhen(j: Job, p: Processor, now: nat, tolerance: nat)
    requires j.registration.Some? && p in j.matches && p in j.nextReport
    ensures var s, delay, expected := j.registration.value.schedule, j.matches[p].delay, j.nextReport[p];
      var current := if CurrentIndex(s, delay, now).Some? then CurrentIndex(s, delay, now).value else 0;
      ReportedIndex(j, p, now, tolerance)
      == if expected == current || (expected < current && Reportable(s, delay, now, tolerance, expected))
         then Some(expected)
         else if expected < current && Reportable(s, delay, now, tolerance, current) then Some(current) else None
  {
    var s, delay := j.registration.value.schedule, j.matches[p].delay;
    TimelyWhen(s, delay, now, j.nextReport[p], tolerance);
    if CurrentIndex(s, delay, now).Some? {
      TimelyWhen(s, delay, now, CurrentIndex(s, delay, now).value, tolerance);
    }
    hide Timely, CurrentIndex;
  }

  /**
   * After a report on the whole job the next execution is expected, and after the last one the match is
   * gone; a match of one execution is gone once that is reported.
   */
  lemma {:induction false} ReportLeaves(j: Job, p: Processor, now: nat, tolerance: nat)
    requires Reporting(j, p, now, tolerance).Some?
    ensures p in j.matches && j.registration.Some? && ReportedIndex(j, p, now, tolerance).Some?
    ensures var j', m, i := Reporting(j, p, now, tolerance).value, j.matches[p],
                            ReportedIndex(j, p, now, tolerance).value;
      var last := if m.execution.All? then m.total <= i + 1 else i == m.execution.i;
      && (p in j'.matches <==> !last) && (p in j'.nextReport <==> !last)
      && (!last ==> j'.nextReport[p] == if m.execution.All? then i + 1 else m.execution.i)
      && (last ==> p !in j'.processors) && (!last ==> j'.processors == j.processors)
  {
    hide ReportedIndex;
  }

  lemma {:induction false} CurrentFrom(s: Schedule, delay: nat, now: nat, i: nat)
    requires s.Valid() && i < s.ExecutionCount() && NthInterval(s, delay, i).0 <= now
    ensures CurrentIndex(s, delay, now).Some? && i <= CurrentIndex(s, delay, now).value
  {
    var x := now - (s.start + delay);
    FloorOf(x, s.interval);
    var q := x / s.interval;
    if q < i {
      MulMonotone(s.interval, q + 1, i);
    }
  }

  // ----- cleaning up -----

  /** A match is of no more use after its beginning if it is not acknowledged, and after its end if it is. */
  lemma {:induction false} CleanedWhen(j: Job, p: Processor, now: nat, tolerance: nat)
    requires p in j.matches && j.registration.Some? && j.matches[p].execution.All?
    ensures var s, m := j.registration.value.schedule, j.matches[p];
      p !in CleanedUp(j, p, now, tolerance).matches <==>
        if m.acknowledged then s.end + m.delay + tolerance < now else s.start + m.delay < now
  {
  }

  lemma {:induction false} CleanedOneWhen(j: Job, p: Processor, now: nat, tolerance: nat)
    requires p in j.matches && j.registration.Some? && j.matches[p].execution.Index?
    requires j.matches[p].execution.i < j.registration.value.schedule.ExecutionCount()
    ensures var x := NthInterval(j.registration.value.schedule, j.matches[p].delay, j.matches[p].execution.i);
      p !in CleanedUp(j, p, now, tolerance).matches <==>
        if j.matches[p].acknowledged then x.1 + tolerance < now else x.0 < now
  {
    hide Schedule.ExecutionCount;
  }

  /** Cleaning up for one processor leaves the others' matches, and all of a job that is gone can be removed. */
  lemma {:induction false} CleanedOthers(j: Job, p: Processor, now: nat, tolerance: nat, q: Processor)
    ensures var j' := CleanedUp(j, p, now, tolerance);
      && (q != p ==> (q in j'.matches <==> q in j.matches) && (q in j.matches ==> j'.matches[q] == j.matches[q]))
      && (j.registration.None? ==> p !in j'.matches)
  {
    hide Invalid;
  }

  /** A job has expired once the tolerance after its last execution is over, with the longest start delay allowed. */
  lemma {:induction false} ExpiredWhen(s: Schedule, now: nat, tolerance: nat)
    requires s.Valid()
    ensures Expired(s, now, tolerance) <==>
      forall i: nat :: i < s.ExecutionCount() ==> NthInterval(s, s.maxStartDelay, i).1 + tolerance < now
  {
    var n := s.ExecutionCount();
    assert (n - 1) * s.interval == s.interval * (n - 1);
    assert s.Range(s.maxStartDelay).1 == NthInterval(s, s.maxStartDelay, n - 1).1;
    forall i: nat | i < n
      ensures NthInterval(s, s.maxStartDelay, i).1 <= s.Range(s.maxStartDelay).1
    {
      WithinRange(s, s.maxStartDelay, i);
    }
    hide NthInterval, Schedule.ExecutionCount;
  }

  /** All matches of a job that is gone or has expired are cleaned up, or its matcher, and nothing else. */
  lemma {:induction false} CleanUpRule(c: Settings, j: Job, now: nat)
    requires IndicesAgree(j)
    ensures var over := j.registration.None? || Expired(j.registration.value.schedule, now, c.tolerance);
      && Next(c, j, CleanUpJob, now) == (if over then j.(matches := map[], processors := {}) else j)
      && Next(c, j, CleanUpMatcher, now) == (if over then j.(matcher := None) else j)
  {
    hide Expired;
    assert j.matches - j.processors == map[] && j.processors - j.processors == {};
  }

  /** Listed matches of a job that is gone are cleaned up. */
  lemma {:induction false} CleanUpSomeRule(c: Settings, j: Job, ps: set<Processor>, now: nat)
    requires IndicesAgree(j)
    ensures Next(c, j, CleanUpSome(ps), now)
         == if j.registration.None? then j.(matches := j.matches - ps, processors := j.processors - ps) else j
  {
    assert j.matches - (ps * j.processors) == j.matches - ps;
    assert j.processors - (ps * j.processors) == j.processors - ps;
  }

  // ----- matching single executions -----

  /** Each plan is for a processor of its own that is not matched for this execution, at a price within the reward. */
  predicate FittingOne(j: Job, plans: seq<Plan>, index: nat)
    requires j.registration.Some?
  {
    && (forall i :: 0 <= i < |plans| ==>
          && plans[i].admissible && plans[i].fee <= j.registration.value.reward
          && !MatchedFor(j, plans[i].processor, index))
    && (forall i, k :: 0 <= i < k < |plans| ==> plans[i].processor != plans[k].processor)
  }

  predicate MatchedFor(j: Job, p: Processor, index: nat) {
    p in j.matches && j.matches[p].execution == Index(index)
  }

  lemma {:induction false} AssignedOnesWhen(j: Job, plans: seq<Plan>, index: nat)
    requires j.registration.Some?
    ensures AssignedOnes(j, plans, index).Some? <==> FittingOne(j, plans, index)
    decreases |plans|
  {
    if plans != [] {
      var plan, rest := plans[0], plans[1..];
      var j1 := AssigningOne(j, plan, index);
      AssignedOnesWhen(j1, rest, index);
      AssigningFor(j, plan, index);
      assert forall i :: 0 <= i < |rest| ==> rest[i] == plans[i + 1];
      if plan.admissible && plan.fee <= j.registration.value.reward && !MatchedFor(j, plan.processor, index)
         && FittingOne(j1, rest, index) {
        FittingOneMore(j, plans, index);
      }
      hide AssigningOne;
    }
  }

  lemma {:induction false} AssigningFor(j: Job, plan: Plan, index: nat)
    ensures var j1 := AssigningOne(j, plan, index);
      && j1.registration == j.registration
      && forall p :: MatchedFor(j1, p, index) <==> p == plan.processor || MatchedFor(j, p, index)
  {
  }

  lemma {:induction false} FittingOneMore(j: Job, plans: seq<Plan>, index: nat)
    requires j.registration.Some? && plans != [] && FittingOne(AssigningOne(j, plans[0], index), plans[1..], index)
    requires plans[0].admissible && plans[0].fee <= j.registration.value.reward
    requires !MatchedFor(j, plans[0].processor, index)
    ensures FittingOne(j, plans, index)
  {
    var rest := plans[1..];
    AssigningFor(j, plans[0], index);
    hide AssigningOne, MatchedFor;
    forall i | 0 <= i < |plans|
      ensures plans[i].admissible && plans[i].fee <= j.registration.value.reward
      ensures !MatchedFor(j, plans[i].processor, index) && (i > 0 ==> plans[i].processor != plans[0].processor)
    {
      if i > 0 {
        assert rest[i - 1] == plans[i];
      }
    }
    forall i, k | 0 <= i < k < |plans|
      ensures plans[i].processor != plans[k].processor
    {
      if i > 0 {
        assert rest[i - 1] == plans[i] && rest[k - 1] == plans[k];
      }
    }
  }

  /** The match is of an execution at least two before this one. */
  predicate TwoBefore(m: Match, index: nat) {
    m.execution.Index? && m.execution.i + 2 <= index
  }

  /** The match is a new one of this execution by this plan, and counts one execution more for its processor. */
  predicate OneBy(was: Option<Match>, m: Match, plan: Plan, index: nat) {
    && m.execution == Index(index) && m.delay == plan.delay && m.fee == plan.fee && !m.acknowledged
    && m.total == (if was.Some? then was.value.total + 1 else 1) && m.met == (if was.Some? then was.value.met else 0)
  }

  function MatchAt(j: Job, p: Processor): Option<Match> {
    if p in j.matches then Some(j.matches[p]) else None
  }

  lemma {:induction false} OnesAssigned(j: Job, plans: seq<Plan>, index: nat)
    requires j.registration.Some? && AssignedOnes(j, plans, index).Some?
    ensures var j' := AssignedOnes(j, plans, index).value;
      && j' == j.(matches := j'.matches, processors := j'.processors)
      && (forall i :: 0 <= i < |plans| ==>
            && plans[i].processor in j'.matches
            && OneBy(MatchAt(j, plans[i].processor), j'.matches[plans[i].processor], plans[i], index))
      && (forall p :: (forall i :: 0 <= i < |plans| ==> plans[i].processor != p) ==> MatchAt(j', p) == MatchAt(j, p))
    decreases |plans|
  {
    if plans != [] {
      AssignedOnesWhen(j, plans, index);
      var j1, j', rest := AssigningOne(j, plans[0], index), AssignedOnes(j, plans, index).value, plans[1..];
      OnesAssigned(j1, rest, index);
      assert forall i :: 0 <= i < |rest| ==> rest[i] == plans[i + 1];
      assert forall i :: 0 <= i < |rest| ==> rest[i].processor != plans[0].processor;
      assert MatchAt(j', plans[0].processor) == MatchAt(j1, plans[0].processor);
      forall i | 0 <= i < |plans|
        ensures plans[i].processor in j'.matches
        ensures OneBy(MatchAt(j, plans[i].processor), j'.matches[plans[i].processor], plans[i], index)
      {
        if i > 0 {
          assert rest[i - 1] == plans[i];
          assert MatchAt(j1, plans[i].processor) == MatchAt(j, plans[i].processor);
        }
      }
      forall p | forall i :: 0 <= i < |plans| ==> plans[i].processor != p
        ensures MatchAt(j', p) == MatchAt(j, p)
      {
        assert plans[0].processor != p && forall i :: 0 <= i < |rest| ==> rest[i].processor != p;
      }
    }
  }

  /** The job with matches of executions at least two before dropped. */
  function Cleared(j: Job, index: nat): Job {
    Without(j, Outdated(j, index))
  }

  lemma {:induction false} ClearedAt(j: Job, index: nat, p: Processor)
    requires IndicesAgree(j)
    ensures MatchAt(Cleared(j, index), p)
         == if p in j.matches && TwoBefore(j.matches[p], index) then None else MatchAt(j, p)
  {
  }

  /**
   * An execution not matched yet is matched exactly shortly before it begins, by as many fitting plans
   * as there are slots.
   */
  lemma {:induction false} ExecutionMatchedWhen(j: Job, index: nat, plans: seq<Plan>, matcher: Option<Matcher>,
                                                now: nat, delta: nat)
    requires index in j.executions ==> j.executions[index] == Open
    ensures ExecutionMatching(j, index, plans, matcher, now, delta).Some? <==>
      && j.registration.Some?
      && var s := j.registration.value.schedule;
      && index < s.ExecutionCount() && |plans| == j.registration.value.slots
      && now < s.start + s.interval * index <= now + delta && FittingOne(Cleared(j, index), plans, index)
  {
    hide Schedule.ExecutionCount, Outdated, FittingOne;
    if j.registration.Some? {
      var j1 := Without(j, Outdated(j, index)).(mixed := true);
      var j2 := if index < 2 then j1 else j1.(executions := j1.executions - {index - 2});
      AssignedOnesWhen(j2, plans, index);
      FittingSame(Cleared(j, index), j2, plans, index);
    }
    hide AssignedOnes;
  }

  lemma {:induction false} FittingSame(j: Job, j': Job, plans: seq<Plan>, index: nat)
    requires j.registration.Some? && j'.registration == j.registration && j'.matches == j.matches
    ensures FittingOne(j', plans, index) <==> FittingOne(j, plans, index)
  {
  }

  /** Its matches are the plans', those of executions at least two before are gone, and the others stay. */
  lemma {:induction false} ExecutionMatched(j: Job, index: nat, plans: seq<Plan>, matcher: Option<Matcher>, now: nat,
                                            delta: nat, p: Processor)
    requires (index in j.executions ==> j.executions[index] == Open) && IndicesAgree(j)
    requires ExecutionMatching(j, index, plans, matcher, now, delta).Some?
    ensures var j' := ExecutionMatching(j, index, plans, matcher, now, delta).value;
      && j'.status == Some(Matched) && index in j'.executions && j'.executions[index] == Matched && j'.mixed
      && j'.matcher == (if matcher.Some? then matcher else j.matcher)
      && (forall i :: 0 <= i < |plans| ==>
            && plans[i].processor in j'.matches
            && OneBy(MatchAt(Cleared(j, index), plans[i].processor), j'.matches[plans[i].processor], plans[i], index))
      && ((forall i :: 0 <= i < |plans| ==> plans[i].processor != p) ==>
            MatchAt(j', p) == if p in j.matches && TwoBefore(j.matches[p], index) then None else MatchAt(j, p))
  {
    ClearedAt(j, index, p);
    hide Schedule.ExecutionCount, Outdated, OneBy;
    var j1 := Without(j, Outdated(j, index)).(mixed := true);
    var j2 := if index < 2 then j1 else j1.(executions := j1.executions - {index - 2});
    OnesAssigned(j2, plans, index);
    assert forall q :: MatchAt(j2, q) == MatchAt(Cleared(j, index), q);
    hide AssignedOnes;
  }

  /** An execution that has been matched is skipped. */
  lemma {:induction false} ExecutionMatchedOnce(j: Job, index: nat, plans: seq<Plan>, matcher: Option<Matcher>,
                                                now: nat, delta: nat)
    requires index in j.executions && j.executions[index] != Open
    ensures ExecutionMatching(j, index, plans, matcher, now, delta) == Some(j)
  {
  }

  // ----- acknowledgments and ends succeed -----

  /** In every run of a job matched as a whole, a match not yet acknowledged is acknowledged before it begins. */
  lemma {:induction false} AcknowledgmentAccepted(c: Settings, calls: seq<(Call, nat)>, p: Processor, now: nat)
    requires c.percent <= 100 && Whole(calls) && p in Run(c, NO_JOB, calls).matches
    ensures var j := Run(c, NO_JOB, calls);
      && j.registration.Some?
      && (now <= j.registration.value.schedule.start + j.matches[p].delay <==>
            Acknowledging(j, p, All, now, c.tolerance, c.percent).Some?)
  {
    hide Run, Whole, Sound, Accounted, NO_JOB, FirstAcknowledged;
    WholeRun(c, calls);
    var j := Run(c, NO_JOB, calls);
    assert MatchOk(j, p);
    hide PureOk, MatchOk;
    MayAcknowledgeWhen(j, p, now);
    hide MayAcknowledge;
    if !j.matches[p].acknowledged {
      PureAcknowledged(j, p, now, c.tolerance, c.percent);
    }
  }

  /** A job ends exactly if it exists and, once assigned, its budget covers the fees due; nothing of it is left. */
  lemma {:induction false} EndsWhen(j: Job, now: nat, cleared: set<nat>)
    requires IndicesAgree(j)
    ensures var r := Deregistering(j, now, cleared);
      && (r.Some? <==> && j.status.Some? && j.registration.Some?
                       && (j.status.value.Assigned? ==> Total(Payouts(j, now)) <= j.budget))
      && (r.Some? ==>
            && r.value.registration.None? && r.value.status.None? && r.value.executions == j.executions - cleared
            && (j.status.value != Open ==> r.value.matches == map[] && r.value.processors == {})
            && (j.status.value == Open ==> r.value.matches == j.matches && r.value.processors == j.processors)
            && (j.status.value.Assigned? ==> r.value.nextReport == map[] && r.value.matcher.None?)
            && (!j.status.value.Assigned? ==> r.value.nextReport == j.nextReport && r.value.matcher == j.matcher))
  {
    hide Total, Payouts;
    assert j.matches - j.processors == map[];
  }

  // ----- counting reports -----

  /** No more reports are met than a match is for, and a match not acknowledged yet is for one more at least. */
  ghost predicate Counted(j: Job) {
    && (j.registration.Some? ==> j.registration.value.schedule.Valid())
    && (forall p :: p in j.matches ==> MatchCounted(j.matches[p]))
  }

  predicate MatchCounted(m: Match) {
    m.met <= m.total && (!m.acknowledged ==> m.met < m.total)
  }

  lemma {:induction false} AssignedCounted(j: Job, plans: seq<Plan>)
    requires Counted(j) && j.registration.Some? && AssignedAll(j, plans).Some?
    ensures Counted(AssignedAll(j, plans).value) && AssignedAll(j, plans).value.registration == j.registration
    decreases |plans|
  {
    if plans != [] {
      assert Counted(Assigning(j, plans[0]));
      AssignedCounted(Assigning(j, plans[0]), plans[1..]);
    }
  }

  lemma {:induction false} OnesCounted(j: Job, plans: seq<Plan>, index: nat)
    requires Counted(j) && j.registration.Some? && AssignedOnes(j, plans, index).Some?
    ensures Counted(AssignedOnes(j, plans, index).value)
    decreases |plans|
  {
    if plans != [] {
      assert Counted(AssigningOne(j, plans[0], index));
      OnesCounted(AssigningOne(j, plans[0], index), plans[1..], index);
    }
  }

  lemma {:induction false} MatchingCounted(j: Job, plans: seq<Plan>, matcher: Option<Matcher>, now: nat)
    requires Counted(j) && Matching(j, plans, matcher, now).Some?
    ensures Counted(Matching(j, plans, matcher, now).value)
  {
    hide AssignedAll;
    if j.status == Some(Open) {
      AssignedCounted(j, plans);
    }
  }

  lemma {:induction false} AcknowledgedCounted(j: Job, p: Processor, execution: Execution, now: nat, tolerance: nat,
                                               percent: nat)
    requires Counted(j) && Acknowledging(j, p, execution, now, tolerance, percent).Some?
    ensures Counted(Acknowledging(j, p, execution, now, tolerance, percent).value)
  {
    hide MatcherFee, ReportExpected, StatusRaised, Schedule.ExecutionCount;
    var m := j.matches[p].(acknowledged := true);
    StatusRaisedKeeps(j.(matches := j.matches[p := m]), m.execution);
  }

  lemma {:induction false} ReportedCounted(j: Job, p: Processor, now: nat, tolerance: nat)
    requires Counted(j) && Reporting(j, p, now, tolerance).Some?
    ensures Counted(Reporting(j, p, now, tolerance).value)
  {
    hide ReportedIndex, Schedule.ExecutionCount;
  }

  lemma {:induction false} OneCounted(j: Job, index: nat, plans: seq<Plan>, matcher: Option<Matcher>, now: nat,
                                      delta: nat)
    requires Counted(j) && ExecutionMatching(j, index, plans, matcher, now, delta).Some?
    ensures Counted(ExecutionMatching(j, index, plans, matcher, now, delta).value)
  {
    hide AssignedOnes, Schedule.ExecutionCount, Outdated;
    if StatusOf(j, index) == Open {
      var j1 := Without(j, Outdated(j, index)).(mixed := true);
      OnesCounted(if index < 2 then j1 else j1.(executions := j1.executions - {index - 2}), plans, index);
    }
  }

  lemma {:induction false} NextCounted(c: Settings, j: Job, call: Call, now: nat)
    requires Counted(j)
    ensures Counted(Next(c, j, call, now))
  {
    hide Acknowledging, Reporting, ExecutionMatching, Total, Matching, Invalid, Payouts, Schedule.ExecutionCount;
    if Effect(c, j, call, now).Some? {
      match call
      case Register(r, instant, lockable) =>
        if instant.Some? {
          MatchingCounted(Stored(j, r), instant.value, None, now);
        }
      case ProposeMatching(plans, matcher) => MatchingCounted(j, plans, matcher, now);
      case ProposeExecutionMatching(index, plans, matcher) => OneCounted(j, index, plans, matcher, now, c.delta);
      case Acknowledge(p, execution) => AcknowledgedCounted(j, p, execution, now, c.tolerance, c.percent);
      case Report(p) => ReportedCounted(j, p, now, c.tolerance);
      case _ =>
    }
  }

  lemma {:induction false} RunCounted(c: Settings, j: Job, calls: seq<(Call, nat)>)
    requires Counted(j)
    ensures Counted(Run(c, j, calls))
    decreases |calls|
  {
    hide Counted, Next;
    if calls != [] {
      NextCounted(c, j, calls[0].0, calls[0].1);
      RunCounted(c, Next(c, j, calls[0].0, calls[0].1), calls[1..]);
    }
  }

  /**
   * In every reachable state, also of jobs matched execution by execution, no match has met more
   * reports than it is for, and one not acknowledged yet can still be reported on.
   */
  lemma {:induction false} ReportsWithinTotal(c: Settings, calls: seq<(Call, nat)>, p: Processor)
    requires p in Run(c, NO_JOB, calls).matches
    ensures var m := Run(c, NO_JOB, calls).matches[p];
      m.met <= m.total && (!m.acknowledged ==> m.met < m.total)
  {
    assert Counted(NO_JOB);
    hide Run;
    RunCounted(c, NO_JOB, calls);
  }
}
