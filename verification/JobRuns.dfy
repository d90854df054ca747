/** Ending jobs, cleaning up, matching single executions; and what holds over every run of a job. */
module JobRuns {
  import opened Wrappers
  import opened Arithmetic
  import opened MapSums
  import opened Schedules
  import opened JobMarket

  // ----- deregistering -----

  function NextIndex(s: Schedule, delay: nat, now: nat): nat {
    match CurrentIndex(s, delay, now)
    case None => 0
    case Some(i) => i + 1
  }

  /** Whether a processor is still paid when the job ends. */
  predicate PaidAtEnd(j: Job, p: Processor, now: nat)
    requires j.registration.Some?
  {
    && p in j.matches && j.matches[p].acknowledged
    && (j.matches[p].execution.Index? ==>
          j.matches[p].execution.i == NextIndex(j.registration.value.schedule, j.matches[p].delay, now))
  }

  function Payouts(j: Job, now: nat): map<Processor, nat>
    requires j.registration.Some?
  {
    map p | p in j.processors && PaidAtEnd(j, p, now) :: j.matches[p].fee
  }

  /** How many statuses of executions the end of a job clears at most. */
  function ClearLimit(j: Job): nat
    requires j.status.Some? && j.registration.Some?
  {
    if j.status.value.Assigned? then 10 else Count(j.registration.value)
  }

  /** The job is gone and the rest of its budget returned; an open job's matches, if it has any, are not looked at. */
  function Gone(j: Job, cleared: set<nat>, left: nat): Job
    requires left <= j.budget
  {
    var kept := j.status == Some(Open);
    var ended := j.status.Some? && j.status.value.Assigned?;
    Job(None, None, j.executions - cleared, if kept then j.matches else j.matches - j.processors,
        if kept then j.processors else {},
        if ended then map[] else j.nextReport, if ended then None else j.matcher, 0, j.mixed, map[], map[], 0,
        j.funded, j.spent + (j.budget - left), j.refunded + left)
  }

  /** The job can end: it exists, and its budget covers what is due at the end. */
  ghost predicate MayEnd(j: Job, now: nat) {
    j.status.Some? && j.registration.Some? && (j.status.value.Assigned? ==> Total(Payouts(j, now)) <= j.budget)
  }

  /** Ending a job; which statuses of executions are cleared is up to the storage. */
  ghost function Deregistering(j: Job, now: nat, cleared: set<nat>): Option<Job> {
    if MayEnd(j, now) then Some(Gone(j, cleared, LeftAtEnd(j, now))) else None
  }

  /** What remains of the budget when the processors of an assigned job are paid. */
  ghost function LeftAtEnd(j: Job, now: nat): nat
    requires MayEnd(j, now)
  {
    if j.status.value.Assigned? then j.budget - Total(Payouts(j, now)) else j.budget
  }

  lemma {:induction false} GoneSound(j: Job, cleared: set<nat>, left: nat)
    requires Sound(j) && left <= j.budget
    ensures Sound(Gone(j, cleared, left))
  {
  }

  lemma {:induction false} TotalOfBoth(a: map<Processor, nat>, b: map<Processor, nat>, bound: nat)
    requires forall p :: p in b ==> p in a
    requires forall p :: p in a ==> a[p] + Amount(b, p) <= bound
    ensures Total(a) + Total(b) <= |a| * bound
    decreases |a|
  {
    hide Total;
    if a == map[] {
      assert b == map[];
      NothingPaid();
    } else {
      var p :| p in a;
      TotalPick(a, p);
      TotalPick(b, p);
      assert |a - {p}| == |a| - 1 by { assert (a - {p}).Keys == a.Keys - {p}; }
      TotalOfBoth(a - {p}, b - {p}, bound);
      OneMore(|a - {p}|, bound);
    }
  }

  /** The processors of a pure job can all be paid once more when it ends. */
  lemma {:induction false} PureEnds(j: Job, now: nat)
    requires IndicesAgree(j) && PureOk(j) && j.status.Some? && j.registration.Some?
    ensures MayEnd(j, now)
  {
    var r, due := j.registration.value, Payouts(j, now);
    forall p | p in j.paid
      ensures j.paid[p] + Amount(due, p) <= r.reward * Count(r)
    {
      if p in due {
        assert MatchOk(j, p);
        DueBound(j.matches[p], r);
        PaidWithin(j, p);
      }
    }
    forall p | p in due
      ensures p in j.paid
    {
      assert MatchOk(j, p);
    }
    TotalOfBoth(j.paid, due, r.reward * Count(r));
    SlotBound(|j.paid|, r.slots, r.reward, Count(r));
    hide Total;
  }

  // ----- cleaning up -----

  function Without(j: Job, ps: set<Processor>): Job {
    j.(matches := j.matches - ps, processors := j.processors - ps)
  }

  predicate Invalid(m: Match, s: Schedule, now: nat, tolerance: nat) {
    var (start, end) :=
      match m.execution
      case All => (s.start + m.delay, s.end + m.delay + tolerance)
      case Index(i) =>
        var t := (match s.NthStartTime(m.delay, i) case None => 0 case Some(t) => t);
        (t, t + s.duration + tolerance);
    if m.acknowledged then now > end else now > start
  }

  /** A match that is of no more use is removed. */
  function CleanedUp(j: Job, p: Processor, now: nat, tolerance: nat): Job {
    if p in j.matches
       && (j.registration.None? || Invalid(j.matches[p], j.registration.value.schedule, now, tolerance))
    then Without(j, {p}) else j
  }

  predicate Expired(s: Schedule, now: nat, tolerance: nat) {
    now > s.Range(s.maxStartDelay).1 + tolerance
  }

  predicate Over(j: Job, now: nat, tolerance: nat) {
    j.registration.None? || Expired(j.registration.value.schedule, now, tolerance)
  }

  lemma {:induction false} WithoutSound(j: Job, ps: set<Processor>)
    requires Sound(j)
    ensures Sound(Without(j, ps))
  {
    var j' := Without(j, ps);
    assert j'.matches.Keys == j.matches.Keys - ps;
    if !j.mixed && j.registration.Some? {
      AccountedSame(j, j');
      hide Accounted;
      forall p | p in j'.matches
        ensures MatchOk(j', p)
      {
        assert MatchOk(j, p);
      }
    }
  }

  // ----- matching single executions -----

  /** Matches of executions at least two before are dropped. */
  function Outdated(j: Job, index: nat): set<Processor> {
    if index < 2 then {}
    else
      set p | p in j.processors
              && (p in j.matches ==> j.matches[p].execution.Index? && j.matches[p].execution.i <= index - 2)
  }

  function AssigningOne(j: Job, plan: Plan, index: nat): Job {
    var was := plan.processor in j.matches;
    var total := if was then j.matches[plan.processor].total + 1 else 1;
    var met := if was then j.matches[plan.processor].met else 0;
    j.(matches := j.matches[plan.processor := Match(Index(index), plan.delay, plan.fee, false, total, met)],
       processors := j.processors + {plan.processor})
  }

  function AssignedOnes(j: Job, plans: seq<Plan>, index: nat): Option<Job>
    requires j.registration.Some?
    decreases |plans|
  {
    if plans == [] then Some(j)
    else
      var plan := plans[0];
      if !plan.admissible || plan.fee > j.registration.value.reward
         || (plan.processor in j.matches && j.matches[plan.processor].execution == Index(index)) then None
      else AssignedOnes(AssigningOne(j, plan, index), plans[1..], index)
  }

  function ExecutionMatching(j: Job, index: nat, plans: seq<Plan>, matcher: Option<Matcher>, now: nat,
                             delta: nat): Option<Job>
  {
    if StatusOf(j, index) != Open then Some(j)
    else if j.registration.None? then None
    else
      var r := j.registration.value;
      var start := r.schedule.NthStartTime(0, index);
      if start.None? || now >= start.value || now + delta < start.value || |plans| != r.slots then None
      else
        var j1 := Without(j, Outdated(j, index)).(mixed := true);
        var j2 := if index < 2 then j1 else j1.(executions := j1.executions - {index - 2});
        match AssignedOnes(j2, plans, index)
        case None => None
        case Some(v) =>
          Some(v.(status := Some(Matched), executions := v.executions[index := Matched],
                  matcher := if matcher.Some? then matcher else v.matcher))
  }

  lemma {:induction false} AssignedOnesAgree(j: Job, plans: seq<Plan>, index: nat)
    requires j.registration.Some? && IndicesAgree(j) && j.mixed && AssignedOnes(j, plans, index).Some?
    ensures IndicesAgree(AssignedOnes(j, plans, index).value) && AssignedOnes(j, plans, index).value.mixed
    ensures Ledgers(AssignedOnes(j, plans, index).value) == Ledgers(j)
    decreases |plans|
  {
    if plans != [] {
      assert AssigningOne(j, plans[0], index).matches.Keys == j.matches.Keys + {plans[0].processor};
      AssignedOnesAgree(AssigningOne(j, plans[0], index), plans[1..], index);
    }
  }

  lemma {:induction false} ExecutionMatchingSound(j: Job, index: nat, plans: seq<Plan>, matcher: Option<Matcher>,
                                                  now: nat, delta: nat)
    requires Sound(j) && ExecutionMatching(j, index, plans, matcher, now, delta).Some?
    ensures Sound(ExecutionMatching(j, index, plans, matcher, now, delta).value)
  {
    if StatusOf(j, index) == Open {
      var j1 := Without(j, Outdated(j, index)).(mixed := true);
      assert j1.matches.Keys == j.matches.Keys - Outdated(j, index);
      var j2 := if index < 2 then j1 else j1.(executions := j1.executions - {index - 2});
      hide AssignedOnes, PureOk;
      AssignedOnesAgree(j2, plans, index);
    }
  }

  // ----- acknowledging and reporting -----

  lemma {:induction false} AcknowledgedAgree(j: Job, p: Processor, now: nat, tolerance: nat, percent: nat)
    requires IndicesAgree(j) && j.registration.Some? && p in j.matches
    ensures var r := FirstAcknowledged(j, p, now, tolerance, percent);
      r.Some? ==> IndicesAgree(r.value) && r.value.mixed == j.mixed && (Conserved(j) ==> Conserved(r.value))
  {
    hide MatcherFee, ReportExpected, StatusRaised;
    var m := j.matches[p].(acknowledged := true);
    assert j.matches[p := m].Keys == j.matches.Keys;
    StatusRaisedKeeps(j.(matches := j.matches[p := m]), m.execution);
  }

  lemma {:induction false} AcknowledgingSound(j: Job, p: Processor, execution: Execution, now: nat, tolerance: nat,
                                              percent: nat)
    requires Sound(j) && Acknowledging(j, p, execution, now, tolerance, percent).Some? && percent <= 100
    ensures Sound(Acknowledging(j, p, execution, now, tolerance, percent).value)
  {
    hide FirstAcknowledged, PureOk;
    if !j.matches[p].acknowledged {
      AcknowledgedAgree(j, p, now, tolerance, percent);
      if !j.mixed {
        PureAcknowledged(j, p, now, tolerance, percent);
      }
    }
  }

  lemma {:induction false} ReportedAgree(j: Job, p: Processor, now: nat, tolerance: nat)
    requires IndicesAgree(j)
    ensures var r := Reporting(j, p, now, tolerance);
      r.Some? ==> IndicesAgree(r.value) && r.value.mixed == j.mixed && (Conserved(j) ==> Conserved(r.value))
  {
  }

  lemma {:induction false} ReportingSound(j: Job, p: Processor, now: nat, tolerance: nat)
    requires Sound(j) && Reporting(j, p, now, tolerance).Some?
    ensures Sound(Reporting(j, p, now, tolerance).value)
  {
    ReportedAgree(j, p, now, tolerance);
    hide PureOk, ReportedIndex;
    if !j.mixed {
      PureReported(j, p, now, tolerance);
    }
  }

  // ----- runs -----

  datatype Call =
    | Register(r: Registration, instant: Option<seq<Plan>>, lockable: bool)
    | ProposeMatching(plans: seq<Plan>, matcher: Option<Matcher>)
    | ProposeExecutionMatching(index: nat, plans: seq<Plan>, matcher: Option<Matcher>)
    | Acknowledge(p: Processor, execution: Execution)
    | Report(p: Processor)
    | Deregister(cleared: set<nat>)
    | CleanUp(p: Processor)
    | CleanUpSome(ps: set<Processor>)
    | CleanUpJob
    | CleanUpMatcher

  /** The pallet's settings. */
  datatype Settings = Settings(tolerance: nat, percent: nat, delta: nat)

  /** A call's effect, if it succeeds. */
  ghost function Effect(c: Settings, j: Job, call: Call, now: nat): Option<Job> {
    match call
    case Register(r, instant, lockable) => Registering(j, r, instant, now, lockable)
    case ProposeMatching(plans, matcher) => Matching(j, plans, matcher, now)
    case ProposeExecutionMatching(index, plans, matcher) => ExecutionMatching(j, index, plans, matcher, now, c.delta)
    case Acknowledge(p, execution) => Acknowledging(j, p, execution, now, c.tolerance, c.percent)
    case Report(p) => Reporting(j, p, now, c.tolerance)
    case Deregister(cleared) => Deregistering(j, now, cleared)
    case CleanUp(p) => Some(CleanedUp(j, p, now, c.tolerance))
    case CleanUpSome(ps) => Some(if j.registration.None? then Without(j, ps * j.processors) else j)
    case CleanUpJob => Some(if Over(j, now, c.tolerance) then Without(j, j.processors) else j)
    case CleanUpMatcher => Some(if Over(j, now, c.tolerance) then j.(matcher := None) else j)
  }

  ghost function Next(c: Settings, j: Job, call: Call, now: nat): Job {
    match Effect(c, j, call, now)
    case None => j
    case Some(j') => j'
  }

  ghost function Run(c: Settings, j: Job, calls: seq<(Call, nat)>): Job
    decreases |calls|
  {
    if calls == [] then j else Run(c, Next(c, j, calls[0].0, calls[0].1), calls[1..])
  }

  lemma {:induction false} MatcherIrrelevant(j: Job)
    requires Sound(j)
    ensures Sound(j.(matcher := None))
  {
  }

  lemma {:induction false} NextSound(c: Settings, j: Job, call: Call, now: nat)
    requires Sound(j) && c.percent <= 100
    ensures Sound(Next(c, j, call, now))
  {
    hide Sound, Registering, Matching, ExecutionMatching, Acknowledging, Reporting, Total, Without;
    if Effect(c, j, call, now).Some? {
      match call
      case Register(r, instant, lockable) => RegisteringSound(j, r, instant, now, lockable);
      case ProposeMatching(plans, matcher) => MatchingSound(j, plans, matcher, now);
      case ProposeExecutionMatching(index, plans, matcher) =>
        ExecutionMatchingSound(j, index, plans, matcher, now, c.delta);
      case Acknowledge(p, execution) => AcknowledgingSound(j, p, execution, now, c.tolerance, c.percent);
      case Report(p) => ReportingSound(j, p, now, c.tolerance);
      case Deregister(cleared) => GoneSound(j, cleared, LeftAtEnd(j, now));
      case CleanUp(p) => WithoutSound(j, {p});
      case CleanUpSome(ps) => WithoutSound(j, ps * j.processors);
      case CleanUpJob => WithoutSound(j, j.processors);
      case CleanUpMatcher => MatcherIrrelevant(j);
    }
  }

  lemma {:induction false} RunSound(c: Settings, j: Job, calls: seq<(Call, nat)>)
    requires Sound(j) && c.percent <= 100
    ensures Sound(Run(c, j, calls))
    decreases |calls|
  {
    hide Sound, Next;
    if calls != [] {
      NextSound(c, j, calls[0].0, calls[0].1);
      RunSound(c, Next(c, j, calls[0].0, calls[0].1), calls[1..]);
    }
  }

  lemma {:induction false} SoundFacts(j: Job)
    requires Sound(j)
    ensures IndicesAgree(j) && Conserved(j) && (!j.mixed ==> PureOk(j))
  {
  }

  lemma {:induction false} EmptySound()
    ensures Sound(NO_JOB)
  {
  }

  /** In every reachable state a processor has a match exactly when the job has the processor. */
  lemma {:induction false} IndexAgreement(c: Settings, calls: seq<(Call, nat)>, p: Processor)
    requires c.percent <= 100
    ensures p in Run(c, NO_JOB, calls).matches <==> p in Run(c, NO_JOB, calls).processors
  {
    hide Run, PureOk, Sound;
    EmptySound();
    RunSound(c, NO_JOB, calls);
    SoundFacts(Run(c, NO_JOB, calls));
  }

  /** In every reachable state all that was ever locked for the job is in its budget, or was paid or returned. */
  lemma {:induction false} FundsConserved(c: Settings, calls: seq<(Call, nat)>)
    requires c.percent <= 100
    ensures var j := Run(c, NO_JOB, calls);
      j.funded == j.budget + j.spent + j.refunded
  {
    hide Run, PureOk, Sound;
    EmptySound();
    RunSound(c, NO_JOB, calls);
    SoundFacts(Run(c, NO_JOB, calls));
  }

  /** No single executions are matched in the run. */
  predicate Whole(calls: seq<(Call, nat)>) {
    calls == [] || (!calls[0].0.ProposeExecutionMatching? && Whole(calls[1..]))
  }

  lemma {:induction false} WholePure(c: Settings, j: Job, calls: seq<(Call, nat)>)
    requires Sound(j) && c.percent <= 100 && !j.mixed && Whole(calls)
    ensures !Run(c, j, calls).mixed
    decreases |calls|
  {
    if calls != [] {
      var (call, now) := calls[0];
      NextSound(c, j, call, now);
      StillPure(c, j, call, now);
      hide Sound, Next;
      WholePure(c, Next(c, j, call, now), calls[1..]);
    }
  }

  lemma {:induction false} StillPure(c: Settings, j: Job, call: Call, now: nat)
    requires Sound(j) && c.percent <= 100 && !j.mixed && !call.ProposeExecutionMatching?
    ensures !Next(c, j, call, now).mixed
  {
    hide FirstAcknowledged, Reporting, AssignedAll, Total, PureOk;
    if Effect(c, j, call, now).Some? {
      match call
      case Register(r, instant, _) =>
        if instant.Some? {
          AssignedAgree(Stored(j, r), instant.value);
        }
      case ProposeMatching(plans, matcher) =>
        if j.status == Some(Open) {
          AssignedAgree(j, plans);
        }
      case Acknowledge(p, execution) =>
        AcknowledgedAgree(j, p, now, c.tolerance, c.percent);
      case Report(p) =>
        ReportedAgree(j, p, now, c.tolerance);
      case _ =>
    }
  }

  lemma {:induction false} WholeRun(c: Settings, calls: seq<(Call, nat)>)
    requires c.percent <= 100 && Whole(calls)
    ensures var j := Run(c, NO_JOB, calls);
      Sound(j) && !j.mixed && IndicesAgree(j) && PureOk(j)
  {
    hide Run, Whole, Sound, PureOk;
    EmptySound();
    RunSound(c, NO_JOB, calls);
    WholePure(c, NO_JOB, calls);
    SoundFacts(Run(c, NO_JOB, calls));
  }

  /**
   * For a job matched as a whole, what was paid on account of a matched processor is the matcher's
   * commission and the processor's fee for each report it met.
   */
  lemma {:induction false} PaidForReports(c: Settings, calls: seq<(Call, nat)>, p: Processor)
    requires c.percent <= 100 && Whole(calls) && p in Run(c, NO_JOB, calls).matches
    ensures var j := Run(c, NO_JOB, calls);
      && p in j.paid && j.paid[p] == Amount(j.commission, p) + j.matches[p].fee * j.matches[p].met
      && (!j.matches[p].acknowledged ==> j.paid[p] == 0)
  {
    hide Run, Whole, Sound, Accounted, NO_JOB;
    WholeRun(c, calls);
    assert MatchOk(Run(c, NO_JOB, calls), p);
  }

  /**
   * For a job matched as a whole: acknowledged matches have reports left, no more of them met than
   * reports were expected, and the budget is never short.
   */
  lemma {:induction false} JobBudgetSuffices(c: Settings, calls: seq<(Call, nat)>, p: Processor, now: nat)
    requires c.percent <= 100 && Whole(calls)
    ensures var j := Run(c, NO_JOB, calls);
      && (p in j.matches && j.matches[p].acknowledged ==>
            p in j.nextReport && j.matches[p].met <= j.nextReport[p] < j.matches[p].total)
      && (p in j.matches && !j.matches[p].acknowledged ==>
            j.registration.Some? && FirstAcknowledged(j, p, now, c.tolerance, c.percent).Some?)
      && (MayReport(j, p) && ReportedIndex(j, p, now, c.tolerance).Some? ==> Reporting(j, p, now, c.tolerance).Some?)
      && (j.status.Some? ==> MayEnd(j, now))
  {
    hide Run, Whole, FirstAcknowledged, Reporting, ReportedIndex, MayEnd, Accounted, Sound, NO_JOB;
    WholeRun(c, calls);
    var j := Run(c, NO_JOB, calls);
    if j.registration.Some? {
      PureEnds(j, now);
      if p in j.matches {
        assert MatchOk(j, p);
        if !j.matches[p].acknowledged {
          PureAcknowledged(j, p, now, c.tolerance, c.percent);
        } else if MayReport(j, p) && ReportedIndex(j, p, now, c.tolerance).Some? {
          PureReported(j, p, now, c.tolerance);
        }
      }
    }
  }

  // ----- what is paid -----

  /** A report takes the processor's fee out of the budget, on its account and on nobody else's. */
  lemma {:induction false} ReportPays(j: Job, p: Processor, now: nat, tolerance: nat, q: Processor)
    requires Reporting(j, p, now, tolerance).Some?
    ensures p in j.matches && j.matches[p].acknowledged
    ensures var j', m := Reporting(j, p, now, tolerance).value, j.matches[p];
      && j'.budget + m.fee == j.budget && j'.spent == j.spent + m.fee && j'.refunded == j.refunded
      && Amount(j'.paid, q) == Amount(j.paid, q) + (if q == p then m.fee else 0) && j'.commission == j.commission
      && (p in j'.matches ==> j'.matches[p] == m.(met := m.met + 1))
  {
    hide ReportedIndex;
  }

  /** The first acknowledgment pays the matcher, if there is one, its part of what the processor's price saves. */
  lemma {:induction false} AcknowledgePays(j: Job, p: Processor, now: nat, tolerance: nat, percent: nat)
    requires j.registration.Some? && p in j.matches && FirstAcknowledged(j, p, now, tolerance, percent).Some?
    ensures var j', m, r := FirstAcknowledged(j, p, now, tolerance, percent).value, j.matches[p], j.registration.value;
      && p in j'.matches && j'.matches[p] == m.(acknowledged := true)
      && if j.matcher.None? then j'.budget == j.budget && j'.paid == j.paid && j'.commission == j.commission
         else
           && p in j'.commission && j'.budget + j'.commission[p] == j.budget
           && Amount(j'.paid, p) == Amount(j.paid, p) + j'.commission[p]
           && (m.execution.All? && m.fee <= r.reward ==>
                 j'.commission[p] * 100 <= percent * ((r.reward - m.fee) * Count(r)) < (j'.commission[p] + 1) * 100)
           && (m.execution.Index? && m.fee <= r.reward ==>
                 j'.commission[p] * 100 <= percent * (r.reward - m.fee) < (j'.commission[p] + 1) * 100)
  {
    hide StatusRaised, ReportExpected, Count;
    var m, r := j.matches[p].(acknowledged := true), j.registration.value;
    StatusRaisedKeeps(j.(matches := j.matches[p := m]), m.execution);
    if m.fee <= r.reward {
      FeeExact(m, r, percent);
    }
    hide MatcherFee;
  }

  lemma {:induction false} FeeExact(m: Match, r: Registration, percent: nat)
    requires m.fee <= r.reward
    ensures var fee := MatcherFee(m, r, percent);
      fee * 100 <= percent * (if m.execution.All? then (r.reward - m.fee) * Count(r) else r.reward - m.fee)
                <  (fee + 1) * 100
  {
    hide Count;
    var x := percent * (if m.execution.All? then (r.reward - m.fee) * Count(r) else r.reward - m.fee);
    FloorOf(x, 100);
  }

  /** The next execution: all before it have begun, and it has not, unless there is none left. */
  lemma {:induction false} NextIndexExact(s: Schedule, delay: nat, now: nat)
    requires s.Valid()
    ensures var n, first := NextIndex(s, delay, now), s.start + delay;
      && n <= s.ExecutionCount() && (n < s.ExecutionCount() ==> now < first + s.interval * n)
      && forall i: nat :: i < n ==> first + s.interval * i <= now
  {
    var n, first := NextIndex(s, delay, now), s.start + delay;
    if now >= first {
      var q := (now - first) / s.interval;
      FloorOf(now - first, s.interval);
      assert s.interval * (q + 1) == (q + 1) * s.interval;
      forall i: nat | i < n
        ensures first + s.interval * i <= now
      {
        MulMonotone(s.interval, i, q);
      }
    }
  }

  /**
   * When an assigned job ends, each acknowledged match of the whole job is paid its fee once more, as
   * is one of the next execution, and the rest of the budget returned. Any other job's is all returned.
   */
  lemma {:induction false} EndPays(j: Job, now: nat, cleared: set<nat>, p: Processor)
    requires Deregistering(j, now, cleared).Some? && IndicesAgree(j)
    ensures j.registration.Some? && j.status.Some?
    ensures var j', due := Deregistering(j, now, cleared).value, Payouts(j, now);
      && j'.budget == 0 && j'.spent + j'.refunded == j.spent + j.refunded + j.budget
      && j'.spent == j.spent + (if j.status.value.Assigned? then Total(due) else 0)
      && Amount(due, p)
         == if p in j.matches && j.matches[p].acknowledged && EndsWith(j, p, now) then j.matches[p].fee else 0
  {
    hide Total, NextIndex;
  }

  /** The match is of the whole job, or of the execution that comes next. */
  predicate EndsWith(j: Job, p: Processor, now: nat)
    requires j.registration.Some? && p in j.matches
  {
    match j.matches[p].execution
    case All => true
    case Index(i) => i == NextIndex(j.registration.value.schedule, j.matches[p].delay, now)
  }

  // ----- reports are accepted -----

  /** The execution that began last. */
  lemma {:induction false} CurrentAt(s: Schedule, delay: nat, now: nat, i: nat)
    requires s.Valid() && i < s.ExecutionCount()
    requires s.start + delay + s.interval * i <= now < s.start + delay + s.interval * i + s.interval
    ensures CurrentIndex(s, delay, now) == Some(i)
  {
    var x := now - (s.start + delay);
    FloorOf(x, s.interval);
    var q := x / s.interval;
    if q < i {
      MulMonotone(s.interval, q + 1, i);
    } else if i < q {
      MulMonotone(s.interval, i + 1, q);
    }
  }

  /** A report during an execution not yet reported is for it, or for the one expected if that is still timely. */
  lemma {:induction false} RunningReport(j: Job, p: Processor, now: nat, tolerance: nat, i: nat)
    requires j.registration.Some? && j.registration.value.schedule.Valid() && p in j.matches
    requires p in j.nextReport && j.nextReport[p] <= i < j.registration.value.schedule.ExecutionCount()
    requires var x := NthInterval(j.registration.value.schedule, j.matches[p].delay, i);
      x.0 <= now < x.1
    ensures ReportedIndex(j, p, now, tolerance).Some? && ReportedIndex(j, p, now, tolerance).value <= i
  {
    CurrentAt(j.registration.value.schedule, j.matches[p].delay, now, i);
    hide CurrentIndex;
  }

  /**
   * In every run of a job matched as a whole, a processor that has acknowledged and reports during an
   * execution it has not reported yet is paid its fee.
   */
  lemma {:induction false} ReportIsPaid(c: Settings, calls: seq<(Call, nat)>, p: Processor, now: nat, i: nat)
    requires c.percent <= 100 && Whole(calls) && p in Run(c, NO_JOB, calls).matches
    requires Run(c, NO_JOB, calls).matches[p].acknowledged && Run(c, NO_JOB, calls).registration.Some?
    requires var j := Run(c, NO_JOB, calls);
      && p in j.nextReport && j.nextReport[p] <= i < Count(j.registration.value)
      && var x := NthInterval(j.registration.value.schedule, j.matches[p].delay, i);
      x.0 <= now < x.1
    ensures var j, j' := Run(c, NO_JOB, calls), Next(c, Run(c, NO_JOB, calls), Report(p), now);
      && Amount(j'.paid, p) == Amount(j.paid, p) + j.matches[p].fee && j'.budget + j.matches[p].fee == j.budget
  {
    hide Run, Whole, Sound, Accounted, NO_JOB, ReportedIndex, NthInterval;
    WholeRun(c, calls);
    var j := Run(c, NO_JOB, calls);
    assert MatchOk(j, p);
    RunningReport(j, p, now, c.tolerance, i);
    hide PureOk, MatchOk;
    PureReported(j, p, now, c.tolerance);
    ReportPays(j, p, now, c.tolerance, p);
    hide Reporting;
  }

  // ----- reported executions -----

  /** Processor `p` has reported execution `i`: if it is still matched, only later ones are expected of it. */
  predicate Past(j: Job, p: Processor, i: nat) {
    && j.status != Some(Open)
    && (p in j.matches ==>
          && j.matches[p].execution.All? && j.matches[p].acknowledged
          && p in j.nextReport && i < j.nextReport[p])
  }

  lemma {:induction false} ReportPast(j: Job, p: Processor, now: nat, tolerance: nat)
    requires Reporting(j, p, now, tolerance).Some? && j.matches[p].execution.All? && p in j.nextReport
    requires j.status != Some(Open)
    ensures Past(Reporting(j, p, now, tolerance).value, p, ReportedIndex(j, p, now, tolerance).value)
  {
    ReportStep(j, p, now, tolerance);
    hide ReportedIndex;
  }

  lemma {:induction false} OtherReportPast(j: Job, q: Processor, now: nat, tolerance: nat, p: Processor, i: nat)
    requires Past(j, p, i) && Reporting(j, q, now, tolerance).Some?
    ensures Past(Reporting(j, q, now, tolerance).value, p, i)
  {
    if q == p {
      ReportPast(j, p, now, tolerance);
      ReportAdvances(j, p, now, tolerance);
    }
    hide ReportedIndex;
  }

  lemma {:induction false} AcknowledgePast(c: Settings, j: Job, q: Processor, execution: Execution, now: nat,
                                           p: Processor, i: nat)
    requires Past(j, p, i) && Acknowledging(j, q, execution, now, c.tolerance, c.percent).Some?
    ensures Past(Acknowledging(j, q, execution, now, c.tolerance, c.percent).value, p, i)
  {
    hide MatcherFee, ReportExpected;
  }

  /** Nothing but a new registration or a match of a single execution makes a processor start over. */
  lemma {:induction false} PastKept(c: Settings, j: Job, call: Call, now: nat, p: Processor, i: nat)
    requires IndicesAgree(j) && Past(j, p, i) && !call.Register? && !call.ProposeExecutionMatching?
    ensures Past(Next(c, j, call, now), p, i)
  {
    hide Acknowledging, Reporting, AssignedAll, Total, Payouts, Invalid, Expired;
    if Effect(c, j, call, now).Some? {
      match call
      case Acknowledge(q, execution) => AcknowledgePast(c, j, q, execution, now, p, i);
      case Report(q) => OtherReportPast(j, q, now, c.tolerance, p, i);
      case _ =>
    }
  }

  predicate NotRegistered(calls: seq<(Call, nat)>) {
    calls == [] || (!calls[0].0.Register? && NotRegistered(calls[1..]))
  }

  lemma {:induction false} PastRun(c: Settings, j: Job, calls: seq<(Call, nat)>, p: Processor, i: nat)
    requires Sound(j) && c.percent <= 100 && Past(j, p, i) && Whole(calls) && NotRegistered(calls)
    ensures Past(Run(c, j, calls), p, i)
    decreases |calls|
  {
    hide Past, Next, PureOk;
    if calls != [] {
      NextSound(c, j, calls[0].0, calls[0].1);
      PastKept(c, j, calls[0].0, calls[0].1, p, i);
      PastRun(c, Next(c, j, calls[0].0, calls[0].1), calls[1..], p, i);
    }
  }

  /**
   * The executions a processor reports strictly increase, whatever is acknowledged, reported by
   * others, cleaned up or deregistered between two of its reports.
   */
  lemma {:induction false} ReportsIncrease(c: Settings, before: seq<(Call, nat)>, p: Processor, now: nat,
                                           between: seq<(Call, nat)>, later: nat)
    requires c.percent <= 100 && Whole(before) && Whole(between) && NotRegistered(between)
    requires Reporting(Run(c, NO_JOB, before), p, now, c.tolerance).Some?
    requires var j := Run(c, Next(c, Run(c, NO_JOB, before), Report(p), now), between);
      Reporting(j, p, later, c.tolerance).Some?
    ensures var j1 := Run(c, NO_JOB, before);
      var j2 := Run(c, Next(c, j1, Report(p), now), between);
      ReportedIndex(j1, p, now, c.tolerance).value < ReportedIndex(j2, p, later, c.tolerance).value
  {
    hide Run, Whole, NotRegistered, ReportedIndex, Accounted, Sound, NO_JOB;
    WholeRun(c, before);
    var j1 := Run(c, NO_JOB, before);
    assert MatchOk(j1, p);
    ReportPast(j1, p, now, c.tolerance);
    var i := ReportedIndex(j1, p, now, c.tolerance).value;
    NextSound(c, j1, Report(p), now);
    PastRun(c, Next(c, j1, Report(p), now), between, p, i);
    ReportAdvances(Run(c, Next(c, j1, Report(p), now), between), p, later, c.tolerance);
  }
}
