/** A job from its registration to its end: matched, acknowledged, reported on, paid and refunded. */
module JobExample {
  import opened Wrappers
  import opened MapSums
  import opened Schedules
  import opened JobMarket
  import opened JobRuns

  /** Half of what a price saves goes to the matcher. */
  const CFG := Settings(0, 50, 0)

  /** Two executions of one unit of time, at 10 and 15, for a reward of 10 each. */
  const TWICE := Registration(10, 1, Schedule(1, 10, 20, 5, 0))
  const PLAN := Plan(7, 0, 4, true)

  const REGISTERED := NO_JOB.(registration := Some(TWICE), status := Some(Open), budget := 20, locked := 20,
                              funded := 20)

  const AGREED := Match(All, 0, 4, false, 2, 0)

  const MATCHED := REGISTERED.(status := Some(Matched), matches := map[7 := AGREED], processors := {7},
                               matcher := Some(3), paid := map[7 := 0], commission := map[7 := 0])

  /** The matcher got half of the 12 saved. */
  const ACKNOWLEDGED := MATCHED.(status := Some(Assigned(1)), matches := map[7 := AGREED.(acknowledged := true)],
                                 nextReport := map[7 := 0], budget := 14, spent := 6, paid := map[7 := 6],
                                 commission := map[7 := 6])

  const REPORTED := ACKNOWLEDGED.(matches := map[7 := AGREED.(acknowledged := true, met := 1)],
                                  nextReport := map[7 := 1], budget := 10, spent := 10, paid := map[7 := 10])

  lemma {:induction false} Counts()
    ensures TWICE.schedule.ExecutionCount() == 2 && Count(TWICE) == 2 && TotalReward(TWICE) == 20
    ensures TWICE.schedule.Valid()
  {
  }

  lemma {:induction false} Registers()
    ensures Next(CFG, NO_JOB, Register(TWICE, None, true), 0) == REGISTERED
  {
    Counts();
    hide Schedule.ExecutionCount, TotalReward, Count;
  }

  lemma {:induction false} Matches()
    ensures Next(CFG, REGISTERED, ProposeMatching([PLAN], Some(3)), 0) == MATCHED
  {
    Counts();
    hide Schedule.ExecutionCount, Count;
    var plans := [PLAN];
    var j := Assigning(REGISTERED, PLAN);
    assert plans[1..] == [];
    assert AssignedAll(j, []) == Some(j);
    assert AssignedAll(REGISTERED, plans) == Some(j);
    hide AssignedAll;
    assert j.matches == MATCHED.matches && j.processors == MATCHED.processors;
    assert j.paid == MATCHED.paid && j.commission == MATCHED.commission;
  }

  lemma {:induction false} Acknowledges()
    ensures Next(CFG, MATCHED, Acknowledge(7, All), 5) == ACKNOWLEDGED
  {
    Counts();
    var m := AGREED.(acknowledged := true);
    assert MatcherFee(m, TWICE, 50) == 6;
    hide Schedule.ExecutionCount, Count, MatcherFee;
    assert MATCHED.matches[7 := m] == ACKNOWLEDGED.matches;
    assert MATCHED.nextReport[7 := 0] == ACKNOWLEDGED.nextReport;
    assert MATCHED.commission[7 := 6] == ACKNOWLEDGED.commission;
    assert MATCHED.paid[7 := 6] == ACKNOWLEDGED.paid;
  }

  lemma {:induction false} FirstReport()
    ensures ReportedIndex(ACKNOWLEDGED, 7, 10, 0) == Some(0)
  {
    Counts();
    hide Schedule.ExecutionCount;
    assert TWICE.schedule.NthStartTime(0, 0) == Some(10);
    assert CurrentIndex(TWICE.schedule, 0, 10) == Some(0);
  }

  lemma {:induction false} Reports()
    ensures Next(CFG, ACKNOWLEDGED, Report(7), 10) == REPORTED
  {
    FirstReport();
    hide ReportedIndex;
    assert ACKNOWLEDGED.matches[7 := AGREED.(acknowledged := true, met := 1)] == REPORTED.matches;
    assert ACKNOWLEDGED.nextReport[7 := 1] == REPORTED.nextReport;
    assert ACKNOWLEDGED.paid[7 := 10] == REPORTED.paid;
  }

  lemma {:induction false} PaidOnceMore()
    ensures Payouts(REPORTED, 11) == map[7 := 4] && Total(Payouts(REPORTED, 11)) == 4
  {
    var due := Payouts(REPORTED, 11);
    assert due == map[7 := 4];
    TotalPick(due, 7);
    assert due - {7} == map[];
    NothingPaid();
  }

  lemma {:induction false} Ends()
    ensures var j := Next(CFG, REPORTED, Deregister({}), 11);
      j.registration.None? && j.matches == map[] && j.budget == 0 && j.funded == 20 && j.spent == 14 && j.refunded == 6
  {
    PaidOnceMore();
    hide Payouts, Total;
    assert REPORTED.matches - REPORTED.processors == map[];
  }

  lemma {:induction false} RunStep(j: Job, call: Call, now: nat, calls: seq<(Call, nat)>)
    ensures Run(CFG, j, [(call, now)] + calls) == Run(CFG, Next(CFG, j, call, now), calls)
  {
    hide Next;
    var all := [(call, now)] + calls;
    assert all[0] == (call, now) && all[1..] == calls;
  }

  lemma {:induction false} RunNone(j: Job)
    ensures Run(CFG, j, []) == j
  {
  }

  /** Of 20 locked, 6 go to the matcher, 4 to a report, 4 to the processor at the end, and 6 back. */
  lemma {:induction false} JobFromBeginningToEnd() returns (calls: seq<(Call, nat)>)
    ensures Whole(calls) && |calls| == 5
    ensures var j := Run(CFG, NO_JOB, calls);
      j.registration.None? && j.matches == map[] && j.budget == 0 && j.funded == 20 && j.spent == 14 && j.refunded == 6
  {
    hide Run, Next, REGISTERED, MATCHED, ACKNOWLEDGED, REPORTED;
    var c5: seq<(Call, nat)> := [(Deregister({}), 11)] + [];
    var c4 := [(Report(7), 10)] + c5;
    var c3 := [(Acknowledge(7, All), 5)] + c4;
    var c2 := [(ProposeMatching([PLAN], Some(3)), 0)] + c3;
    calls := [(Register(TWICE, None, true), 0)] + c2;
    Registers();
    Matches();
    Acknowledges();
    Reports();
    Ends();
    RunStep(NO_JOB, Register(TWICE, None, true), 0, c2);
    RunStep(REGISTERED, ProposeMatching([PLAN], Some(3)), 0, c3);
    RunStep(MATCHED, Acknowledge(7, All), 5, c4);
    RunStep(ACKNOWLEDGED, Report(7), 10, c5);
    RunStep(REPORTED, Deregister({}), 11, []);
    RunNone(Next(CFG, REPORTED, Deregister({}), 11));
    assert c5[1..] == [] && c4[1..] == c5 && c3[1..] == c4 && c2[1..] == c3 && calls[1..] == c2;
    assert Whole(c5) && Whole(c4) && Whole(c3) && Whole(c2);
  }
}
