/**
 * One job of the marketplace: everything storage holds under its id. Matches are stored by
 * processor and job, assigned processors by job and processor; here both are seen for one job.
 *
 * `mixed` says that single executions of the job have been matched. `paid` and `locked` are what
 * was paid on account of each matched processor and what was locked for the job since its budget
 * was last empty; `commission` is the part of `paid` that went to the matcher. `funded`, `spent` and
 * `refunded` are all that was ever locked, paid out and returned. None of it is in the chain's storage.
 * What is paid leaves the budget; the runtime decides how it is passed on.
 */
module JobMarket {
  import opened Wrappers
  import opened Arithmetic
  import opened MapSums
  import opened Schedules

  type Processor = nat
  type Matcher = nat

  datatype Registration = Registration(reward: nat, slots: nat, schedule: Schedule)

  datatype Status = Open | Matched | Assigned(count: nat)

  datatype Match = Match(execution: Execution, delay: nat, fee: nat, acknowledged: bool, total: nat, met: nat)

  datatype Job = Job(
    registration: Option<Registration>, status: Option<Status>, executions: map<nat, Status>,
    matches: map<Processor, Match>, processors: set<Processor>, nextReport: map<Processor, nat>,
    matcher: Option<Matcher>,
    budget: nat, mixed: bool, paid: map<Processor, nat>, commission: map<Processor, nat>, locked: nat,
    funded: nat, spent: nat, refunded: nat)

  const NO_JOB := Job(None, None, map[], map[], {}, map[], None, 0, false, map[], map[], 0, 0, 0, 0)

  /** A processor proposed for a slot, at a price, and whether it meets the job's other requirements. */
  datatype Plan = Plan(processor: Processor, delay: nat, fee: nat, admissible: bool)

  function Count(r: Registration): nat {
    r.schedule.ExecutionCount()
  }

  function TotalReward(r: Registration): nat {
    r.reward * r.slots * Count(r)
  }

  // ----- what holds in every reachable state -----

  /** The two indices agree. */
  predicate IndicesAgree(j: Job) {
    j.matches.Keys == j.processors
  }

  /** What may have been paid on account of an acknowledged match so far. */
  function Due(m: Match, r: Registration): nat
    requires m.fee <= r.reward
  {
    (r.reward - m.fee) * Count(r) + m.fee * m.met
  }

  ghost predicate MatchOk(j: Job, p: Processor)
    requires j.registration.Some? && p in j.matches
  {
    var r, m := j.registration.value, j.matches[p];
    && m.execution.All? && m.total == Count(r) && m.fee <= r.reward
    && p in j.paid && j.paid[p] == Amount(j.commission, p) + m.fee * m.met
    && Amount(j.commission, p) <= (if m.acknowledged then (r.reward - m.fee) * Count(r) else 0)
    && if m.acknowledged then p in j.nextReport && m.met <= j.nextReport[p] < m.total else m.met == 0
  }

  ghost predicate Accounted(j: Job)
    requires j.registration.Some?
  {
    var r := j.registration.value;
    && TotalReward(r) <= j.locked && j.budget + Total(j.paid) == j.locked
    && |j.paid| <= r.slots
    && forall p :: p in j.paid ==> j.paid[p] <= r.reward * Count(r)
  }

  /** A job none of whose executions was matched singly. */
  ghost predicate PureOk(j: Job) {
    && (j.registration.None? ==> j.matches == map[] && j.status.None? && j.budget == 0)
    && (j.registration.Some? ==>
          && j.registration.value.schedule.Valid() && j.status.Some?
          && Accounted(j)
          && (j.status == Some(Open) ==> j.matches == map[] && j.paid == map[])
          && (forall p :: p in j.matches ==> MatchOk(j, p)))
  }

  /** All that was ever locked for the job is in its budget, or was paid out or returned. */
  predicate Conserved(j: Job) {
    j.funded == j.budget + j.spent + j.refunded
  }

  ghost predicate Sound(j: Job) {
    IndicesAgree(j) && Conserved(j) && (!j.mixed ==> PureOk(j))
  }

  // ----- the budget -----

  lemma {:induction false} TotalBound(m: map<Processor, nat>, bound: nat)
    requires forall p :: p in m ==> m[p] <= bound
    ensures Total(m) <= |m| * bound
    decreases |m|
  {
    if m != map[] {
      var p :| p in m && Total(m) == m[p] + Total(m - {p});
      TotalBound(m - {p}, bound);
      assert |m - {p}| == |m| - 1 by { assert (m - {p}).Keys == m.Keys - {p}; }
      OneMore(|m - {p}|, bound);
    }
  }

  lemma {:induction false} OneMore(n: nat, bound: nat)
    ensures (n + 1) * bound == n * bound + bound
  {
  }

  lemma {:induction false} SlotBound(size: nat, slots: nat, reward: nat, count: nat)
    requires size <= slots
    ensures size * (reward * count) <= reward * slots * count
  {
    assert size * (reward * count) <= slots * (reward * count);
    assert slots * (reward * count) == reward * slots * count;
  }

  /** What is paid to a matched processor, within its part of the reward, is there. */
  lemma {:induction false} Covered(j: Job, p: Processor, amount: nat)
    requires j.registration.Some? && Accounted(j) && p in j.paid
    requires j.paid[p] + amount <= j.registration.value.reward * Count(j.registration.value)
    ensures amount <= j.budget
    ensures Accounted(Paid(j, p, amount))
  {
    var r := j.registration.value;
    var paid := j.paid[p := j.paid[p] + amount];
    assert paid - {p} == j.paid - {p};
    TotalChange(j.paid, paid, p);
    assert |paid| == |j.paid| by { assert paid.Keys == j.paid.Keys; }
    TotalBound(paid, r.reward * Count(r));
    SlotBound(|paid|, r.slots, r.reward, Count(r));
    hide Total;
  }

  /** `amount` is taken from the budget on account of a processor. */
  function Paid(j: Job, p: Processor, amount: nat): Job {
    var taken := if amount <= j.budget then amount else j.budget;
    j.(budget := j.budget - taken, spent := j.spent + taken, paid := j.paid[p := Amount(j.paid, p) + amount])
  }

  // ----- matching -----

  function Assigning(j: Job, plan: Plan): Job
    requires j.registration.Some?
  {
    var m := Match(All, plan.delay, plan.fee, false, Count(j.registration.value), 0);
    j.(matches := j.matches[plan.processor := m], processors := j.processors + {plan.processor},
       paid := j.paid[plan.processor := 0], commission := j.commission[plan.processor := 0])
  }

  function AssignedAll(j: Job, plans: seq<Plan>): Option<Job>
    requires j.registration.Some?
    decreases |plans|
  {
    if plans == [] then Some(j)
    else
      var plan := plans[0];
      if !plan.admissible || plan.fee > j.registration.value.reward || plan.processor in j.matches then None
      else AssignedAll(Assigning(j, plan), plans[1..])
  }

  /** Matching an open job; a job that is no longer open is skipped. */
  function Matching(j: Job, plans: seq<Plan>, matcher: Option<Matcher>, now: nat): Option<Job> {
    if j.status.None? then None
    else if j.status.value != Open then Some(j)
    else if j.registration.None? then None
    else if now >= j.registration.value.schedule.start || |plans| != j.registration.value.slots then None
    else
      match AssignedAll(j, plans)
      case None => None
      case Some(j') =>
        Some(j'.(status := Some(Matched),
                 matcher := if matcher.Some? && plans != [] then matcher else j'.matcher))
  }

  /** What the conservation of a job's funds depends on. */
  function Ledgers(j: Job): (nat, nat, nat, nat) {
    (j.funded, j.budget, j.spent, j.refunded)
  }

  /** While a job is being matched. */
  ghost predicate Filling(j: Job, open: nat) {
    && IndicesAgree(j) && j.registration.Some? && j.registration.value.schedule.Valid()
    && |j.paid| + open <= j.registration.value.slots
    && j.paid.Keys == j.matches.Keys
    && (forall p :: p in j.matches ==> j.paid[p] == 0 && MatchOk(j, p))
  }

  lemma {:induction false} FillSlot(j: Job, plan: Plan, open: nat)
    requires Filling(j, open + 1) && plan.fee <= j.registration.value.reward && plan.processor !in j.matches
    ensures Filling(Assigning(j, plan), open)
  {
    hide MatchOk, Count;
    var j' := Assigning(j, plan);
    assert |j'.paid| == |j.paid| + 1 by { assert j'.paid.Keys == j.paid.Keys + {plan.processor}; }
    assert j'.matches.Keys == j.matches.Keys + {plan.processor};
    forall p | p in j'.matches
      ensures j'.paid[p] == 0 && MatchOk(j', p)
    {
      AssigningOk(j, plan, p);
    }
  }

  lemma {:induction false} AssigningOk(j: Job, plan: Plan, p: Processor)
    requires j.registration.Some? && plan.fee <= j.registration.value.reward && plan.processor !in j.matches
    requires p in j.matches ==> MatchOk(j, p)
    ensures p in Assigning(j, plan).matches ==> MatchOk(Assigning(j, plan), p)
  {
    hide Count;
  }

  lemma {:induction false} FillSlots(j: Job, plans: seq<Plan>)
    requires Filling(j, |plans|) && AssignedAll(j, plans).Some?
    ensures var j' := AssignedAll(j, plans).value;
      && Filling(j', 0) && j'.budget == j.budget && j'.locked == j.locked && j'.registration == j.registration
      && j'.mixed == j.mixed && j'.status == j.status && j'.executions == j.executions && Ledgers(j) == Ledgers(j')
    decreases |plans|
  {
    assert j.registration.Some?;
    hide Filling;
    if plans != [] {
      FillSlot(j, plans[0], |plans| - 1);
      FillSlots(Assigning(j, plans[0]), plans[1..]);
    }
  }

  lemma {:induction false} ZeroPaid(m: map<Processor, nat>)
    requires forall p :: p in m ==> m[p] == 0
    ensures Total(m) == 0
  {
    TotalZero(m);
  }

  lemma {:induction false} AssignedAgree(j: Job, plans: seq<Plan>)
    requires j.registration.Some? && IndicesAgree(j) && AssignedAll(j, plans).Some?
    ensures IndicesAgree(AssignedAll(j, plans).value) && AssignedAll(j, plans).value.mixed == j.mixed
    ensures Ledgers(AssignedAll(j, plans).value) == Ledgers(j)
    decreases |plans|
  {
    if plans != [] {
      assert Assigning(j, plans[0]).matches.Keys == j.matches.Keys + {plans[0].processor};
      AssignedAgree(Assigning(j, plans[0]), plans[1..]);
    }
  }

  lemma {:induction false} MatchingSound(j: Job, plans: seq<Plan>, matcher: Option<Matcher>, now: nat)
    requires Sound(j) && Matching(j, plans, matcher, now).Some?
    ensures Sound(Matching(j, plans, matcher, now).value)
  {
    if j.status == Some(Open) {
      AssignedAgree(j, plans);
      if !j.mixed {
        PureMatching(j, plans, matcher, now);
      }
    }
  }

  lemma {:induction false} FilledAccounted(j: Job)
    requires Filling(j, 0) && TotalReward(j.registration.value) <= j.locked && j.budget == j.locked
    ensures Accounted(j)
  {
    hide TotalReward, MatchOk, Count;
    assert forall p :: p in j.paid ==> j.paid[p] == 0;
    hide Filling, Total;
    FilledSlots(j);
    ZeroPaid(j.paid);
  }

  lemma {:induction false} FilledSlots(j: Job)
    requires Filling(j, 0)
    ensures j.registration.Some? && |j.paid| <= j.registration.value.slots
  {
    hide MatchOk;
  }

  /** A job whose slots have been filled, with nothing paid yet. */
  lemma {:induction false} FilledOk(j: Job, matcher: Option<Matcher>)
    requires Filling(j, 0) && TotalReward(j.registration.value) <= j.locked && j.budget == j.locked
    ensures PureOk(j.(status := Some(Matched), matcher := matcher))
  {
    FilledAccounted(j);
    hide TotalReward, Total, MatchOk, Count, Accounted;
    var j' := j.(status := Some(Matched), matcher := matcher);
    AccountedSame(j, j');
    forall p | p in j'.matches
      ensures MatchOk(j', p)
    {
      MatchSame(j, j', p);
    }
  }

  lemma {:induction false} MatchSame(j: Job, j': Job, p: Processor)
    requires j.registration.Some? && p in j.matches && MatchOk(j, p)
    requires j' == j.(status := j'.status, matcher := j'.matcher)
    ensures MatchOk(j', p)
  {
  }

  lemma {:induction false} PureMatching(j: Job, plans: seq<Plan>, matcher: Option<Matcher>, now: nat)
    requires IndicesAgree(j) && PureOk(j) && j.status == Some(Open) && Matching(j, plans, matcher, now).Some?
    ensures PureOk(Matching(j, plans, matcher, now).value)
  {
    NothingPaid();
    hide AssignedAll, Total, TotalReward, PureOk, MatchOk, Count;
    OpenFilling(j, |plans|);
    FillSlots(j, plans);
    var j' := AssignedAll(j, plans).value;
    FilledOk(j', Matching(j, plans, matcher, now).value.matcher);
  }

  lemma {:induction false} OpenFilling(j: Job, open: nat)
    requires IndicesAgree(j) && PureOk(j) && j.status == Some(Open)
    requires j.registration.Some? ==> open == j.registration.value.slots
    ensures j.registration.Some? && Filling(j, open)
    ensures TotalReward(j.registration.value) <= j.locked && j.budget == j.locked
  {
    NothingPaid();
    hide Total, TotalReward;
  }

  lemma {:induction false} NothingPaid()
    ensures Total<Processor>(map[]) == 0
  {
  }

  // ----- registering -----

  const MAX_EXECUTIONS: nat := 6_308_000

  predicate Registrable(r: Registration, now: nat) {
    && r.schedule.Valid() && Count(r) <= MAX_EXECUTIONS && now <= r.schedule.start <= r.schedule.end && r.slots > 0
  }

  /** The reward for all slots and executions is locked. */
  function Locked(j: Job, amount: nat): Job {
    j.(budget := j.budget + amount, locked := j.locked + amount, funded := j.funded + amount)
  }

  /** The job as its registration is stored, before its reward is locked. */
  function Stored(j: Job, r: Registration): Job {
    var j := if j.registration.None? then j.(paid := map[], commission := map[], locked := 0) else j;
    j.(registration := Some(r), status := Some(Open))
  }

  /** Registering a job, perhaps with a match right away; `lockable` is whether its owner has the reward. */
  function Registering(j: Job, r: Registration, instant: Option<seq<Plan>>, now: nat, lockable: bool): Option<Job> {
    if !Registrable(r, now) || (j.status.Some? && j.status.value != Open) then None
    else
      var j1 := Stored(j, r);
      var j2 := if instant.Some? then Matching(j1, instant.value, None, now) else Some(j1);
      match j2
      case None => None
      case Some(v) => if lockable then Some(Locked(v, TotalReward(r))) else None
  }

  lemma {:induction false} AssigningLocked(j: Job, plans: seq<Plan>, amount: nat)
    requires j.registration.Some?
    ensures AssignedAll(Locked(j, amount), plans)
         == match AssignedAll(j, plans) case None => None case Some(v) => Some(Locked(v, amount))
    decreases |plans|
  {
    if plans != [] && plans[0].processor !in j.matches {
      assert Assigning(Locked(j, amount), plans[0]) == Locked(Assigning(j, plans[0]), amount);
      AssigningLocked(Assigning(j, plans[0]), plans[1..], amount);
    }
  }

  /** It does not matter to a match whether the reward is locked before or after it. */
  lemma {:induction false} MatchingLocked(j: Job, plans: seq<Plan>, matcher: Option<Matcher>, now: nat, amount: nat)
    ensures Matching(Locked(j, amount), plans, matcher, now)
         == match Matching(j, plans, matcher, now) case None => None case Some(v) => Some(Locked(v, amount))
  {
    hide AssignedAll;
    if j.registration.Some? {
      AssigningLocked(j, plans, amount);
    }
  }

  lemma {:induction false} StoredSound(j: Job, r: Registration, now: nat)
    requires Sound(j) && Registrable(r, now) && (j.status.Some? ==> j.status.value == Open)
    ensures Sound(Locked(Stored(j, r), TotalReward(r)))
  {
    NothingPaid();
    hide TotalReward, Total;
  }

  lemma {:induction false} RegisteringSound(j: Job, r: Registration, instant: Option<seq<Plan>>, now: nat,
                                            lockable: bool)
    requires Sound(j) && Registering(j, r, instant, now, lockable).Some?
    ensures Sound(Registering(j, r, instant, now, lockable).value)
  {
    hide Sound, Matching, Stored, TotalReward;
    StoredSound(j, r, now);
    if instant.Some? {
      MatchingLocked(Stored(j, r), instant.value, None, now, TotalReward(r));
      MatchingSound(Locked(Stored(j, r), TotalReward(r)), instant.value, None, now);
    }
  }

  // ----- acknowledging -----

  /** A payment out of the budget, which fails if the budget is short. */
  function Paying(j: Job, p: Processor, amount: nat): Option<Job> {
    if amount > j.budget then None else Some(Paid(j, p, amount))
  }

  function MatcherFee(m: Match, r: Registration, percent: nat): nat {
    var diff := if m.fee <= r.reward then r.reward - m.fee else 0;
    percent * (if m.execution.All? then diff * Count(r) else diff) / 100
  }

  predicate Timely(s: Schedule, delay: nat, now: nat, index: nat, tolerance: nat) {
    var t := s.NthStartTime(delay, index);
    t.Some? && t.value <= now < t.value + s.duration + tolerance
  }

  function Raised(status: Status): Option<Status> {
    match status
    case Open => None
    case Matched => Some(Assigned(1))
    case Assigned(n) => Some(Assigned(n + 1))
  }

  function StatusOf(j: Job, i: nat): Status {
    if i in j.executions then j.executions[i] else Open
  }

  /** The status after one more acknowledgment, of the job or of one execution of it. */
  function StatusRaised(j: Job, execution: Execution): Option<Job> {
    match execution
    case All =>
      if j.status.None? then None
      else
        (match Raised(j.status.value)
         case None => None
         case Some(s) => Some(j.(status := Some(s))))
    case Index(i) =>
      match Raised(StatusOf(j, i))
      case None => None
      case Some(s) => Some(j.(executions := j.executions[i := s], status := Some(s)))
  }

  lemma {:induction false} StatusRaisedKeeps(j: Job, execution: Execution)
    ensures var r := StatusRaised(j, execution);
      && (r.Some? ==> r.value == j.(status := r.value.status, executions := r.value.executions))
      && (execution.All? && j.status.Some? && j.status.value != Open ==>
            r.Some? && r.value.executions == j.executions && r.value.status.Some? && r.value.status != Some(Open))
  {
  }

  function ReportExpected(j: Job, p: Processor, m: Match, now: nat, tolerance: nat): nat
    requires j.registration.Some?
  {
    match m.execution
    case All => 0
    case Index(i) =>
      if p !in j.nextReport || !Timely(j.registration.value.schedule, m.delay, now, j.nextReport[p], tolerance) then i
      else j.nextReport[p]
  }

  predicate MayAcknowledge(j: Job, p: Processor, execution: Execution, now: nat) {
    && j.registration.Some? && p in j.matches && j.matches[p].execution == execution
    && var s, delay := j.registration.value.schedule, j.matches[p].delay;
    now <= match execution
           case All => s.start + delay
           case Index(i) => (match s.NthStartTime(delay, i) case None => 0 case Some(t) => t)
  }

  /** The first acknowledgment of a match: it counts, reports are expected, the matcher is paid. */
  function FirstAcknowledged(j: Job, p: Processor, now: nat, tolerance: nat, percent: nat): Option<Job>
    requires j.registration.Some? && p in j.matches
  {
    var m := j.matches[p].(acknowledged := true);
    match StatusRaised(j.(matches := j.matches[p := m]), m.execution)
    case None => None
    case Some(j1) =>
      var j2 := j1.(nextReport := j1.nextReport[p := ReportExpected(j, p, m, now, tolerance)]);
      if j2.matcher.None? then Some(j2)
      else
        var fee := MatcherFee(m, j.registration.value, percent);
        Paying(j2.(commission := j2.commission[p := fee]), p, fee)
  }

  function Acknowledging(j: Job, p: Processor, execution: Execution, now: nat, tolerance: nat,
                         percent: nat): Option<Job>
  {
    if !MayAcknowledge(j, p, execution, now) then None
    else if j.matches[p].acknowledged then Some(j)
    else FirstAcknowledged(j, p, now, tolerance, percent)
  }

  // ----- reporting -----

  function CurrentIndex(s: Schedule, delay: nat, now: nat): Option<nat> {
    if now < s.start + delay || s.interval == 0 || s.ExecutionCount() == 0 then None
    else
      var i := (now - (s.start + delay)) / s.interval;
      Some(if i < s.ExecutionCount() then i else s.ExecutionCount() - 1)
  }

  /** The execution a report is accepted for: the one expected, or the current one if that came too late. */
  function ReportedIndex(j: Job, p: Processor, now: nat, tolerance: nat): Option<nat>
    requires j.registration.Some? && p in j.matches
  {
    var s, m := j.registration.value.schedule, j.matches[p];
    var current := match CurrentIndex(s, m.delay, now) case None => 0 case Some(i) => i;
    var expected := if p in j.nextReport then j.nextReport[p] else current;
    if current < expected then None
    else if Timely(s, m.delay, now, expected, tolerance) || expected == current then Some(expected)
    else if Timely(s, m.delay, now, current, tolerance) then Some(current)
    else None
  }

  /** The next report expected after one for execution `i`. */
  function NextExpected(m: Match, i: nat): Option<nat> {
    match m.execution
    case All => if i + 1 < m.total then Some(i + 1) else None
    case Index(k) => if i != k then Some(k) else None
  }

  predicate MayReport(j: Job, p: Processor) {
    && p in j.matches && j.matches[p].acknowledged && j.matches[p].met < j.matches[p].total
    && j.registration.Some?
  }

  function Reporting(j: Job, p: Processor, now: nat, tolerance: nat): Option<Job> {
    if !MayReport(j, p) then None
    else
      var m := j.matches[p];
      match ReportedIndex(j, p, now, tolerance)
      case None => None
      case Some(i) =>
        var next := NextExpected(m, i);
        match Paying(j, p, m.fee)
        case None => None
        case Some(j1) =>
          Some(if next.Some? then j1.(matches := j1.matches[p := m.(met := m.met + 1)],
                                      nextReport := j1.nextReport[p := next.value])
               else j1.(matches := j1.matches - {p}, processors := j1.processors - {p},
                        nextReport := j1.nextReport - {p}))
  }

  // ----- why payments are covered -----

  lemma {:induction false} FeeBound(m: Match, r: Registration, percent: nat)
    requires m.execution.All? && m.fee <= r.reward && percent <= 100
    ensures MatcherFee(m, r, percent) <= (r.reward - m.fee) * Count(r) <= r.reward * Count(r)
  {
    var n := Count(r);
    hide Count;
    PartBound(percent, 100, (r.reward - m.fee) * n);
    MulMonotone(n, r.reward - m.fee, r.reward);
  }

  /** With one more report, at most the whole reward of the slot is due. */
  lemma {:induction false} DueBound(m: Match, r: Registration)
    requires m.fee <= r.reward && m.met < Count(r)
    ensures Due(m, r) + m.fee == Due(m.(met := m.met + 1), r) <= r.reward * Count(r)
  {
    var n := Count(r);
    hide Count;
    OneMore(m.met, m.fee);
    MulMonotone(m.fee, m.met + 1, n);
    assert (r.reward - m.fee) * n + m.fee * n == r.reward * n;
  }

  lemma {:induction false} PaidWithin(j: Job, p: Processor)
    requires j.registration.Some? && p in j.matches && MatchOk(j, p) && j.matches[p].acknowledged
    ensures j.paid[p] <= Due(j.matches[p], j.registration.value)
  {
  }

  /** Two states of a job that differ in what they hold of one processor. */
  predicate OnlyAt(j: Job, j': Job, p: Processor) {
    && j'.matches - {p} == j.matches - {p} && j'.paid - {p} == j.paid - {p}
    && j'.nextReport - {p} == j.nextReport - {p} && j'.commission - {p} == j.commission - {p}
  }

  /** A pure job's match changes, within what is due for it. */
  lemma {:induction false} MatchChanged(j: Job, j': Job, p: Processor)
    requires PureOk(j) && j.registration.Some? && p in j.matches && j'.registration == j.registration
    requires Accounted(j') && j'.status.Some? && j'.status != Some(Open)
    requires OnlyAt(j, j', p)
    requires p in j'.matches ==> MatchOk(j', p)
    ensures PureOk(j')
  {
    hide Accounted, Due;
    forall q | q in j'.matches
      ensures MatchOk(j', q)
    {
      if q != p {
        assert q in j'.matches - {p} && q in j.matches - {p};
        assert MatchOk(j, q);
        assert q in j.paid - {p} && q in j'.paid - {p};
        assert q in j.commission - {p} <==> q in j'.commission - {p};
        assert q in j.commission ==> (j.commission - {p})[q] == (j'.commission - {p})[q];
        if j.matches[q].acknowledged {
          assert q in j.nextReport - {p} && q in j'.nextReport - {p};
        }
      }
    }
  }

  lemma {:induction false} AccountedSame(j: Job, j': Job)
    requires j.registration.Some? && Accounted(j) && j'.registration == j.registration
    requires j'.paid == j.paid && j'.budget == j.budget && j'.locked == j.locked
    ensures Accounted(j')
  {
    hide Total, TotalReward;
  }

  lemma {:induction false} AcknowledgedShape(j: Job, p: Processor, now: nat, tolerance: nat, percent: nat)
    requires j.registration.Some? && p in j.matches && j.matches[p].execution.All?
    requires j.status.Some? && j.status.value != Open
    requires MatcherFee(j.matches[p], j.registration.value, percent) <= j.budget
    ensures var j' := FirstAcknowledged(j, p, now, tolerance, percent);
      var fee := MatcherFee(j.matches[p], j.registration.value, percent);
      && j'.Some? && j'.value.status.Some? && j'.value.status != Some(Open)
      && j'.value == (if j.matcher.None? then j else Paid(j.(commission := j.commission[p := fee]), p, fee)).(
           status := j'.value.status, matches := j.matches[p := j.matches[p].(acknowledged := true)],
           nextReport := j.nextReport[p := 0])
  {
    hide Count, StatusRaised;
    var m := j.matches[p].(acknowledged := true);
    assert MatcherFee(m, j.registration.value, percent) == MatcherFee(j.matches[p], j.registration.value, percent);
    hide MatcherFee;
    StatusRaisedKeeps(j.(matches := j.matches[p := m]), m.execution);
  }

  /** An acknowledged match of a pure job, with the matcher's fee paid or not. */
  lemma {:induction false} AcknowledgedOk(j: Job, j': Job, p: Processor, fee: nat)
    requires j.registration.Some? && p in j.matches && !j.matches[p].acknowledged && MatchOk(j, p)
    requires j'.registration == j.registration && p in j'.nextReport && j'.nextReport[p] == 0
    requires p in j'.matches && j'.matches[p] == j.matches[p].(acknowledged := true)
    requires p in j'.paid && j'.paid[p] == j.paid[p] + fee && Amount(j'.commission, p) == fee
    requires j.registration.value.schedule.Valid()
    requires fee <= (j.registration.value.reward - j.matches[p].fee) * Count(j.registration.value)
    ensures MatchOk(j', p)
  {
  }

  lemma {:induction false} AcknowledgedPays(j: Job, p: Processor, now: nat, tolerance: nat, percent: nat)
    requires PureOk(j) && j.registration.Some? && p in j.matches && !j.matches[p].acknowledged && percent <= 100
    ensures MatchOk(j, p) && j.status.Some? && j.status.value != Open
    ensures var fee := MatcherFee(j.matches[p], j.registration.value, percent);
      && fee <= j.budget && Accounted(Paid(j, p, fee)) && Accounted(j)
      && fee <= (j.registration.value.reward - j.matches[p].fee) * Count(j.registration.value)
      && Amount(j.commission, p) == 0 && j.paid[p] == 0
  {
    hide Total, TotalReward;
    assert MatchOk(j, p);
    FeeBound(j.matches[p], j.registration.value, percent);
    var fee := MatcherFee(j.matches[p], j.registration.value, percent);
    hide MatcherFee;
    Covered(j, p, fee);
  }

  /** The matcher of a pure job can always be paid, and the job stays accounted for. */
  lemma {:induction false} PureAcknowledged(j: Job, p: Processor, now: nat, tolerance: nat, percent: nat)
    requires PureOk(j) && j.registration.Some? && p in j.matches && !j.matches[p].acknowledged && percent <= 100
    ensures FirstAcknowledged(j, p, now, tolerance, percent).Some?
    ensures PureOk(FirstAcknowledged(j, p, now, tolerance, percent).value)
    ensures FirstAcknowledged(j, p, now, tolerance, percent).value.mixed == j.mixed
  {
    AcknowledgedPays(j, p, now, tolerance, percent);
    AcknowledgedValid(j, p);
    hide FirstAcknowledged, MatcherFee, Accounted, MatchOk, PureOk, Count, Paid, OnlyAt;
    AcknowledgedFields(j, p, now, tolerance, percent);
    var fee := MatcherFee(j.matches[p], j.registration.value, percent);
    var j' := FirstAcknowledged(j, p, now, tolerance, percent).value;
    AccountedSame(if j.matcher.None? then j else Paid(j, p, fee), j');
    AcknowledgedOk(j, j', p, if j.matcher.None? then 0 else fee);
    AcknowledgedOnlyAt(j, j', p);
    MatchChanged(j, j', p);
  }

  lemma {:induction false} AcknowledgedFields(j: Job, p: Processor, now: nat, tolerance: nat, percent: nat)
    requires j.registration.Some? && p in j.matches && j.matches[p].execution.All?
    requires j.status.Some? && j.status.value != Open && p in j.paid && Amount(j.commission, p) == 0
    requires MatcherFee(j.matches[p], j.registration.value, percent) <= j.budget
    ensures FirstAcknowledged(j, p, now, tolerance, percent).Some?
    ensures var j', fee := FirstAcknowledged(j, p, now, tolerance, percent).value,
                           if j.matcher.None? then 0 else MatcherFee(j.matches[p], j.registration.value, percent);
      var paid := if j.matcher.None? then j else Paid(j, p, fee);
      && j'.registration == j.registration && j'.mixed == j.mixed && j'.status.Some? && j'.status != Some(Open)
      && j'.matches == j.matches[p := j.matches[p].(acknowledged := true)] && j'.nextReport == j.nextReport[p := 0]
      && j'.paid == paid.paid && j'.budget == paid.budget && j'.locked == paid.locked
      && paid.registration == j.registration && j'.paid == j.paid[p := j.paid[p] + fee]
      && Amount(j'.commission, p) == fee
      && (j'.commission == j.commission[p := fee] || j'.commission == j.commission)
  {
    hide FirstAcknowledged, MatcherFee;
    AcknowledgedShape(j, p, now, tolerance, percent);
    assert j.paid[p := j.paid[p] + 0] == j.paid;
  }

  lemma {:induction false} AcknowledgedOnlyAt(j: Job, j': Job, p: Processor)
    requires p in j'.matches && j'.matches == j.matches[p := j'.matches[p]]
    requires p in j'.nextReport && j'.nextReport == j.nextReport[p := j'.nextReport[p]]
    requires p in j'.paid && j'.paid == j.paid[p := j'.paid[p]]
    requires j'.commission == j.commission[p := Amount(j'.commission, p)] || j'.commission == j.commission
    ensures OnlyAt(j, j', p)
  {
  }

  lemma {:induction false} AcknowledgedValid(j: Job, p: Processor)
    requires PureOk(j) && j.registration.Some? && p in j.matches
    ensures j.registration.value.schedule.Valid() && p in j.paid
  {
    hide Accounted;
    assert MatchOk(j, p);
  }

  lemma {:induction false} ReportedPays(j: Job, p: Processor)
    requires PureOk(j) && MayReport(j, p)
    ensures MatchOk(j, p) && j.matches[p].fee <= j.budget && Accounted(Paid(j, p, j.matches[p].fee))
    ensures p in j.nextReport && j.status.Some? && j.status.value != Open
  {
    hide Total, TotalReward;
    var r, m := j.registration.value, j.matches[p];
    assert MatchOk(j, p);
    DueBound(m, r);
    PaidWithin(j, p);
    hide Due;
    Covered(j, p, m.fee);
  }

  /** A match of a pure job with one more report met and paid. */
  lemma {:induction false} ReportedOk(j: Job, j': Job, p: Processor, next: nat)
    requires j.registration.Some? && p in j.matches && j.matches[p].acknowledged && MatchOk(j, p)
    requires j'.registration == j.registration && p in j'.nextReport && j'.nextReport[p] == next
    requires j.nextReport[p] < next < j.matches[p].total
    requires p in j'.matches && j'.matches[p] == j.matches[p].(met := j.matches[p].met + 1)
    requires p in j'.paid && j'.paid[p] == j.paid[p] + j.matches[p].fee && j'.commission == j.commission
    ensures MatchOk(j', p)
  {
    OneMore(j.matches[p].met, j.matches[p].fee);
  }

  /** A report of a pure job can always be paid, and the job stays accounted for. */
  lemma {:induction false} PureReported(j: Job, p: Processor, now: nat, tolerance: nat)
    requires PureOk(j) && MayReport(j, p) && ReportedIndex(j, p, now, tolerance).Some?
    ensures Reporting(j, p, now, tolerance).Some?
    ensures PureOk(Reporting(j, p, now, tolerance).value)
    ensures Reporting(j, p, now, tolerance).value.mixed == j.mixed
  {
    ReportedPays(j, p);
    hide ReportedIndex, Accounted, MatchOk, PureOk;
    ReportAdvances(j, p, now, tolerance);
    WholeMatch(j, p);
    var j', m := Reporting(j, p, now, tolerance).value, j.matches[p];
    AccountedSame(Paid(j, p, m.fee), j');
    if p in j'.matches {
      ReportedOk(j, j', p, ReportedIndex(j, p, now, tolerance).value + 1);
    }
    ReportedOnlyAt(j, j', p);
    hide OnlyAt;
    MatchChanged(j, j', p);
  }

  lemma {:induction false} ReportedOnlyAt(j: Job, j': Job, p: Processor)
    requires j'.matches == (if p in j'.matches then j.matches[p := j'.matches[p]] else j.matches - {p})
    requires j'.nextReport == (if p in j'.nextReport then j.nextReport[p := j'.nextReport[p]] else j.nextReport - {p})
    requires p in j'.paid && j'.paid == j.paid[p := j'.paid[p]] && j'.commission == j.commission
    ensures OnlyAt(j, j', p)
  {
  }

  lemma {:induction false} WholeMatch(j: Job, p: Processor)
    requires j.registration.Some? && p in j.matches && MatchOk(j, p)
    ensures j.matches[p].execution.All? && p in j.paid
  {
  }

  /** A report is for the execution expected or a later one, and timely for it unless it is the current one. */
  lemma {:induction false} ReportAdvances(j: Job, p: Processor, now: nat, tolerance: nat)
    requires j.registration.Some? && p in j.matches && ReportedIndex(j, p, now, tolerance).Some? && p in j.nextReport
    ensures var i := ReportedIndex(j, p, now, tolerance).value;
      var s, delay := j.registration.value.schedule, j.matches[p].delay;
      && j.nextReport[p] <= i
      && (Timely(s, delay, now, i, tolerance) || i == 0 || CurrentIndex(s, delay, now) == Some(i))
  {
  }

  /** After an accepted report a later one is expected. */
  lemma {:induction false} ReportStep(j: Job, p: Processor, now: nat, tolerance: nat)
    requires Reporting(j, p, now, tolerance).Some? && j.matches[p].execution.All? && p in j.nextReport
    ensures var i, j' := ReportedIndex(j, p, now, tolerance).value, Reporting(j, p, now, tolerance).value;
      && j.nextReport[p] <= i
      && (p in j'.matches ==> p in j'.nextReport && i < j'.nextReport[p] && j'.matches[p].met == j.matches[p].met + 1)
  {
    ReportAdvances(j, p, now, tolerance);
    hide ReportedIndex;
  }
}
