/**
 * Execution schedules of jobs, as arithmetic progressions of intervals, and the checks whether two
 * of them, or a schedule and a period, overlap.
 */
module Schedules {
  import opened Wrappers
  import opened Arithmetic

  /** Executions start from `start` on every `interval` before `end`, and each takes `duration`. */
  datatype Schedule = Schedule(duration: nat, start: nat, end: nat, interval: nat, maxStartDelay: nat)
  {
    /** What registering a job requires of its schedule. */
    predicate Valid() {
      0 < duration < interval && ExecutionCount() > 0
    }

    function ExecutionCount(): nat {
      if end < start + 1 || interval == 0 then 0 else (end - start - 1) / interval + 1
    }

    function NthStartTime(delay: nat, i: nat): Option<nat> {
      if i >= ExecutionCount() then None else Some(start + delay + interval * i)
    }

    function Range(delay: nat): (nat, nat) {
      var first := start + delay;
      (first, if ExecutionCount() > 0 then first + (ExecutionCount() - 1) * interval + duration else first)
    }

    /** Whether the period from `a` to `b` overlaps an execution; see `OverlapsExactly`. */
    predicate Overlaps(delay: nat, a: nat, b: nat) {
      var (first, last) := Range(delay);
      if b <= a || first == last || b <= first || last <= a then false
      else if interval == 0 then false
      else
        var x := (if a < first then first else a - first) % interval;
        var y := Wrapped(b - first);
        y < x || x < duration || (if y < x then 0 else y - x) >= interval
    }

    /** A distance within the interval, counting a whole interval as such. */
    function Wrapped(t: nat): nat
      requires interval > 0
    {
      if t % interval == 0 then interval else t % interval
    }
  }

  // ----- counting executions -----

  /** The executions are those that start before the end. */
  lemma {:induction false} ExecutionsFit(s: Schedule, i: nat)
    requires s.interval > 0
    ensures i < s.ExecutionCount() <==> s.start + s.interval * i < s.end
  {
    if s.start < s.end {
      var t := s.end - s.start - 1;
      var q := t / s.interval;
      assert s.interval * q <= t < s.interval * (q + 1);
      if i <= q {
        MulMonotone(s.interval, i, q);
      } else {
        MulMonotone(s.interval, q + 1, i);
      }
    }
  }

  /** The iterator over the start times of a schedule. */
  class ScheduleIter {
    const s: Schedule
    const delay: nat
    var current: Option<nat>
    ghost var produced: nat

    ghost predicate Valid()
      reads this
    {
      && s.interval > 0 && produced <= s.ExecutionCount()
      && current == if produced == 0 then None else s.NthStartTime(delay, produced - 1)
    }

    constructor (s: Schedule, delay: nat)
      requires s.interval > 0
      ensures Valid() && this.s == s && this.delay == delay && produced == 0
    {
      this.s, this.delay, current, produced := s, delay, None, 0;
    }

    /** The start times in order, then nothing once; after that it starts over. */
    method Next() returns (t: Option<nat>)
      requires Valid()
      modifies this
      ensures Valid() && t == s.NthStartTime(delay, old(produced))
      ensures produced == if t.Some? then old(produced) + 1 else 0
    {
      ExecutionsFit(s, produced);
      if current.None? {
        t := if s.start + delay < s.end + delay then Some(s.start + delay) else None;
      } else {
        var next := current.value + s.interval;
        assert s.interval * produced == s.interval * (produced - 1) + s.interval;
        t := if next < s.end + delay then Some(next) else None;
      }
      current := t;
      produced := if t.Some? then produced + 1 else 0;
    }
  }

  // ----- intervals -----

  type Interval = (nat, nat)

  predicate Apart(x: Interval, y: Interval) {
    x.1 <= y.0 || y.1 <= x.0
  }

  predicate ApartFrom(x: Interval, ys: seq<Interval>) {
    ys == [] || (Apart(x, ys[0]) && ApartFrom(x, ys[1..]))
  }

  predicate AllApart(xs: seq<Interval>, ys: seq<Interval>) {
    xs == [] || (ApartFrom(xs[0], ys) && AllApart(xs[1..], ys))
  }

  /** Non-empty intervals one after the other. */
  predicate Spaced(xs: seq<Interval>) {
    xs == [] || (xs[0].0 < xs[0].1 && (|xs| > 1 ==> xs[0].1 <= xs[1].0) && Spaced(xs[1..]))
  }

  predicate NotBefore(t: nat, xs: seq<Interval>) {
    xs == [] || t <= xs[0].0
  }

  predicate Precedes(x: Interval, y: Interval) {
    x.0 < y.0 || (x.0 == y.0 && x.1 <= y.1)
  }

  /** Two sorted lists merged into one. */
  function Merge(xs: seq<Interval>, ys: seq<Interval>): seq<Interval> {
    if xs == [] then ys
    else if ys == [] then xs
    else if Precedes(xs[0], ys[0]) then [xs[0]] + Merge(xs[1..], ys)
    else [ys[0]] + Merge(xs, ys[1..])
  }

  /** No interval starts before the one before it has ended. */
  predicate Scan(prevEnd: nat, xs: seq<Interval>)
    decreases |xs|
  {
    xs == [] || (prevEnd <= xs[0].0 && Scan(xs[0].1, xs[1..]))
  }

  lemma {:induction false} ScanSpaced(t: nat, xs: seq<Interval>)
    requires Spaced(xs)
    ensures Scan(t, xs) <==> NotBefore(t, xs)
    decreases |xs|
  {
    if xs != [] {
      ScanSpaced(xs[0].1, xs[1..]);
    }
  }

  /** An interval that does not start after the others is apart from them if it ends before they start. */
  lemma {:induction false} ApartFirst(x: Interval, ys: seq<Interval>)
    requires x.0 < x.1 && Spaced(ys) && NotBefore(x.0, ys)
    ensures ApartFrom(x, ys) <==> NotBefore(x.1, ys)
  {
    if |ys| > 1 {
      ApartFirst(x, ys[1..]);
    }
  }

  lemma {:induction false} AllApartFirst(xs: seq<Interval>, y: Interval, ys: seq<Interval>)
    ensures AllApart(xs, [y] + ys) <==> ApartFrom(y, xs) && AllApart(xs, ys)
  {
    if xs != [] {
      AllApartFirst(xs[1..], y, ys);
      assert ([y] + ys)[1..] == ys;
    }
  }

  lemma {:induction false} NoneApart(xs: seq<Interval>)
    ensures AllApart(xs, [])
  {
    if xs != [] {
      NoneApart(xs[1..]);
    }
  }

  /** Merging and scanning accepts exactly two lists whose intervals are all apart. */
  lemma {:induction false} MergeScan(t: nat, xs: seq<Interval>, ys: seq<Interval>)
    requires Spaced(xs) && Spaced(ys)
    ensures Scan(t, Merge(xs, ys)) <==> NotBefore(t, xs) && NotBefore(t, ys) && AllApart(xs, ys)
    decreases |xs| + |ys|
  {
    if xs == [] {
      ScanSpaced(t, ys);
    } else if ys == [] {
      ScanSpaced(t, xs);
      NoneApart(xs);
    } else if Precedes(xs[0], ys[0]) {
      var rest := Merge(xs[1..], ys);
      assert ([xs[0]] + rest)[1..] == rest;
      MergeScan(xs[0].1, xs[1..], ys);
      ApartFirst(xs[0], ys);
    } else {
      var rest := Merge(xs, ys[1..]);
      assert ([ys[0]] + rest)[1..] == rest;
      MergeScan(ys[0].1, xs, ys[1..]);
      ApartFirst(ys[0], xs);
      AllApartFirst(xs, ys[0], ys[1..]);
      assert [ys[0]] + ys[1..] == ys;
    }
  }

  // ----- the executions of a schedule -----

  function NthInterval(s: Schedule, delay: nat, i: nat): Interval {
    (s.start + delay + s.interval * i, s.start + delay + s.interval * i + s.duration)
  }

  /** The executions from the `i`-th on. */
  function ExecutionsFrom(s: Schedule, delay: nat, i: nat): seq<Interval>
    decreases s.ExecutionCount() - i
  {
    if i >= s.ExecutionCount() then [] else [NthInterval(s, delay, i)] + ExecutionsFrom(s, delay, i + 1)
  }

  lemma {:induction false} ExecutionsShape(s: Schedule, delay: nat, i: nat)
    requires i < s.ExecutionCount()
    ensures var xs := ExecutionsFrom(s, delay, i);
      && xs != [] && xs[0] == NthInterval(s, delay, i) && xs[1..] == ExecutionsFrom(s, delay, i + 1)
  {
    hide NthInterval;
  }

  lemma {:induction false} ExecutionsSpaced(s: Schedule, delay: nat, i: nat)
    requires 0 < s.duration < s.interval
    ensures Spaced(ExecutionsFrom(s, delay, i))
    decreases s.ExecutionCount() - i
  {
    if i < s.ExecutionCount() {
      ExecutionsShape(s, delay, i);
      ExecutionsSpaced(s, delay, i + 1);
      if i + 1 < s.ExecutionCount() {
        ExecutionsShape(s, delay, i + 1);
        assert s.interval * (i + 1) == s.interval * i + s.interval;
      }
    }
  }

  /** An interval apart from every execution. */
  ghost predicate Clear(x: Interval, s: Schedule, delay: nat, from: nat) {
    forall j: nat :: from <= j < s.ExecutionCount() ==> Apart(x, NthInterval(s, delay, j))
  }

  lemma {:induction false} ApartFromExecutions(x: Interval, s: Schedule, delay: nat, i: nat)
    ensures ApartFrom(x, ExecutionsFrom(s, delay, i)) <==> Clear(x, s, delay, i)
    decreases s.ExecutionCount() - i
  {
    hide NthInterval, Apart;
    if i < s.ExecutionCount() {
      ExecutionsShape(s, delay, i);
      ApartFromExecutions(x, s, delay, i + 1);
    }
  }

  /** Every execution of one schedule is apart from every execution of the other. */
  ghost predicate Disjoint(s: Schedule, d: nat, s': Schedule, d': nat, from: nat) {
    forall i: nat :: from <= i < s.ExecutionCount() ==> Clear(NthInterval(s, d, i), s', d', 0)
  }

  lemma {:induction false} AllApartExecutions(s: Schedule, d: nat, s': Schedule, d': nat, i: nat)
    ensures AllApart(ExecutionsFrom(s, d, i), ExecutionsFrom(s', d', 0)) <==> Disjoint(s, d, s', d', i)
    decreases s.ExecutionCount() - i
  {
    hide NthInterval, Clear, ApartFrom;
    if i < s.ExecutionCount() {
      ExecutionsShape(s, d, i);
      ApartFromExecutions(NthInterval(s, d, i), s', d', 0);
      AllApartExecutions(s, d, s', d', i + 1);
    }
  }

  /** The check of two whole schedules: merge the executions and scan them. */
  method MergeAndScan(s: Schedule, d: nat, s': Schedule, d': nat) returns (fits: bool)
    requires 0 < s.duration < s.interval && 0 < s'.duration < s'.interval
    ensures fits <==> Disjoint(s, d, s', d', 0)
  {
    hide Disjoint, NthInterval, Precedes, Spaced, AllApart;
    ExecutionsSpaced(s, d, 0);
    ExecutionsSpaced(s', d', 0);
    MergeScan(0, ExecutionsFrom(s, d, 0), ExecutionsFrom(s', d', 0));
    AllApartExecutions(s, d, s', d', 0);
    var i: nat, j: nat, prevEnd: nat := 0, 0, 0;
    var n, m := s.ExecutionCount(), s'.ExecutionCount();
    ghost var accepted := Scan(0, Merge(ExecutionsFrom(s, d, 0), ExecutionsFrom(s', d', 0)));
    while i < n || j < m
      invariant i <= n && j <= m
      invariant accepted <==> Scan(prevEnd, Merge(ExecutionsFrom(s, d, i), ExecutionsFrom(s', d', j)))
      decreases n - i + m - j
    {
      var x := NthInterval(s, d, i);
      var y := NthInterval(s', d', j);
      MergeStep(s, d, i, s', d', j);
      var next;
      if j >= m || (i < n && Precedes(x, y)) {
        next, i := x, i + 1;
      } else {
        next, j := y, j + 1;
      }
      if prevEnd > next.0 {
        return false;
      }
      prevEnd := next.1;
    }
    return true;
  }

  /** The next interval of the merged executions. */
  lemma {:induction false} MergeStep(s: Schedule, d: nat, i: nat, s': Schedule, d': nat, j: nat)
    requires i < s.ExecutionCount() || j < s'.ExecutionCount()
    ensures var merged := Merge(ExecutionsFrom(s, d, i), ExecutionsFrom(s', d', j));
      var x, y := NthInterval(s, d, i), NthInterval(s', d', j);
      var left := j >= s'.ExecutionCount() || (i < s.ExecutionCount() && Precedes(x, y));
      && merged != [] && merged[0] == (if left then x else y)
      && merged[1..] == (if left then Merge(ExecutionsFrom(s, d, i + 1), ExecutionsFrom(s', d', j))
                         else Merge(ExecutionsFrom(s, d, i), ExecutionsFrom(s', d', j + 1)))
  {
    hide NthInterval, Precedes;
    if i < s.ExecutionCount() {
      ExecutionsShape(s, d, i);
    }
    if j < s'.ExecutionCount() {
      ExecutionsShape(s', d', j);
    }
  }

  // ----- a period against a schedule -----

  /** The period overlaps an execution. */
  ghost predicate Meets(s: Schedule, delay: nat, a: nat, b: nat) {
    a < b && !Clear((a, b), s, delay, 0)
  }

  /**
   * Where the check is blind: the period begins between two executions, and either it begins before
   * the schedule does, in which case its beginning is taken for the absolute start time, or it is
   * at least an interval long.
   */
  predicate Blind(s: Schedule, delay: nat, a: nat, b: nat)
    requires s.interval > 0
  {
    var (first, last) := s.Range(delay);
    && a < b && first < b && a < last && (a < first || b - a >= s.interval)
    && var x := (if a < first then first else a - first) % s.interval;
    s.duration <= x <= s.Wrapped(b - first)
  }

  lemma {:induction false} DivMod(t: nat, d: nat)
    requires d > 0
    ensures t == d * (t / d) + t % d && t % d < d
  {
  }

  lemma {:induction false} Wraps(s: Schedule, t: nat, q: nat)
    requires s.interval > 0 && s.interval * q < t <= s.interval * (q + 1)
    ensures s.Wrapped(t) == t - s.interval * q
  {
    var d := s.interval;
    if t == d * (q + 1) {
      ModOf(d, q + 1, 0);
    } else {
      ModOf(d, q, t - d * q);
    }
  }

  lemma {:induction false} ModOf(d: nat, q: nat, r: nat)
    requires r < d
    ensures (d * q + r) % d == r
  {
    var t := d * q + r;
    DivMod(t, d);
    var p := t / d;
    if p < q {
      MulMonotone(d, p + 1, q);
    } else if q < p {
      MulMonotone(d, q + 1, p);
    }
  }

  /** A period that ends after the first execution begins and begins before the last one ends. */
  lemma {:induction false} MeetsFirst(s: Schedule, delay: nat, a: nat, b: nat)
    requires s.Valid() && a < b && s.start + delay < b && a < s.start + delay + s.duration
    ensures Meets(s, delay, a, b)
  {
    var x := NthInterval(s, delay, 0);
    assert !Apart((a, b), x);
  }

  /** The `q`-th execution meets a period that contains its beginning or begins during it. */
  lemma {:induction false} MeetsNth(s: Schedule, delay: nat, a: nat, b: nat, q: nat)
    requires s.Valid() && a < b && q < s.ExecutionCount()
    requires s.start + delay + s.interval * q < b && a < s.start + delay + s.interval * q + s.duration
    ensures Meets(s, delay, a, b)
  {
    assert !Apart((a, b), NthInterval(s, delay, q));
  }

  /** A period in the gap behind the `q`-th execution meets none. */
  lemma {:induction false} InGap(s: Schedule, delay: nat, a: nat, b: nat, q: nat)
    requires s.Valid() && s.start + delay + s.interval * q + s.duration <= a
    requires b <= s.start + delay + s.interval * (q + 1)
    ensures !Meets(s, delay, a, b)
  {
    forall j: nat | j < s.ExecutionCount()
      ensures Apart((a, b), NthInterval(s, delay, j))
    {
      if j <= q {
        MulMonotone(s.interval, j, q);
      } else {
        MulMonotone(s.interval, q + 1, j);
      }
    }
  }

  lemma {:induction false} Outside(s: Schedule, delay: nat, a: nat, b: nat)
    requires s.Valid() && (b <= s.Range(delay).0 || s.Range(delay).1 <= a)
    ensures !Meets(s, delay, a, b)
  {
    var n := s.ExecutionCount();
    assert s.Range(delay) == (s.start + delay, s.start + delay + s.interval * (n - 1) + s.duration);
    forall j: nat | j < n
      ensures Apart((a, b), NthInterval(s, delay, j))
    {
      WithinRange(s, delay, j);
    }
  }

  lemma {:induction false} WithinRange(s: Schedule, delay: nat, j: nat)
    requires s.Valid() && j < s.ExecutionCount()
    ensures s.Range(delay).0 <= NthInterval(s, delay, j).0 && NthInterval(s, delay, j).1 <= s.Range(delay).1
  {
    var n := s.ExecutionCount();
    assert (n - 1) * s.interval == s.interval * (n - 1);
    MulMonotone(s.interval, j, n - 1);
  }

  /** Within the range, a period that begins in a gap begins before the last execution. */
  lemma {:induction false} GapIndex(s: Schedule, delay: nat, a: nat, q: nat)
    requires s.Valid() && s.start + delay + s.interval * q + s.duration <= a < s.Range(delay).1
    ensures q + 1 < s.ExecutionCount()
  {
    if s.ExecutionCount() <= q + 1 {
      MulMonotone(s.interval, s.ExecutionCount() - 1, q);
    }
  }

  lemma {:induction false} ExecutionIndex(s: Schedule, delay: nat, a: nat, q: nat)
    requires s.Valid() && s.start + delay + s.interval * q <= a < s.Range(delay).1
    ensures q < s.ExecutionCount()
  {
    var n := s.ExecutionCount();
    assert s.interval * n == (n - 1) * s.interval + s.interval;
    if n <= q {
      MulMonotone(s.interval, n, q);
    }
  }

  /** A period that begins in the gap behind execution `q` of the schedule. */
  lemma {:induction false} FromGap(s: Schedule, delay: nat, a: nat, b: nat)
    requires s.Valid() && a < b && s.start + delay <= a < s.Range(delay).1
    requires s.duration <= (a - (s.start + delay)) % s.interval
    ensures Meets(s, delay, a, b) <==>
      b - a >= s.interval || s.Wrapped(b - (s.start + delay)) < (a - (s.start + delay)) % s.interval
  {
    var first := s.start + delay;
    var q, x := (a - first) / s.interval, (a - first) % s.interval;
    DivMod(a - first, s.interval);
    assert s.interval * (q + 1) == s.interval * q + s.interval;
    assert s.interval * (q + 2) == s.interval * q + 2 * s.interval;
    GapIndex(s, delay, a, q);
    if b > first + s.interval * (q + 1) {
      MeetsNth(s, delay, a, b, q + 1);
      if b - a < s.interval {
        Wraps(s, b - first, q + 1);
      }
    } else {
      InGap(s, delay, a, b, q);
      Wraps(s, b - first, q);
    }
  }

  lemma {:induction false} EmptyPeriod(s: Schedule, delay: nat, a: nat, b: nat)
    requires b <= a
    ensures !Meets(s, delay, a, b)
  {
  }

  /** The check says yes exactly when the period overlaps an execution and the check is not blind. */
  lemma {:induction false} OverlapsExactly(s: Schedule, delay: nat, a: nat, b: nat)
    requires s.Valid()
    ensures s.Overlaps(delay, a, b) <==> Meets(s, delay, a, b) && !Blind(s, delay, a, b)
  {
    hide Meets;
    var (first, last) := s.Range(delay);
    var d := s.interval;
    if b <= a {
      EmptyPeriod(s, delay, a, b);
    } else if b <= first || last <= a {
      Outside(s, delay, a, b);
    } else if a < first {
      MeetsFirst(s, delay, a, b);
    } else {
      var x := (a - first) % d;
      var q := (a - first) / d;
      DivMod(a - first, d);
      if x < s.duration {
        ExecutionIndex(s, delay, a, q);
        MeetsNth(s, delay, a, b, q);
      } else {
        FromGap(s, delay, a, b);
      }
    }
  }

  // ----- a new assignment against an existing one -----

  datatype Execution = All | Index(i: nat)

  datatype Assignment = Assignment(schedule: Schedule, delay: nat, execution: Execution)

  predicate Passes(s: Schedule, d: nat, other: Assignment)
  {
    !s.Overlaps(d, other.schedule.Range(other.delay).0, other.schedule.Range(other.delay).1)
  }

  /** The whole schedules overlap nowhere. */
  lemma {:induction false} PassedIsDisjoint(s: Schedule, d: nat, other: Assignment)
    requires s.Valid() && other.schedule.Valid()
    requires var (a, b) := other.schedule.Range(other.delay); !Meets(s, d, a, b)
    ensures Disjoint(s, d, other.schedule, other.delay, 0)
  {
    var o, od := other.schedule, other.delay;
    var (a, b) := o.Range(od);
    assert a < b by { WithinRange(o, od, 0); }
    forall i: nat, j: nat | i < s.ExecutionCount() && j < o.ExecutionCount()
      ensures Apart(NthInterval(s, d, i), NthInterval(o, od, j))
    {
      assert Apart((a, b), NthInterval(s, d, i));
      WithinRange(o, od, j);
    }
    forall i: nat | i < s.ExecutionCount()
      ensures Clear(NthInterval(s, d, i), o, od, 0)
    {
    }
  }

  /** The execution of a schedule with the given index, if there is one. */
  function Nth(s: Schedule, delay: nat, i: nat): Option<Interval> {
    match s.NthStartTime(delay, i)
    case None => None
    case Some(t) => Some((t, t + s.duration))
  }

  /**
   * When a new assignment is found to fit with an existing one. A single execution of the new one is
   * tried against the other schedule with the new assignment's delay.
   */
  ghost predicate Accepted(execution: Execution, s: Schedule, d: nat, other: Assignment)
    requires s.Valid() && other.schedule.Valid()
  {
    var o, od := other.schedule, other.delay;
    Passes(s, d, other) ||
    match (execution, other.execution)
    case (All, All) => Disjoint(s, d, o, od, 0)
    case (All, Index(j)) =>
      var y := Nth(o, od, j);
      y.Some? && (Clear(y.value, s, d, 0) || Blind(s, d, y.value.0, y.value.1))
    case (Index(i), All) =>
      var x := Nth(s, d, i);
      x.Some? && (Clear(x.value, o, d, 0) || Blind(o, d, x.value.0, x.value.1))
    case (Index(i), Index(j)) =>
      var x, y := Nth(s, d, i), Nth(o, od, j);
      x.Some? && y.Some? && Apart(x.value, y.value)
  }

  /** Two whole schedules are found to fit exactly when they are disjoint, or the first check is blind. */
  lemma {:induction false} AcceptedWhole(s: Schedule, d: nat, other: Assignment)
    requires s.Valid() && other.schedule.Valid() && other.execution.All?
    ensures var (a, b) := other.schedule.Range(other.delay);
      Accepted(All, s, d, other) <==> Disjoint(s, d, other.schedule, other.delay, 0) || Blind(s, d, a, b)
  {
    var (a, b) := other.schedule.Range(other.delay);
    OverlapsExactly(s, d, a, b);
    if !Meets(s, d, a, b) {
      PassedIsDisjoint(s, d, other);
    }
    hide Disjoint, Blind;
  }

  predicate Missing(execution: Execution, s: Schedule, d: nat) {
    execution.Index? && Nth(s, d, execution.i).None?
  }

  /** Without an execution of the given index, only the check of the whole schedules remains. */
  lemma {:induction false} AcceptedMissing(execution: Execution, s: Schedule, d: nat, other: Assignment)
    requires s.Valid() && other.schedule.Valid()
    requires Missing(execution, s, d) || Missing(other.execution, other.schedule, other.delay)
    ensures var (a, b) := other.schedule.Range(other.delay);
      Accepted(execution, s, d, other) <==> !Meets(s, d, a, b) || Blind(s, d, a, b)
  {
    var (a, b) := other.schedule.Range(other.delay);
    OverlapsExactly(s, d, a, b);
    hide Meets, Blind;
  }

  /** If the other schedule as a whole is not met, then neither is any of its executions. */
  lemma {:induction false} PassedIsClear(s: Schedule, d: nat, other: Assignment, j: nat)
    requires s.Valid() && other.schedule.Valid() && j < other.schedule.ExecutionCount()
    requires var (a, b) := other.schedule.Range(other.delay); !Meets(s, d, a, b)
    ensures Clear(NthInterval(other.schedule, other.delay, j), s, d, 0)
  {
    PassedIsDisjoint(s, d, other);
    forall i: nat | i < s.ExecutionCount()
      ensures Apart(NthInterval(other.schedule, other.delay, j), NthInterval(s, d, i))
    {
      assert Clear(NthInterval(s, d, i), other.schedule, other.delay, 0);
    }
  }

  /** A whole schedule fits with one execution that it does not meet, or if one of the two checks is blind. */
  lemma {:induction false} AcceptedOther(s: Schedule, d: nat, other: Assignment)
    requires s.Valid() && other.schedule.Valid()
    requires other.execution.Index? && !Missing(other.execution, other.schedule, other.delay)
    ensures var (a, b) := other.schedule.Range(other.delay);
      var y := Nth(other.schedule, other.delay, other.execution.i).value;
      Accepted(All, s, d, other) <==> Clear(y, s, d, 0) || Blind(s, d, y.0, y.1) || Blind(s, d, a, b)
  {
    var (a, b) := other.schedule.Range(other.delay);
    OverlapsExactly(s, d, a, b);
    if !Meets(s, d, a, b) {
      PassedIsClear(s, d, other, other.execution.i);
    }
    hide Meets, Blind, Clear;
  }

  /** Two single executions fit exactly when they are apart, or the first check is blind. */
  lemma {:induction false} AcceptedSingle(i: nat, s: Schedule, d: nat, other: Assignment)
    requires s.Valid() && other.schedule.Valid() && !Missing(Index(i), s, d)
    requires other.execution.Index? && !Missing(other.execution, other.schedule, other.delay)
    ensures var (a, b) := other.schedule.Range(other.delay);
      Accepted(Index(i), s, d, other)
      <==> Apart(Nth(s, d, i).value, Nth(other.schedule, other.delay, other.execution.i).value) || Blind(s, d, a, b)
  {
    var (a, b) := other.schedule.Range(other.delay);
    OverlapsExactly(s, d, a, b);
    if !Meets(s, d, a, b) {
      PassedIsDisjoint(s, d, other);
      assert Clear(NthInterval(s, d, i), other.schedule, other.delay, 0);
      assert Apart(NthInterval(s, d, i), NthInterval(other.schedule, other.delay, other.execution.i));
    }
    hide Meets, Blind, Clear;
  }

  /**
   * One execution fits with a whole schedule if the whole schedules do not meet, if it does not meet the
   * other schedule delayed by the new assignment's own delay, or if one of the two checks is blind.
   */
  lemma {:induction false} AcceptedOne(i: nat, s: Schedule, d: nat, other: Assignment)
    requires s.Valid() && other.schedule.Valid() && other.execution.All? && !Missing(Index(i), s, d)
    ensures var (a, b) := other.schedule.Range(other.delay);
      var x := Nth(s, d, i).value;
      Accepted(Index(i), s, d, other)
      <==> || !Meets(s, d, a, b) || Blind(s, d, a, b)
           || Clear(x, other.schedule, d, 0) || Blind(other.schedule, d, x.0, x.1)
  {
    var (a, b) := other.schedule.Range(other.delay);
    OverlapsExactly(s, d, a, b);
    hide Meets, Blind, Clear;
  }

  /** If the delays are the same, exactly when it does not meet the other schedule, or a check is blind. */
  lemma {:induction false} AcceptedOneSame(i: nat, s: Schedule, d: nat, other: Assignment)
    requires s.Valid() && other.schedule.Valid() && other.execution.All? && !Missing(Index(i), s, d)
    requires d == other.delay
    ensures var (a, b) := other.schedule.Range(d);
      var x := Nth(s, d, i).value;
      Accepted(Index(i), s, d, other)
      <==> Clear(x, other.schedule, d, 0) || Blind(other.schedule, d, x.0, x.1) || Blind(s, d, a, b)
  {
    var (a, b) := other.schedule.Range(other.delay);
    AcceptedOne(i, s, d, other);
    if !Meets(s, d, a, b) {
      PassedIsDisjoint(s, d, other);
      assert Clear(NthInterval(s, d, i), other.schedule, d, 0);
    }
    hide Meets, Blind, Clear, Accepted;
  }

  method Fits(execution: Execution, s: Schedule, d: nat, other: Assignment) returns (fits: bool)
    requires s.Valid() && other.schedule.Valid()
    ensures fits <==> Accepted(execution, s, d, other)
  {
    var o, od := other.schedule, other.delay;
    var (a, b) := o.Range(od);
    if !s.Overlaps(d, a, b) {
      return true;
    }
    hide Disjoint, Blind;
    match (execution, other.execution)
    case (All, All) =>
      fits := MergeAndScan(s, d, o, od);
    case (All, Index(j)) =>
      var y := Nth(o, od, j);
      if y.None? {
        return false;
      }
      OverlapsExactly(s, d, y.value.0, y.value.1);
      fits := !s.Overlaps(d, y.value.0, y.value.1);
    case (Index(i), All) =>
      var x := Nth(s, d, i);
      if x.None? {
        return false;
      }
      OverlapsExactly(o, d, x.value.0, x.value.1);
      fits := !o.Overlaps(d, x.value.0, x.value.1);
    case (Index(i), Index(j)) =>
      var x, y := Nth(s, d, i), Nth(o, od, j);
      fits := x.Some? && y.Some? && !(y.value.0 < x.value.1 && y.value.1 > x.value.0);
  }

  /** A processor's existing match: its job may be gone, and it may no longer count. */
  datatype Existing = Existing(assignment: Option<Assignment>, invalid: bool)

  predicate Counts(e: Existing) {
    e.assignment.Some? && !e.invalid
  }

  /** Whether a new assignment fits with all existing ones of the processor that count. */
  method FitsSchedule(execution: Execution, s: Schedule, d: nat, existing: seq<Existing>) returns (fits: bool)
    requires s.Valid()
    requires forall i :: 0 <= i < |existing| && Counts(existing[i]) ==>
      existing[i].assignment.value.schedule.Valid()
    ensures fits <==> forall i :: 0 <= i < |existing| && Counts(existing[i]) ==>
      Accepted(execution, s, d, existing[i].assignment.value)
  {
    hide Accepted;
    for i := 0 to |existing|
      invariant forall k :: 0 <= k < i && Counts(existing[k]) ==>
        Accepted(execution, s, d, existing[k].assignment.value)
    {
      if Counts(existing[i]) {
        var one := Fits(execution, s, d, existing[i].assignment.value);
        if !one {
          return false;
        }
      }
    }
    return true;
  }

  /** Trying one execution of the new assignment with its own delay lets an overlap pass. */
  lemma {:induction false} WrongDelay() returns (s: Schedule, other: Assignment)
    ensures s.Valid() && other.schedule.Valid() && other.execution.All? && !Passes(s, 0, other)
    ensures Accepted(Index(0), s, 0, other)
    ensures Nth(s, 0, 0).Some? && !Clear(Nth(s, 0, 0).value, other.schedule, other.delay, 0)
  {
    s := Schedule(2, 10, 11, 20, 0);
    var o := Schedule(2, 5, 6, 20, 5);
    other := Assignment(o, 5, All);
    assert s.ExecutionCount() == 1 && o.ExecutionCount() == 1;
    assert Nth(s, 0, 0) == Some((10, 12));
    assert NthInterval(o, 5, 0) == (10, 12) && NthInterval(o, 0, 0) == (5, 7);
    assert !Apart((10, 12), NthInterval(o, 5, 0));
    assert Clear((10, 12), o, 0, 0) by { assert Apart((10, 12), NthInterval(o, 0, 0)); }
  }

  lemma {:induction false} DelayTells(o: Schedule, less: nat, more: nat) returns (x: Interval)
    requires o.Valid() && less < more
    ensures !Clear(x, o, less, 0) && Clear(x, o, more, 0)
  {
    x := (o.start + less, o.start + less + 1);
    assert !Apart(x, NthInterval(o, less, 0));
    forall i: nat | i < o.ExecutionCount()
      ensures Apart(x, NthInterval(o, more, i))
    {
      assert o.interval * i >= 0;
    }
  }

  /** The answer is about the other schedule's executions, whatever is tried, exactly when the delays are the same. */
  lemma {:induction false} DelayExact(o: Schedule, d: nat, delay: nat)
    requires o.Valid()
    ensures d == delay <==> forall x: Interval :: Clear(x, o, d, 0) <==> Clear(x, o, delay, 0)
  {
    hide Clear;
    if d < delay {
      var _ := DelayTells(o, d, delay);
    } else if delay < d {
      var _ := DelayTells(o, delay, d);
    }
  }

  /** Two schedules with overlapping executions that the check lets pass. */
  lemma {:induction false} BlindSpot() returns (s: Schedule, o: Schedule)
    ensures s.Valid() && o.Valid() && !Disjoint(s, 0, o, 0, 0)
    ensures !s.Overlaps(0, o.Range(0).0, o.Range(0).1)
  {
    s, o := Schedule(1, 1, 2, 10, 0), Schedule(4, 0, 1, 5, 0);
    assert s.ExecutionCount() == 1 && o.ExecutionCount() == 1;
    var x, y := NthInterval(s, 0, 0), NthInterval(o, 0, 0);
    assert x == (1, 2) && y == (0, 4);
    assert !Clear(x, o, 0, 0) by { assert !Apart(x, y); }
    assert o.Range(0) == (0, 4);
    hide Clear;
  }
}
