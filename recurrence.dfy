/** Recurrence expansion: the dates on which a transaction affects the balance,
    as every copy of the forecast loop steps through them. */
module Recurrence {
  import opened Dates
  import opened Wrappers
  import opened Model

  /** The length in days of a daily (addDays 1), weekly (addWeeks 1) or biweekly (addWeeks 2) step. */
  function StepDays(r: Recurrence): nat
    requires r == Daily || r == Weekly || r == Biweekly
  {
    if r == Daily then 1 else if r == Weekly then 7 else 14
  }

  /** One recurrence step from `d`: the switch on `transaction.recurrence`. */
  function Step(d: Day, r: Recurrence): Day
    requires r != OneTime
  {
    if r == Monthly then AddMonth(d)
    else if r == Yearly then AddYear(d)
    else AddDays(d, StepDays(r))
  }

  /** Daily, weekly and biweekly steps add 1, 7 and 14 days; monthly and yearly steps
      move to the next month or year without increasing the day of the month; every
      step moves strictly forward. */
  lemma StepAdvances(d: Day, r: Recurrence)
    requires r != OneTime
    ensures DayNumber(Step(d, r)) > DayNumber(d)
    ensures r == Daily ==> DayNumber(Step(d, r)) == DayNumber(d) + 1
    ensures r == Weekly ==> DayNumber(Step(d, r)) == DayNumber(d) + 7
    ensures r == Biweekly ==> DayNumber(Step(d, r)) == DayNumber(d) + 14
    ensures r == Monthly ==> Step(d, r).day <= d.day && Step(d, r).month == (if d.month == 12 then 1 else d.month + 1)
    ensures r == Yearly ==> Step(d, r).day <= d.day && Step(d, r).month == d.month && Step(d, r).year == d.year + 1
  {
    if r == Monthly {
      AddMonthShape(d);
    } else if r == Yearly {
      AddYearShape(d);
      LaterYearLaterDay(d, AddYear(d));
    } else {
      AddDaysNumber(d, StepDays(r));
    }
  }

  /** The check after each step: the new date lies after a given `recurrenceEnd`. */
  predicate Ended(t: Transaction, next: Day) {
    t.recurrenceEnd.Some? && DayNumber(next) > DayNumber(t.recurrenceEnd.value)
  }

  // ---------------------------------------------------------------------------
  // Schedule. The expansion depends on the step only through the fact that it moves
  // forward, so it is defined and proved for any forward-moving step on any kind of
  // point ordered by an integer key (for transactions: days and their day numbers).

  /** A recurring schedule: its first point, the step from one point to the next, the key
      that orders points, and the optional last point. */
  datatype Schedule<!T> = Schedule(anchor: T, step: T -> T, key: T -> int, until: Option<T>)

  /** Every step of `s` moves to a point with a larger key. */
  ghost predicate Advancing<T(!new)>(s: Schedule<T>) {
    forall x: T {:trigger s.step(x)} :: s.key(s.step(x)) > s.key(x)
  }

  /** The k-th point of the schedule, counting the anchor as the 0-th. */
  function At<T>(s: Schedule<T>, k: nat): T {
    if k == 0 then s.anchor else s.step(At(s, k - 1))
  }

  /** `x` lies after the last point of the schedule. */
  predicate Past<T>(s: Schedule<T>, x: T) {
    s.until.Some? && s.key(x) > s.key(s.until.value)
  }

  /** The points the stepping loop counts once it reaches the j-th point, with keys up to
      `limit`: that point if its key is not above `limit`, then the following ones until
      one lies after the last point of the schedule or above `limit`. */
  function Walk<T(!new)>(s: Schedule<T>, j: nat, limit: int): seq<T>
    requires Advancing(s)
    decreases limit - s.key(At(s, j))
  {
    if s.key(At(s, j)) > limit then []
    else if Past(s, At(s, j + 1)) then [At(s, j)]
    else [At(s, j)] + Walk(s, j + 1, limit)
  }

  /** One unfolding of `Walk` at a point not above `limit`. */
  lemma WalkCons<T(!new)>(s: Schedule<T>, j: nat, limit: int)
    requires Advancing(s)
    requires s.key(At(s, j)) <= limit
    ensures Walk(s, j, limit) == [At(s, j)] + (if Past(s, At(s, j + 1)) then [] else Walk(s, j + 1, limit))
    ensures At(s, j + 1) == s.step(At(s, j))
    ensures s.key(At(s, j + 1)) > s.key(At(s, j))
  {
  }

  /** A walk that starts above `limit` counts nothing. */
  lemma WalkPast<T(!new)>(s: Schedule<T>, j: nat, limit: int)
    requires Advancing(s)
    ensures s.key(At(s, j)) > limit ==> Walk(s, j, limit) == []
  {
  }

  /** Numbers that grow at every index grow between any two indices. */
  lemma {:induction false} ChainIncreasing(f: nat -> int, j: nat, k: nat)
    requires forall i: nat :: f(i) < f(i + 1)
    requires j < k
    ensures f(j) < f(k)
    decreases k - j
  {
    if j + 1 < k {
      ChainIncreasing(f, j + 1, k);
    }
  }

  /** Every later point of the schedule has a larger key than every earlier one. */
  lemma AtMonotone<T(!new)>(s: Schedule<T>)
    requires Advancing(s)
    ensures forall j: nat, k: nat | j < k :: s.key(At(s, j)) < s.key(At(s, k))
  {
    var position := (i: nat) => s.key(At(s, i));
    forall i: nat ensures position(i) < position(i + 1) {
      assert At(s, i + 1) == s.step(At(s, i));
    }
    forall j: nat, k: nat | j < k ensures s.key(At(s, j)) < s.key(At(s, k)) {
      ChainIncreasing(position, j, k);
    }
  }

  /** `w` lists the points j, j+1, ... of the schedule, none above `limit`, and none but
      the first after the last point. */
  ghost predicate StepsFrom<T>(s: Schedule<T>, j: nat, w: seq<T>, limit: int)
    decreases |w|
  {
    |w| == 0 ||
      (w[0] == At(s, j) && s.key(w[0]) <= limit && (|w| == 1 || !Past(s, w[1]))
       && StepsFrom(s, j + 1, w[1..], limit))
  }

  lemma StepsFromCons<T>(s: Schedule<T>, j: nat, w': seq<T>, limit: int)
    requires s.key(At(s, j)) <= limit
    requires StepsFrom(s, j + 1, w', limit)
    requires w' != [] ==> !Past(s, w'[0])
    ensures StepsFrom(s, j, [At(s, j)] + w', limit)
  {
    assert ([At(s, j)] + w')[1..] == w';
  }

  /** The i-th entry of a list of steps from `j` is the (j + i)-th point. */
  lemma {:induction false} StepsFromIndex<T>(s: Schedule<T>, j: nat, w: seq<T>, limit: int)
    requires StepsFrom(s, j, w, limit)
    ensures forall i | 0 <= i < |w| ::
      w[i] == At(s, j + i) && s.key(w[i]) <= limit && (i == 0 || !Past(s, w[i]))
    decreases |w|
  {
    if |w| > 0 {
      var tail := w[1..];
      StepsFromIndex(s, j + 1, tail, limit);
      forall i | 0 <= i < |w|
        ensures w[i] == At(s, j + i) && s.key(w[i]) <= limit && (i == 0 || !Past(s, w[i]))
      {
        if i > 0 {
          assert w[i] == tail[i - 1] && j + 1 + (i - 1) == j + i;
        }
      }
    }
  }

  /** The walk stopped after `w`: the next point of the schedule is above `limit`, or is a
      stepped point after the last point. */
  ghost predicate StopsAfter<T>(s: Schedule<T>, j: nat, w: seq<T>, limit: int) {
    s.key(At(s, j + |w|)) > limit || (|w| > 0 && Past(s, At(s, j + |w|)))
  }

  lemma StopsAfterCons<T>(s: Schedule<T>, j: nat, w': seq<T>, limit: int)
    requires StopsAfter(s, j + 1, w', limit)
    ensures StopsAfter(s, j, [At(s, j)] + w', limit)
  {
    assert j + |[At(s, j)] + w'| == j + 1 + |w'|;
  }

  lemma {:induction false} WalkStepsFrom<T(!new)>(s: Schedule<T>, j: nat, limit: int)
    requires Advancing(s)
    ensures StepsFrom(s, j, Walk(s, j, limit), limit)
    decreases limit - s.key(At(s, j))
  {
    if s.key(At(s, j)) <= limit {
      WalkCons(s, j, limit);
      if Past(s, At(s, j + 1)) {
        StepsFromCons(s, j, [], limit);
      } else {
        WalkStepsFrom(s, j + 1, limit);
        var w' := Walk(s, j + 1, limit);
        assert w' != [] ==> w'[0] == At(s, j + 1);
        StepsFromCons(s, j, w', limit);
      }
    }
  }

  lemma {:induction false} WalkStopsAfter<T(!new)>(s: Schedule<T>, j: nat, limit: int)
    requires Advancing(s)
    ensures StopsAfter(s, j, Walk(s, j, limit), limit)
    decreases limit - s.key(At(s, j))
  {
    if s.key(At(s, j)) <= limit {
      WalkCons(s, j, limit);
      if Past(s, At(s, j + 1)) {
        assert j + |[At(s, j)]| == j + 1;
      } else {
        WalkStopsAfter(s, j + 1, limit);
        StopsAfterCons(s, j, Walk(s, j + 1, limit), limit);
      }
    } else {
      WalkPast(s, j, limit);
    }
  }

  /** The walk from the anchor lists the first points of the schedule: the anchor
      whenever its key is not above `limit`, a later point only if it is neither above
      `limit` nor after the last point. */
  lemma WalkIsPrefix<T(!new)>(s: Schedule<T>, limit: int)
    requires Advancing(s)
    ensures var w := Walk(s, 0, limit);
      forall k | 0 <= k < |w| :: w[k] == At(s, k) && s.key(w[k]) <= limit && (k == 0 || !Past(s, w[k]))
  {
    var w := Walk(s, 0, limit);
    WalkStepsFrom(s, 0, limit);
    StepsFromIndex(s, 0, w, limit);
  }

  /** A point of the schedule that is not cut off by the last point is reached before the
      walk up to its key stops. */
  lemma WalkReaches<T(!new)>(s: Schedule<T>, k: nat)
    requires Advancing(s)
    requires k == 0 || !Past(s, At(s, k))
    ensures k < |Walk(s, 0, s.key(At(s, k)))|
  {
    WalkStopsAfter(s, 0, s.key(At(s, k)));
    AtMonotone(s);
  }

  /** Moving the limit up by one key adds exactly the point with that key, if the walk
      reaches it; keys identify points. */
  lemma {:induction false} WalkExtend<T(!new)>(s: Schedule<T>, j: nat, x: T)
    requires Advancing(s)
    requires forall a: T, b: T :: s.key(a) == s.key(b) ==> a == b
    ensures Walk(s, j, s.key(x)) == Walk(s, j, s.key(x) - 1) + (if x in Walk(s, j, s.key(x)) then [x] else [])
    decreases s.key(x) - s.key(At(s, j))
  {
    var d := At(s, j);
    var limit := s.key(x);
    if s.key(d) < limit {
      WalkCons(s, j, limit - 1);
      WalkCons(s, j, limit);
      assert d != x;
      if !Past(s, At(s, j + 1)) {
        WalkExtend(s, j + 1, x);
      }
    } else if s.key(d) == limit {
      assert d == x;
      WalkCons(s, j, limit);
      WalkPast(s, j + 1, limit);
      WalkPast(s, j, limit - 1);
    } else {
      WalkPast(s, j, limit);
      WalkPast(s, j, limit - 1);
    }
  }

  // ---------------------------------------------------------------------------
  // The occurrences of a transaction

  /** The schedule of a recurring transaction: its date, its kind's step, day numbers as
      keys, its `recurrenceEnd` as the last point. */
  function ScheduleOf(t: Transaction): (s: Schedule<Day>)
    requires t.recurrence != OneTime
    ensures s.anchor == t.date && s.until == t.recurrenceEnd
  {
    Schedule(t.date, (d: Day) => Step(d, t.recurrence), (d: Day) => DayNumber(d), t.recurrenceEnd)
  }

  lemma ScheduleAdvances(t: Transaction)
    requires t.recurrence != OneTime
    ensures Advancing(ScheduleOf(t))
  {
    var s := ScheduleOf(t);
    forall d: Day ensures s.key(s.step(d)) > s.key(d) {
      StepAdvances(d, t.recurrence);
    }
  }

  /** The occurrences of `t` on or before `limit`, in increasing order. */
  function Occurrences(t: Transaction, limit: Day): seq<Day> {
    if t.recurrence == OneTime then
      (if DayNumber(t.date) <= DayNumber(limit) then [t.date] else [])
    else
      ScheduleAdvances(t);
      Walk(ScheduleOf(t), 0, DayNumber(limit))
  }

  /** `t` contributes to the change of `day`: the daily loop reaches `day` while stepping. */
  predicate OccursOn(t: Transaction, day: Day) {
    day in Occurrences(t, day)
  }

  /** The k-th date of the recurrence, counting the anchor as the 0-th. */
  function Nth(t: Transaction, k: nat): Day
    requires t.recurrence != OneTime
  {
    At(ScheduleOf(t), k)
  }

  /** Each date of the recurrence is one step of its kind after the one before. */
  lemma NthNext(t: Transaction, k: nat)
    requires t.recurrence != OneTime
    ensures Nth(t, k + 1) == Step(Nth(t, k), t.recurrence)
    ensures DayNumber(Nth(t, k)) < DayNumber(Nth(t, k + 1))
  {
    StepAdvances(Nth(t, k), t.recurrence);
  }

  /** Recurrence expansion, characterised without the loop: the occurrences up to `limit`
      are the first dates of the recurrence; a later date counts only if it is not after
      `recurrenceEnd` (the end is inclusive). */
  lemma OccurrencesAreSteps(t: Transaction, limit: Day)
    requires t.recurrence != OneTime
    ensures forall k | 0 <= k < |Occurrences(t, limit)| ::
      var d := Occurrences(t, limit)[k];
      d == Nth(t, k) && DayNumber(d) <= DayNumber(limit) && (k == 0 || !Ended(t, d))
  {
    var s := ScheduleOf(t);
    ScheduleAdvances(t);
    WalkIsPrefix(s, DayNumber(limit));
    var w := Walk(s, 0, DayNumber(limit));
    assert Occurrences(t, limit) == w;
    forall k | 0 <= k < |w| ensures w[k] == Nth(t, k) && DayNumber(w[k]) <= DayNumber(limit) && (k == 0 || !Ended(t, w[k])) {
      assert Past(s, w[k]) == Ended(t, w[k]);
    }
  }

  /** The anchor is counted whenever it is not after `limit`, and nothing is counted
      otherwise. */
  lemma OccurrencesStart(t: Transaction, limit: Day)
    ensures |Occurrences(t, limit)| > 0 <==> DayNumber(t.date) <= DayNumber(limit)
  {
    if t.recurrence != OneTime {
      ScheduleAdvances(t);
      WalkPast(ScheduleOf(t), 0, DayNumber(limit));
    }
  }

  /** The expansion stops exactly at the first date after `limit`, or at the first
      stepped date after `recurrenceEnd`. */
  lemma OccurrencesStop(t: Transaction, limit: Day)
    requires t.recurrence != OneTime
    ensures var n := |Occurrences(t, limit)|;
      DayNumber(Nth(t, n)) > DayNumber(limit) || (n > 0 && Ended(t, Nth(t, n)))
  {
    var s := ScheduleOf(t);
    ScheduleAdvances(t);
    WalkStopsAfter(s, 0, DayNumber(limit));
    var n := |Occurrences(t, limit)|;
    assert Past(s, Nth(t, n)) == Ended(t, Nth(t, n));
  }

  /** Every later date of the recurrence lies after every earlier one. */
  lemma NthMonotone(t: Transaction)
    requires t.recurrence != OneTime
    ensures forall j: nat, k: nat | j < k :: DayNumber(Nth(t, j)) < DayNumber(Nth(t, k))
  {
    var s := ScheduleOf(t);
    ScheduleAdvances(t);
    AtMonotone(s);
    forall j: nat, k: nat | j < k ensures DayNumber(Nth(t, j)) < DayNumber(Nth(t, k)) {
      assert s.key(At(s, j)) < s.key(At(s, k));
    }
  }

  /** Occurrences are strictly increasing, so no date is counted twice. */
  lemma OccurrencesIncreasing(t: Transaction, limit: Day)
    ensures var occ := Occurrences(t, limit);
      forall i, j | 0 <= i < j < |occ| :: DayNumber(occ[i]) < DayNumber(occ[j])
  {
    if t.recurrence != OneTime {
      OccurrencesAreSteps(t, limit);
      NthMonotone(t);
    }
  }

  /** A recurring transaction lands on `day` exactly when some date of it is `day`, and
      that date is the anchor or is not after `recurrenceEnd`. */
  lemma OccursOnNth(t: Transaction, day: Day)
    requires t.recurrence != OneTime
    ensures OccursOn(t, day) <==> exists k: nat :: Nth(t, k) == day && (k == 0 || !Ended(t, day))
  {
    var s := ScheduleOf(t);
    ScheduleAdvances(t);
    if OccursOn(t, day) {
      OccurrencesAreSteps(t, day);
      var occ := Occurrences(t, day);
      var k :| 0 <= k < |occ| && occ[k] == day;
      assert Nth(t, k) == day && (k == 0 || !Ended(t, day));
    }
    forall k: nat | Nth(t, k) == day && (k == 0 || !Ended(t, day)) ensures OccursOn(t, day) {
      assert Past(s, day) == Ended(t, day);
      WalkReaches(s, k);
      OccurrencesAreSteps(t, day);
      assert Occurrences(t, day)[k] == day;
    }
  }

  /** A one-time transaction counts up to `limit` iff its date is not after `limit`,
      and lands on `day` iff its date is `day`. */
  lemma OneTimeOccurrence(t: Transaction, limit: Day, day: Day)
    requires t.recurrence == OneTime
    ensures |Occurrences(t, limit)| == (if DayNumber(t.date) <= DayNumber(limit) then 1 else 0)
    ensures OccursOn(t, day) <==> t.date == day
  {
    DayNumberOrder(t.date, day);
  }

  /** Moving the last counted day forward by one adds exactly the occurrences on the new day. */
  lemma OccurrencesNextDay(t: Transaction, limit: Day)
    ensures |Occurrences(t, NextDay(limit))|
         == |Occurrences(t, limit)| + (if OccursOn(t, NextDay(limit)) then 1 else 0)
  {
    var next := NextDay(limit);
    NextDayNumber(limit);
    if t.recurrence == OneTime {
      OneTimeOccurrence(t, limit, next);
      OneTimeOccurrence(t, next, next);
      DayNumberOrder(t.date, next);
    } else {
      var s := ScheduleOf(t);
      ScheduleAdvances(t);
      forall a: Day, b: Day | s.key(a) == s.key(b) ensures a == b {
        DayNumberOrder(a, b);
      }
      WalkExtend(s, 0, next);
      assert s.key(next) == DayNumber(next) == DayNumber(limit) + 1;
      assert Occurrences(t, next) == Walk(s, 0, s.key(next));
      assert Occurrences(t, limit) == Walk(s, 0, s.key(next) - 1);
    }
  }

  /** The year cut-offs after a step (`year > today's year + 1` or `+ 2`) only fire on a
      date that is already after the day the loop counts up to, so they never change
      what is counted. */
  lemma YearCutoffIsDead(next: Day, limit: Day, slack: nat)
    requires next.year > limit.year + slack
    ensures DayNumber(next) > DayNumber(limit)
  {
    LaterYearLaterDay(limit, next);
  }

  /** `n` additions of `v`: what a loop that adds `v` once per counted occurrence accumulates. */
  function Repeat(v: real, n: nat): real {
    if n == 0 then 0.0 else Repeat(v, n - 1) + v
  }

  lemma {:induction false} RepeatIsProduct(v: real, n: nat)
    ensures Repeat(v, n) == v * n as real
  {
    if n > 0 {
      RepeatIsProduct(v, n - 1);
    }
  }

  /** One transaction's part of a starting-balance fold: the body of the `forEach` that
      adds `value` once per occurrence on or before `limit`, with the year cut-off
      `yearSlack` years after `limit`. */
  method AccumulateUpTo(t: Transaction, value: real, limit: Day, yearSlack: nat, b0: real) returns (b: real)
    ensures b == b0 + Repeat(value, |Occurrences(t, limit)|)
  {
    b := b0;
    if t.recurrence == OneTime {
      if DayNumber(t.date) <= DayNumber(limit) {
        b := b + value;
      }
      assert |Occurrences(t, limit)| == if DayNumber(t.date) <= DayNumber(limit) then 1 else 0;
      return;
    }
    ghost var s := ScheduleOf(t);
    ScheduleAdvances(t);
    var current := t.date;
    ghost var counted := 0;
    ghost var j := 0;
    WalkPast(s, j, DayNumber(limit));
    while DayNumber(current) <= DayNumber(limit)
      invariant current == At(s, j)
      invariant b == b0 + Repeat(value, counted)
      invariant counted + |Walk(s, j, DayNumber(limit))| == |Occurrences(t, limit)|
      invariant DayNumber(current) > DayNumber(limit) ==> |Walk(s, j, DayNumber(limit))| == 0
      decreases DayNumber(limit) - DayNumber(current)
    {
      b := b + value;
      counted := counted + 1;
      var next := Step(current, t.recurrence);
      WalkCons(s, j, DayNumber(limit));
      WalkPast(s, j + 1, DayNumber(limit));
      assert next == At(s, j + 1);
      if Ended(t, next) {
        assert counted == |Occurrences(t, limit)|;
        break;
      }
      if next.year > limit.year + yearSlack {
        YearCutoffIsDead(next, limit, yearSlack);
        assert counted == |Occurrences(t, limit)|;
        break;
      }
      current := next;
      j := j + 1;
    }
  }

  /** One transaction's part of a day's change: the body of the daily `forEach`, which
      steps from the anchor while the date is not after `day` and adds `value` once on
      reaching `day` (then breaks), with the year cut-off one year after `day`. */
  method AccumulateOnDay(t: Transaction, value: real, day: Day, c0: real) returns (c: real)
    ensures c == c0 + (if OccursOn(t, day) then value else 0.0)
  {
    c := c0;
    if t.recurrence == OneTime {
      OneTimeOccurrence(t, day, day);
      if t.date == day {
        c := c + value;
      }
      return;
    }
    ghost var s := ScheduleOf(t);
    ScheduleAdvances(t);
    var check := t.date;
    ghost var j := 0;
    while DayNumber(check) < DayNumber(day) + 1
      invariant check == At(s, j)
      invariant c == c0
      invariant OccursOn(t, day) <==> day in Walk(s, j, DayNumber(day))
      decreases DayNumber(day) - DayNumber(check)
    {
      WalkCons(s, j, DayNumber(day));
      if check == day {
        assert OccursOn(t, day);
        c := c + value;
        break;
      }
      var next := Step(check, t.recurrence);
      assert next == At(s, j + 1);
      assert Past(s, next) == Ended(t, next);
      if Ended(t, next) {
        assert !OccursOn(t, day);
        break;
      }
      assert OccursOn(t, day) <==> day in Walk(s, j + 1, DayNumber(day));
      if next.year > day.year + 1 {
        YearCutoffIsDead(next, day, 1);
        WalkPast(s, j + 1, DayNumber(day));
        assert !OccursOn(t, day);
        break;
      }
      check := next;
      j := j + 1;
    }
    if DayNumber(check) >= DayNumber(day) + 1 {
      WalkPast(s, j, DayNumber(day));
      assert !OccursOn(t, day) && c == c0;
    }
  }
}
