/** The weekday accounting of `src/main.py`: `num_weekdays`, and the totals, the elapsed
    count and the daily budget that `format_usage_message` derives from it. `num_weekdays`
    hands arrow objects to dateutil's `rrule`, which reduces each of them to its date with
    `toordinal()`, so the count runs over whole days identified by their ordinals. */
module BillingCycle {
  import opened Wrappers
  import opened Calendar
  import Python

  /** `num_weekdays(start, end)`: the number of Mondays to Fridays among the days `start` to
      `end`, both included. */
  function NumWeekdays(start: int, end: int): (n: nat)
    ensures n <= if end < start then 0 else end - start + 1
    decreases end - start
  {
    if end < start then 0 else NumWeekdays(start, end - 1) + (if IsWeekday(end) then 1 else 0)
  }

  /** The reference the count is measured against: the set of weekdays in the range. */
  ghost function WeekdaysBetween(start: int, end: int): set<int>
  {
    set d | start <= d <= end && IsWeekday(d)
  }

  /** `num_weekdays` counts exactly the Monday-to-Friday days of the inclusive range. */
  lemma {:induction false} NumWeekdaysCounts(start: int, end: int)
    ensures NumWeekdays(start, end) == |WeekdaysBetween(start, end)|
    decreases end - start
  {
    if end >= start {
      NumWeekdaysCounts(start, end - 1);
      if IsWeekday(end) {
        assert WeekdaysBetween(start, end) == WeekdaysBetween(start, end - 1) + {end};
      } else {
        assert WeekdaysBetween(start, end) == WeekdaysBetween(start, end - 1);
      }
    } else {
      assert WeekdaysBetween(start, end) == {};
    }
  }

  /** Counting over two adjacent ranges adds up. */
  lemma {:induction false} NumWeekdaysSplit(start: int, mid: int, end: int)
    requires start - 1 <= mid <= end
    ensures NumWeekdays(start, end) == NumWeekdays(start, mid) + NumWeekdays(mid + 1, end)
    decreases end - mid
  {
    if mid < end {
      NumWeekdaysSplit(start, mid, end - 1);
    }
  }

  /** 1 for a weekday, 0 for a weekend day. */
  function WeekdayCount(n: int): int
  {
    if IsWeekday(n) then 1 else 0
  }

  lemma SevenDays(start: int)
    ensures NumWeekdays(start, start + 6)
         == WeekdayCount(start) + WeekdayCount(start + 1) + WeekdayCount(start + 2) + WeekdayCount(start + 3)
          + WeekdayCount(start + 4) + WeekdayCount(start + 5) + WeekdayCount(start + 6)
  {
    assert NumWeekdays(start, start) == WeekdayCount(start);
    assert NumWeekdays(start, start + 1) == NumWeekdays(start, start) + WeekdayCount(start + 1);
    assert NumWeekdays(start, start + 2) == NumWeekdays(start, start + 1) + WeekdayCount(start + 2);
    assert NumWeekdays(start, start + 3) == NumWeekdays(start, start + 2) + WeekdayCount(start + 3);
    assert NumWeekdays(start, start + 4) == NumWeekdays(start, start + 3) + WeekdayCount(start + 4);
    assert NumWeekdays(start, start + 5) == NumWeekdays(start, start + 4) + WeekdayCount(start + 5);
  }

  /** The weekday number after `w`. */
  function Succ(w: int): int
  {
    if w == 6 then 0 else w + 1
  }

  /** Seven successive weekday numbers, each one after the previous, include five below 5. */
  lemma FiveBelowFive(w0: int, w1: int, w2: int, w3: int, w4: int, w5: int, w6: int)
    requires 0 <= w0 < 7
    requires w1 == Succ(w0) && w2 == Succ(w1) && w3 == Succ(w2)
    requires w4 == Succ(w3) && w5 == Succ(w4) && w6 == Succ(w5)
    ensures (if w0 < 5 then 1 else 0) + (if w1 < 5 then 1 else 0) + (if w2 < 5 then 1 else 0)
          + (if w3 < 5 then 1 else 0) + (if w4 < 5 then 1 else 0) + (if w5 < 5 then 1 else 0)
          + (if w6 < 5 then 1 else 0) == 5
  {
    if w0 == 0 {
    } else if w0 == 1 {
    } else if w0 == 2 {
    } else if w0 == 3 {
    } else if w0 == 4 {
    } else if w0 == 5 {
    } else {
    }
  }

  lemma FiveOfSeven(start: int)
    ensures WeekdayCount(start) + WeekdayCount(start + 1) + WeekdayCount(start + 2) + WeekdayCount(start + 3)
          + WeekdayCount(start + 4) + WeekdayCount(start + 5) + WeekdayCount(start + 6) == 5
  {
    WeekdayNext(start);
    WeekdayNext(start + 1);
    WeekdayNext(start + 2);
    WeekdayNext(start + 3);
    WeekdayNext(start + 4);
    WeekdayNext(start + 5);
    FiveBelowFive(Weekday(start), Weekday(start + 1), Weekday(start + 2), Weekday(start + 3),
      Weekday(start + 4), Weekday(start + 5), Weekday(start + 6));
  }

  /** Any seven consecutive days hold five weekdays. */
  lemma NumWeekdaysWeek(start: int)
    ensures NumWeekdays(start, start + 6) == 5
  {
    SevenDays(start);
    FiveOfSeven(start);
  }

  /** `weeks` whole weeks hold `5 * weeks` weekdays. */
  lemma {:induction false} NumWeekdaysWeeks(start: int, weeks: nat)
    ensures NumWeekdays(start, start + 7 * weeks - 1) == 5 * weeks
  {
    if weeks > 0 {
      NumWeekdaysWeeks(start, weeks - 1);
      NumWeekdaysSplit(start, start + 7 * (weeks - 1) - 1, start + 7 * weeks - 1);
      NumWeekdaysWeek(start + 7 * (weeks - 1));
    }
  }

  /** Extending the range never lowers the count. */
  lemma {:induction false} NumWeekdaysMonotone(start: int, end: int, end': int)
    requires end <= end'
    ensures NumWeekdays(start, end) <= NumWeekdays(start, end')
    decreases end' - end
  {
    if end < end' {
      NumWeekdaysMonotone(start, end, end' - 1);
    }
  }

  /** A range of 28 to 31 days, the length of a one-month cycle, holds 20 to 23 weekdays. */
  lemma MonthWeekdays(start: int, days: int)
    requires 28 <= days <= 31
    ensures 20 <= NumWeekdays(start, start + days - 1) <= 23
  {
    NumWeekdaysWeeks(start, 4);
    NumWeekdaysSplit(start, start + 27, start + days - 1);
  }

  /** The weekdays of the billing cycle starting on `start`: from `start` to the day before
      the same day of the next month (clamped to that month's end), both included. The
      shift past year 9999 raises. */
  function TotalWeekdays(start: Date): (r: Result<int, Python.Exception>)
    requires ValidDate(start)
    ensures r.Err? <==> start.year == 9999 && start.month == 12
    ensures r.Ok? ==> 20 <= r.value <= 23
  {
    match ShiftOneMonth(start)
    case None => Err(Python.ValueError)
    case Some(end) =>
      CycleLength(start);
      MonthWeekdays(Ordinal(start), Ordinal(end) - Ordinal(start));
      Ok(NumWeekdays(Ordinal(start), Ordinal(end) - 1))
  }

  /** The weekdays of the cycle before the current day: from `start` to the day before
      `now`, both included. Stepping back from 1 January of year 1 raises. */
  function ElapsedWeekdays(start: Date, now: Date): (r: Result<int, Python.Exception>)
    requires ValidDate(start) && ValidDate(now)
    ensures r.Err? <==> Ordinal(now) == 1
    ensures r.Ok? ==> 0 <= r.value <= if Ordinal(now) <= Ordinal(start) then 0 else Ordinal(now) - Ordinal(start)
  {
    if Ordinal(now) == 1 then Err(Python.OverflowError)
    else Ok(NumWeekdays(Ordinal(start), Ordinal(now) - 1))
  }

  /** The cycle's weekdays are those from its first day to the day before the next cycle. */
  lemma TotalWeekdaysCounts(start: Date)
    requires ValidDate(start) && TotalWeekdays(start).Ok?
    ensures ShiftOneMonth(start).Some?
    ensures TotalWeekdays(start).value == |WeekdaysBetween(Ordinal(start), Ordinal(ShiftOneMonth(start).value) - 1)|
  {
    NumWeekdaysCounts(Ordinal(start), Ordinal(ShiftOneMonth(start).value) - 1);
  }

  /** The elapsed weekdays are those from the cycle's first day to yesterday. */
  lemma ElapsedWeekdaysCounts(start: Date, now: Date)
    requires ValidDate(start) && ValidDate(now) && ElapsedWeekdays(start, now).Ok?
    ensures ElapsedWeekdays(start, now).value == |WeekdaysBetween(Ordinal(start), Ordinal(now) - 1)|
  {
    NumWeekdaysCounts(Ordinal(start), Ordinal(now) - 1);
  }

  /** With the cycle running from day `first` to the day before `last` and today being day
      `today` (see `TotalWeekdaysCounts` and `ElapsedWeekdaysCounts`): within the cycle (up to
      its last day) the elapsed weekdays never exceed the cycle's, so the weekdays left are
      not negative; they always are at most the cycle's total. */
  lemma WeekdaysLeftBounds(first: int, today: int, last: int)
    ensures NumWeekdays(first, last - 1) - NumWeekdays(first, today - 1) <= NumWeekdays(first, last - 1)
    ensures today <= last ==> NumWeekdays(first, last - 1) - NumWeekdays(first, today - 1) >= 0
  {
    if today <= last {
      NumWeekdaysMonotone(first, today - 1, last - 1);
    }
  }

  /** The divisor of the daily budget: the weekdays left when positive, else 1. */
  function Divisor(weekdaysLeft: int): (d: int)
    ensures d >= 1
    ensures weekdaysLeft > 0 ==> d == weekdaysLeft
    ensures weekdaysLeft <= 0 ==> d == 1
  {
    if weekdaysLeft > 0 then weekdaysLeft else 1
  }

  /** The estimated limit per day: what is left of the allowance, plus what was used today
      when today is a weekday, shared out over the weekdays left; when none are left the
      whole of it is the limit for today. */
  function DailyBudget(remaining: real, today: real, weekdaysLeft: int, todayIsWeekend: bool): (avg: real)
    ensures var budget := if todayIsWeekend then remaining else remaining + today;
      && (weekdaysLeft > 0 ==> avg * weekdaysLeft as real == budget)
      && (weekdaysLeft <= 0 ==> avg == budget)
      && avg * Divisor(weekdaysLeft) as real == budget
  {
    (if todayIsWeekend then remaining else remaining + today) / Divisor(weekdaysLeft) as real
  }

  /** The budget times its divisor is what is shared out: what is left, plus today's usage
      on a weekday. */
  lemma BudgetSharedOut(avg: real, remaining: real, today: real, weekdaysLeft: int, todayIsWeekend: bool)
    requires avg == DailyBudget(remaining, today, weekdaysLeft, todayIsWeekend)
    ensures SharesOut(avg, remaining + (if todayIsWeekend then 0.0 else today), weekdaysLeft)
  {
  }

  /** `avg` per day over the weekdays left (at least 1) adds up to `total`. */
  predicate SharesOut(avg: real, total: real, weekdaysLeft: int)
  {
    avg * Divisor(weekdaysLeft) as real == total
  }

  /** On Saturday and Sunday today's usage plays no part in the budget. */
  lemma WeekendIgnoresToday(remaining: real, today: real, today': real, weekdaysLeft: int)
    ensures DailyBudget(remaining, today, weekdaysLeft, true) == DailyBudget(remaining, today', weekdaysLeft, true)
    ensures DailyBudget(remaining, today, weekdaysLeft, true) == DailyBudget(remaining, 0.0, weekdaysLeft, false)
  {
  }

  /** The cycle starting on Sunday 1 March 2020: 22 weekdays in all, 12 of them before
      Wednesday 18 March, which leaves 10. */
  lemma MarchExample()
    ensures Ordinal(Date(2020, 3, 1)) == 737485 && Weekday(737485) == 6
    ensures Ordinal(Date(2020, 3, 18)) == 737502 && Weekday(737502) == 2
    ensures TotalWeekdays(Date(2020, 3, 1)) == Ok(22)
    ensures ElapsedWeekdays(Date(2020, 3, 1), Date(2020, 3, 18)) == Ok(12)
  {
    assert ShiftOneMonth(Date(2020, 3, 1)) == Some(Date(2020, 4, 1));
    assert Ordinal(Date(2020, 4, 1)) == 737516;
    // 1 to 28 March are four whole weeks; 29 to 31 March are Sunday, Monday, Tuesday
    NumWeekdaysWeeks(737485, 4);
    NumWeekdaysSplit(737485, 737512, 737515);
    assert NumWeekdays(737513, 737515) == 2;
    // 1 to 14 March are two whole weeks; 15 to 17 March are Sunday, Monday, Tuesday
    NumWeekdaysWeeks(737485, 2);
    NumWeekdaysSplit(737485, 737498, 737501);
    assert NumWeekdays(737499, 737501) == 2;
  }
}
