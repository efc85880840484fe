/** The proleptic Gregorian calendar as Python's `datetime.date` counts it, together with
    the two calendar operations the billing-cycle arithmetic relies on: advancing a date by
    one month with the day clamped to the end of the month (dateutil's `relativedelta`,
    which arrow's `shift(months=1)` uses) and the weekday of a day. Days are numbered by
    their ordinal: 1 January of year 1 is day 1, as `date.toordinal()` numbers them. */
module Calendar {
  import opened Wrappers
  import Text

  datatype Date = Date(year: int, month: int, day: int)

  /** A date and a time of day, as read from the vendor's timestamp objects. */
  datatype DateTime = DateTime(date: Date, hour: int, minute: int, second: int)

  predicate IsLeap(year: int)
  {
    year % 4 == 0 && (year % 100 != 0 || year % 400 == 0)
  }

  function DaysInMonth(year: int, month: int): (n: int)
    requires 1 <= month <= 12
    ensures 28 <= n <= 31
    ensures month == 2 ==> (n == 29 <==> IsLeap(year))
  {
    if month == 2 && IsLeap(year) then 29
    else [31, 28, 31, 30, 31, 30, 31, 31, 30, 31, 30, 31][month - 1]
  }

  function DaysBeforeMonth(year: int, month: int): int
    requires 1 <= month <= 12
  {
    [0, 31, 59, 90, 120, 151, 181, 212, 243, 273, 304, 334][month - 1]
      + (if month > 2 && IsLeap(year) then 1 else 0)
  }

  function DaysBeforeYear(year: int): int
  {
    var y := year - 1;
    y * 365 + y / 4 - y / 100 + y / 400
  }

  /** The years `date` accepts. */
  predicate ValidDate(d: Date)
  {
    && 1 <= d.year <= 9999
    && 1 <= d.month <= 12
    && 1 <= d.day <= DaysInMonth(d.year, d.month)
  }

  predicate ValidDateTime(t: DateTime)
  {
    ValidDate(t.date) && 0 <= t.hour < 24 && 0 <= t.minute < 60 && 0 <= t.second < 60
  }

  /** `date.toordinal()`. */
  function Ordinal(d: Date): (n: int)
    requires ValidDate(d)
    ensures n >= 1
    ensures d == Date(1, 1, 1) ==> n == 1
  {
    DaysBeforeYear(d.year) + DaysBeforeMonth(d.year, d.month) + d.day
  }

  /** The day after `d`, as `d + timedelta(days=1)` gives it and as a daily recurrence
      steps from one day to the next; 31 December 9999 has none. */
  function NextDay(d: Date): (e: Date)
    requires ValidDate(d) && d != Date(9999, 12, 31)
    ensures ValidDate(e)
    ensures e.year == d.year || (e.year == d.year + 1 && e.month == 1 && e.day == 1)
  {
    if d.day < DaysInMonth(d.year, d.month) then Date(d.year, d.month, d.day + 1)
    else if d.month < 12 then Date(d.year, d.month + 1, 1)
    else Date(d.year + 1, 1, 1)
  }

  /** Consecutive days have consecutive ordinals, across the end of a month and of a year,
      so counting ordinals counts the days a daily recurrence visits. */
  lemma OrdinalNext(d: Date)
    requires ValidDate(d) && d != Date(9999, 12, 31)
    ensures Ordinal(NextDay(d)) == Ordinal(d) + 1
  {
    if d.day == DaysInMonth(d.year, d.month) {
      if d.month < 12 {
        assert DaysBeforeMonth(d.year, d.month + 1) - DaysBeforeMonth(d.year, d.month)
          == DaysInMonth(d.year, d.month);
      } else {
        DaysBeforeNextYear(d.year);
      }
    }
  }

  /** `date.weekday()` of the day with ordinal `n`: 0 is Monday and 6 is Sunday, so day 1
      (1 January of year 1, a Monday) has weekday 0. */
  function Weekday(n: int): (w: int)
    ensures 0 <= w < 7
  {
    (n + 6) % 7
  }

  /** Consecutive days have consecutive weekdays, Sunday being followed by Monday. */
  lemma WeekdayNext(n: int)
    ensures Weekday(n + 1) == if Weekday(n) == 6 then 0 else Weekday(n) + 1
  {
  }

  /** Monday to Friday. */
  predicate IsWeekday(n: int)
  {
    Weekday(n) < 5
  }

  /** Saturday or Sunday. */
  predicate IsWeekend(n: int)
  {
    Weekday(n) == 5 || Weekday(n) == 6
  }

  /** The next month of the calendar, with the day clamped to that month's last day, as
      `relativedelta(months=1)` computes it; `None` where the result would lie after year
      9999, which `date` refuses. */
  function ShiftOneMonth(d: Date): (r: Option<Date>)
    requires ValidDate(d)
    ensures r.None? <==> d.year == 9999 && d.month == 12
    ensures r.Some? ==> ValidDate(r.value)
    ensures r.Some? ==> r.value.month == d.month % 12 + 1
    ensures r.Some? ==> r.value.year == (if d.month == 12 then d.year + 1 else d.year)
    ensures r.Some? ==> r.value.day <= d.day
    ensures r.Some? ==> (r.value.day == d.day || r.value.day == DaysInMonth(r.value.year, r.value.month))
  {
    var (year, month) := if d.month == 12 then (d.year + 1, 1) else (d.year, d.month + 1);
    if year > 9999 then None
    else
      var last := DaysInMonth(year, month);
      Some(Date(year, month, if d.day <= last then d.day else last))
  }

  lemma DaysBeforeNextYear(year: int)
    requires year >= 1
    ensures DaysBeforeYear(year + 1) - DaysBeforeYear(year) == if IsLeap(year) then 366 else 365
  {
    var y := year - 1;
    StepBy4(y);
    StepBy100(y);
    StepBy400(y);
    var d4 := if year % 4 == 0 then 1 else 0;
    var d100 := if year % 100 == 0 then 1 else 0;
    var d400 := if year % 400 == 0 then 1 else 0;
    assert DaysBeforeYear(year + 1) - DaysBeforeYear(year) == 365 + d4 - d100 + d400;
    Divides400(year);
    Divides100(year);
  }

  lemma Divides400(year: int)
    ensures year % 400 == 0 ==> year % 100 == 0
  {
    if year % 400 == 0 {
      assert year == 100 * (4 * (year / 400));
    }
  }

  lemma Divides100(year: int)
    ensures year % 100 == 0 ==> year % 4 == 0
  {
    if year % 100 == 0 {
      assert year == 4 * (25 * (year / 100));
    }
  }

  lemma StepBy4(y: int)
    requires y >= 0
    ensures (y + 1) / 4 == y / 4 + (if (y + 1) % 4 == 0 then 1 else 0)
  {
  }

  lemma StepBy100(y: int)
    requires y >= 0
    ensures (y + 1) / 100 == y / 100 + (if (y + 1) % 100 == 0 then 1 else 0)
  {
  }

  lemma StepBy400(y: int)
    requires y >= 0
    ensures (y + 1) / 400 == y / 400 + (if (y + 1) % 400 == 0 then 1 else 0)
  {
  }

  /** A billing cycle of one calendar month, however the start day is clamped, lasts between
      28 and 31 days. */
  lemma CycleLength(d: Date)
    requires ValidDate(d)
    requires ShiftOneMonth(d).Some?
    ensures 28 <= Ordinal(ShiftOneMonth(d).value) - Ordinal(d) <= 31
  {
    var e := ShiftOneMonth(d).value;
    if d.month == 12 {
      DaysBeforeNextYear(d.year);
      assert Ordinal(e) - Ordinal(d) == 31;
    } else {
      assert DaysBeforeMonth(d.year, d.month + 1) - DaysBeforeMonth(d.year, d.month)
        == DaysInMonth(d.year, d.month);
    }
  }

  /** arrow's English day-name abbreviation (`ddd`). */
  function DayAbbreviation(n: int): (s: string)
    ensures |s| == 3
    ensures Weekday(n) == 0 ==> s == "Mon"
    ensures IsWeekend(n) <==> s == "Sat" || s == "Sun"
  {
    ["Mon", "Tue", "Wed", "Thu", "Fri", "Sat", "Sun"][Weekday(n)]
  }

  /** The format `DD/MM/YYYY`: the day, month and year with two, two and four digits. */
  function FormatDate(d: Date): (s: string)
    requires ValidDate(d)
    ensures |s| == 10 && s[2] == '/' && s[5] == '/'
  {
    Text.NatDecimalShort(d.day);
    Text.NatDecimalShort(d.month);
    Text.NatDecimalShort(d.year);
    Text.ZeroPad(d.day, 2) + "/" + Text.ZeroPad(d.month, 2) + "/" + Text.ZeroPad(d.year, 4)
  }

  /** The digits of `DD/MM/YYYY` read back as the date's day, month and year. */
  lemma FormatDateReadsBack(d: Date)
    requires ValidDate(d)
    ensures var s := FormatDate(d);
      && (forall i :: 0 <= i < 10 && i != 2 && i != 5 ==> Text.IsDigit(s[i]))
      && Text.DecimalValue(s[..2]) == d.day
      && Text.DecimalValue(s[3..5]) == d.month
      && Text.DecimalValue(s[6..]) == d.year
  {
    var s := FormatDate(d);
    assert s[..2] == Text.ZeroPad(d.day, 2);
    assert s[3..5] == Text.ZeroPad(d.month, 2);
    assert s[6..] == Text.ZeroPad(d.year, 4);
  }

  /** The format `ddd DD/MM/YYYY`, for example `Wed 18/03/2020`: the day's name, a space
      and the date. */
  function FormatDayDate(d: Date): (s: string)
    requires ValidDate(d)
    ensures |s| == 14 && s[3] == ' '
    ensures s[..3] == DayAbbreviation(Ordinal(d)) && s[4..] == FormatDate(d)
  {
    DayAbbreviation(Ordinal(d)) + " " + FormatDate(d)
  }

  /** The format `DD/MM`: the day and the month with two digits each. */
  function FormatDayMonth(d: Date): (s: string)
    requires ValidDate(d)
    ensures |s| == 5 && s[2] == '/'
    ensures s == FormatDate(d)[..5]
  {
    Text.NatDecimalShort(d.day);
    Text.NatDecimalShort(d.month);
    Text.ZeroPad(d.day, 2) + "/" + Text.ZeroPad(d.month, 2)
  }

  /** The format `HH:mm:ss`, the hour on the 24-hour clock. */
  function FormatClock(hour: nat, minute: nat, second: nat): (s: string)
    requires hour < 24 && minute < 60 && second < 60
    ensures |s| == 8 && s[2] == ':' && s[5] == ':'
  {
    Text.NatDecimalShort(hour);
    Text.NatDecimalShort(minute);
    Text.NatDecimalShort(second);
    Text.ZeroPad(hour, 2) + ":" + Text.ZeroPad(minute, 2) + ":" + Text.ZeroPad(second, 2)
  }

  /** The digits of `HH:mm:ss` read back as the hour, minute and second. */
  lemma FormatClockReadsBack(hour: nat, minute: nat, second: nat)
    requires hour < 24 && minute < 60 && second < 60
    ensures var s := FormatClock(hour, minute, second);
      && (forall i :: 0 <= i < 8 && i != 2 && i != 5 ==> Text.IsDigit(s[i]))
      && Text.DecimalValue(s[..2]) == hour
      && Text.DecimalValue(s[3..5]) == minute
      && Text.DecimalValue(s[6..]) == second
  {
    var s := FormatClock(hour, minute, second);
    assert s[..2] == Text.ZeroPad(hour, 2);
    assert s[3..5] == Text.ZeroPad(minute, 2);
    assert s[6..] == Text.ZeroPad(second, 2);
  }

  /** The format `DD/MM/YYYY HH:mm:ss A`, for example `18/03/2020 14:05:09 PM`: the date,
      the time on the 24-hour clock and a marker saying whether it is before noon. */
  function FormatTimestamp(t: DateTime): (s: string)
    requires ValidDateTime(t)
    ensures |s| == 22 && s[10] == ' ' && s[19] == ' '
    ensures s[..10] == FormatDate(t.date)
    ensures s[11..19] == FormatClock(t.hour, t.minute, t.second)
    ensures s[20..] == if t.hour < 12 then "AM" else "PM"
  {
    var date, clock := FormatDate(t.date), FormatClock(t.hour, t.minute, t.second);
    var marker := if t.hour < 12 then "AM" else "PM";
    var s := date + " " + clock + " " + marker;
    assert s[..10] == date && s[11..19] == clock && s[20..] == marker;
    s
  }
}
