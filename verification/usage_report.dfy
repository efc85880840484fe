/** The report side of `src/main.py`: the analysis block of `format_usage_message`, which
    adds `C-` keys to the usage record, the per-day loops of `format_usage_history_message`
    and `generate_and_send_image_file`, `generate_progress_bar`, and the timestamp reader
    `datetime_json_to_arrow`. The current time is a parameter (the source reads the clock
    in Singapore time); Markdown templating, plotting and message delivery are not modelled. */
module UsageReport {
  import opened Wrappers
  import opened Python
  import opened Calendar
  import Text
  import UnitNormalizer
  import BillingCycle
  import Traversal

  /** `datetime_json_to_arrow`: a timestamp object with integer `day`, `month`, `year`,
      `hour`, `minute` and `second` entries, read in that order; the parser's `YYYY` token
      takes four digits. */
  function ParseDateTime(v: Value): (r: Result<DateTime, Exception>)
    ensures r.Ok? ==> ValidDateTime(r.value) && 1000 <= r.value.date.year
    ensures !v.PyDict? ==> r == Err(TypeError)
  {
    var day :- GetItem(v, "day");
    var month :- GetItem(v, "month");
    var year :- GetItem(v, "year");
    var hour :- GetItem(v, "hour");
    var minute :- GetItem(v, "minute");
    var second :- GetItem(v, "second");
    if !(day.PyInt? && month.PyInt? && year.PyInt? && hour.PyInt? && minute.PyInt? && second.PyInt?) then
      Err(ParserError)
    else
      var t := DateTime(Date(year.i, month.i, day.i), hour.i, minute.i, second.i);
      if ValidDateTime(t) && 1000 <= year.i then Ok(t) else Err(ParserError)
  }

  /** `usage_dict['dailyUsage']['day']`. */
  function DailyUsage(usage: Dict): (r: Result<Value, Exception>)
    ensures "dailyUsage" !in usage ==> r == Err(KeyError("dailyUsage"))
    ensures "dailyUsage" in usage && !usage["dailyUsage"].PyDict? ==> r == Err(TypeError)
    ensures r.Ok? <==> "dailyUsage" in usage && usage["dailyUsage"].PyDict? && "day" in usage["dailyUsage"].entries
    ensures r.Ok? ==> r.value == usage["dailyUsage"].entries["day"]
  {
    var daily :- Get(usage, "dailyUsage");
    GetItem(daily, "day")
  }

  /** `daily_usage[-1]['usage']`: the raw usage figure of the last day. */
  function TodayUsage(usage: Dict): (r: Result<Value, Exception>)
    ensures DailyUsage(usage).Err? ==> r == Err(DailyUsage(usage).error)
    ensures DailyUsage(usage).Ok? && DailyUsage(usage).value == PyList([]) ==> r == Err(IndexError)
    ensures var days := DailyUsage(usage);
      (days.Ok? && days.value.PyList? && |days.value.items| > 0)
      ==> r == GetItem(days.value.items[|days.value.items| - 1], "usage")
  {
    var days :- DailyUsage(usage);
    var last :- LastItem(days);
    GetItem(last, "usage")
  }

  /** The keys the analysis block writes. */
  const AnalysisKeys: set<string> :=
    {"C-todayUsage", "C-lastProcessedDateTime", "C-avgData", "C-avgDataUOM", "C-weekdayLeft"}

  /** Lines 166 to 171 of `format_usage_message`: record the last day's raw usage as
      `C-todayUsage` and the formatted last-processed time as `C-lastProcessedDateTime`. */
  function RecordToday(usage: Dict): (r: Result<Dict, Exception>)
    ensures TodayUsage(usage).Err? ==> r == Err(TodayUsage(usage).error)
    ensures TodayUsage(usage).Ok? && "lastProcessedDateTime" !in usage ==> r == Err(KeyError("lastProcessedDateTime"))
    ensures r.Ok? ==> r.value.Keys == usage.Keys + {"C-todayUsage", "C-lastProcessedDateTime"}
    ensures r.Ok? ==> forall k :: k in usage && k != "C-todayUsage" && k != "C-lastProcessedDateTime" ==> r.value[k] == usage[k]
    ensures TodayUsage(usage).Ok? && "lastProcessedDateTime" in usage && ParseDateTime(usage["lastProcessedDateTime"]).Err?
            ==> r == Err(ParseDateTime(usage["lastProcessedDateTime"]).error)
    ensures r.Ok? ==> r.value["C-todayUsage"] == TodayUsage(usage).value
    ensures r.Ok? ==> "lastProcessedDateTime" in usage && ParseDateTime(usage["lastProcessedDateTime"]).Ok?
    ensures r.Ok? ==> r.value["C-lastProcessedDateTime"] == PyStr(FormatTimestamp(ParseDateTime(usage["lastProcessedDateTime"]).value))
  {
    var today :- TodayUsage(usage);
    var d := usage["C-todayUsage" := today];
    var lastProcessed :- Get(d, "lastProcessedDateTime");
    var processed :- ParseDateTime(lastProcessed);
    Ok(d["C-lastProcessedDateTime" := PyStr(FormatTimestamp(processed))])
  }

  /** Lines 177 to 189 of `format_usage_message`: the weekdays of the cycle that starts at
      the record's `fromDateTime`, less the weekdays before today. */
  function WeekdaysLeft(d: Dict, now: Date): (r: Result<int, Exception>)
    requires ValidDate(now)
    ensures "fromDateTime" !in d ==> r == Err(KeyError("fromDateTime"))
    ensures r.Ok? ==> r.value <= 23
  {
    var from :- Get(d, "fromDateTime");
    var start :- ParseDateTime(from);
    var total :- BillingCycle.TotalWeekdays(start.date);
    var elapsed :- BillingCycle.ElapsedWeekdays(start.date, now);
    Ok(total - elapsed)
  }

  /** Lines 194 to 199 of `format_usage_message`: the estimated daily limit in megabytes. */
  function EstimatedDailyLimit(d: Dict, now: Date, weekdaysLeft: int): (r: Result<real, Exception>)
    requires ValidDate(now)
    ensures "N-usageDifference" !in d ==> r == Err(KeyError("N-usageDifference"))
    ensures IsWeekend(Ordinal(now)) ==> (r.Ok? <==> "N-usageDifference" in d && ToFloat(d["N-usageDifference"]).Ok?)
  {
    DailyLimitOn(d, IsWeekend(Ordinal(now)), weekdaysLeft)
  }

  /** The estimated daily limit on a weekend day or on a weekday. */
  function DailyLimitOn(d: Dict, weekend: bool, weekdaysLeft: int): (r: Result<real, Exception>)
    ensures "N-usageDifference" !in d ==> r == Err(KeyError("N-usageDifference"))
    ensures r.Ok? <==> "N-usageDifference" in d && ToFloat(d["N-usageDifference"]).Ok?
                       && (!weekend ==> "C-todayUsage" in d && ToFloat(d["C-todayUsage"]).Ok?)
  {
    var difference :- Get(d, "N-usageDifference");
    var remaining :- ToFloat(difference);
    var todayMb :- if weekend then Ok(0.0) else (var today :- Get(d, "C-todayUsage"); ToFloat(today));
    Ok(BillingCycle.DailyBudget(remaining, todayMb, weekdaysLeft, weekend))
  }

  /** Lines 177 to 203 of `format_usage_message`, on the normalised record `d`: write the
      estimated daily limit, its unit and the weekdays left. */
  function Projection(d: Dict, now: Date): (r: Result<Dict, Exception>)
    requires ValidDate(now)
    ensures WeekdaysLeft(d, now).Err? ==> r == Err(WeekdaysLeft(d, now).error)
    ensures r.Ok? ==> r.value.Keys == d.Keys + {"C-avgData", "C-avgDataUOM", "C-weekdayLeft"}
  {
    var left :- WeekdaysLeft(d, now);
    var avg :- EstimatedDailyLimit(d, now, left);
    Ok(d["C-avgData" := PyFloat(avg)]["C-avgDataUOM" := PyStr("MB")]["C-weekdayLeft" := PyInt(left)])
  }

  /** Lines 166 to 203 of `format_usage_message` as one expression. */
  function UsageAnalysis(usage: Dict, now: Date): (r: Result<Dict, Exception>)
    requires ValidDate(now)
    ensures RecordToday(usage).Err? ==> r == Err(RecordToday(usage).error)
    ensures r.Ok? ==> usage.Keys + AnalysisKeys <= r.value.Keys
  {
    var d1 :- RecordToday(usage);
    var d2 :- UnitNormalizer.NormalizeFields(d1, UnitNormalizer.Fields);
    Projection(d2, now)
  }

  /** The analysis block of `format_usage_message`, updating the usage record step by step
      as the source does; `now` is the current date in Singapore time. */
  method FormatUsageAnalysis(usage: Dict, now: Date) returns (r: Result<Dict, Exception>)
    requires ValidDate(now)
    ensures r == UsageAnalysis(usage, now)
  {
    var usageDict := usage;
    var dailyUsage :- DailyUsage(usageDict);
    var last :- LastItem(dailyUsage);
    var today :- GetItem(last, "usage");
    usageDict := usageDict["C-todayUsage" := today];

    var lastProcessed :- Get(usageDict, "lastProcessedDateTime");
    var processed :- ParseDateTime(lastProcessed);
    usageDict := usageDict["C-lastProcessedDateTime" := PyStr(FormatTimestamp(processed))];
    assert RecordToday(usage) == Ok(usageDict);

    var normalized := UnitNormalizer.NormalizeDataUom(usageDict);
    usageDict :- normalized;

    r := AddProjection(usageDict, now);
  }

  /** Lines 177 to 203 of `format_usage_message`, as the source writes them. */
  method AddProjection(usage: Dict, now: Date) returns (r: Result<Dict, Exception>)
    requires ValidDate(now)
    ensures r == Projection(usage, now)
  {
    var usageDict := usage;
    var weekdaysLeft :- CycleWeekdaysLeft(usageDict, now);
    var weekend := Weekday(Ordinal(now)) == 5 || Weekday(Ordinal(now)) == 6;
    var avgDataMb :- AverageDataMb(usageDict, weekend, weekdaysLeft);
    usageDict := usageDict["C-avgData" := PyFloat(avgDataMb)];
    usageDict := usageDict["C-avgDataUOM" := PyStr("MB")];
    usageDict := usageDict["C-weekdayLeft" := PyInt(weekdaysLeft)];
    r := Ok(usageDict);
  }

  /** Lines 177 to 189 of `format_usage_message`: the billing cycle's start from
      `fromDateTime`, its weekdays and the weekdays already elapsed. */
  method CycleWeekdaysLeft(usageDict: Dict, now: Date) returns (r: Result<int, Exception>)
    requires ValidDate(now)
    ensures r == WeekdaysLeft(usageDict, now)
  {
    var from :- Get(usageDict, "fromDateTime");
    var billingStart :- ParseDateTime(from);
    var totalWeekdays :- BillingCycle.TotalWeekdays(billingStart.date);
    var elapsedWeekdays :- BillingCycle.ElapsedWeekdays(billingStart.date, now);
    r := Ok(totalWeekdays - elapsedWeekdays);
  }

  /** Lines 194 to 199 of `format_usage_message`: the average data per day in megabytes,
      with today's usage added on a weekday only, over the weekdays left (at least 1). */
  method AverageDataMb(usageDict: Dict, weekend: bool, weekdaysLeft: int) returns (r: Result<real, Exception>)
    ensures r == DailyLimitOn(usageDict, weekend, weekdaysLeft)
  {
    var difference :- Get(usageDict, "N-usageDifference");
    var remaining :- ToFloat(difference);
    var avgDataMb: real;
    if weekend {
      avgDataMb := remaining / BillingCycle.Divisor(weekdaysLeft) as real;
      assert avgDataMb == BillingCycle.DailyBudget(remaining, 0.0, weekdaysLeft, true);
    } else {
      var today :- Get(usageDict, "C-todayUsage");
      var todayMb :- ToFloat(today);
      avgDataMb := (remaining + todayMb) / BillingCycle.Divisor(weekdaysLeft) as real;
      assert avgDataMb == BillingCycle.DailyBudget(remaining, todayMb, weekdaysLeft, false);
    }
    r := Ok(avgDataMb);
  }

  /** The limit is the daily budget (see `BillingCycle.DailyBudget`, which times its divisor
      gives back what is shared out) of what is left of the allowance in megabytes and, on
      Monday to Friday only, today's usage; both must be present and readable. */
  lemma EstimatedDailyLimitMeaning(d: Dict, now: Date, weekdaysLeft: int)
    requires ValidDate(now)
    requires EstimatedDailyLimit(d, now, weekdaysLeft).Ok?
    ensures "N-usageDifference" in d && ToFloat(d["N-usageDifference"]).Ok?
    ensures !IsWeekend(Ordinal(now)) ==> "C-todayUsage" in d && ToFloat(d["C-todayUsage"]).Ok?
    ensures EstimatedDailyLimit(d, now, weekdaysLeft).value
         == BillingCycle.DailyBudget(ToFloat(d["N-usageDifference"]).value,
              if IsWeekend(Ordinal(now)) then 0.0 else ToFloat(d["C-todayUsage"]).value,
              weekdaysLeft, IsWeekend(Ordinal(now)))
    ensures BillingCycle.SharesOut(EstimatedDailyLimit(d, now, weekdaysLeft).value,
              ToFloat(d["N-usageDifference"]).value
              + (if IsWeekend(Ordinal(now)) then 0.0 else ToFloat(d["C-todayUsage"]).value),
              weekdaysLeft)
  {
    DailyLimitOnInputs(d, IsWeekend(Ordinal(now)), weekdaysLeft);
    DailyLimitSharedOut(d, IsWeekend(Ordinal(now)), weekdaysLeft);
  }

  /** A limit is computed only from a readable `N-usageDifference` and, on a weekday, a
      readable `C-todayUsage`, and it is the daily budget of those figures. */
  lemma DailyLimitOnInputs(d: Dict, weekend: bool, weekdaysLeft: int)
    requires DailyLimitOn(d, weekend, weekdaysLeft).Ok?
    ensures "N-usageDifference" in d && ToFloat(d["N-usageDifference"]).Ok?
    ensures !weekend ==> "C-todayUsage" in d && ToFloat(d["C-todayUsage"]).Ok?
    ensures DailyLimitOn(d, weekend, weekdaysLeft).value
         == BillingCycle.DailyBudget(ToFloat(d["N-usageDifference"]).value,
              if weekend then 0.0 else ToFloat(d["C-todayUsage"]).value, weekdaysLeft, weekend)
  {
  }

  /** The limit times the weekdays left (at least 1) is what is shared out: the data left
      and, on a weekday, today's usage. */
  lemma DailyLimitSharedOut(d: Dict, weekend: bool, weekdaysLeft: int)
    requires DailyLimitOn(d, weekend, weekdaysLeft).Ok?
    ensures "N-usageDifference" in d && ToFloat(d["N-usageDifference"]).Ok?
    ensures !weekend ==> "C-todayUsage" in d && ToFloat(d["C-todayUsage"]).Ok?
    ensures BillingCycle.SharesOut(DailyLimitOn(d, weekend, weekdaysLeft).value,
              ToFloat(d["N-usageDifference"]).value + (if weekend then 0.0 else ToFloat(d["C-todayUsage"]).value),
              weekdaysLeft)
  {
    DailyLimitOnInputs(d, weekend, weekdaysLeft);
    var remaining := ToFloat(d["N-usageDifference"]).value;
    var avg := DailyLimitOn(d, weekend, weekdaysLeft).value;
    if weekend {
      BillingCycle.BudgetSharedOut(avg, remaining, 0.0, weekdaysLeft, true);
    } else {
      BillingCycle.BudgetSharedOut(avg, remaining, ToFloat(d["C-todayUsage"]).value, weekdaysLeft, false);
    }
  }

  /** Recording today's figures: `C-todayUsage` holds the last day's raw usage,
      `C-lastProcessedDateTime` the `DD/MM/YYYY HH:mm:ss A` text of the record's
      `lastProcessedDateTime`, and only those two keys change. */
  lemma RecordTodayFacts(usage: Dict, d: Dict)
    requires RecordToday(usage) == Ok(d)
    ensures TodayUsage(usage).Ok? && "C-todayUsage" in d && d["C-todayUsage"] == TodayUsage(usage).value
    ensures "lastProcessedDateTime" in usage && ParseDateTime(usage["lastProcessedDateTime"]).Ok?
    ensures "C-lastProcessedDateTime" in d
            && d["C-lastProcessedDateTime"] == PyStr(FormatTimestamp(ParseDateTime(usage["lastProcessedDateTime"]).value))
    ensures forall k :: k != "C-todayUsage" && k != "C-lastProcessedDateTime" ==> UnitNormalizer.Untouched(usage, d, k)
  {
    forall k | k != "C-todayUsage" && k != "C-lastProcessedDateTime"
      ensures UnitNormalizer.Untouched(usage, d, k)
    {
      assert k in d.Keys <==> k in usage.Keys;
    }
  }

  /** The weekdays left are the cycle's weekdays minus the elapsed ones, with no floor. */
  lemma WeekdaysLeftFacts(d: Dict, now: Date)
    requires ValidDate(now)
    requires WeekdaysLeft(d, now).Ok?
    ensures "fromDateTime" in d && ParseDateTime(d["fromDateTime"]).Ok?
    ensures var start := ParseDateTime(d["fromDateTime"]).value.date;
      && BillingCycle.TotalWeekdays(start).Ok?
      && BillingCycle.ElapsedWeekdays(start, now).Ok?
      && WeekdaysLeft(d, now).value == BillingCycle.TotalWeekdays(start).value - BillingCycle.ElapsedWeekdays(start, now).value
  {
  }

  /** The projection writes the three figures. */
  lemma ProjectionFacts(d: Dict, now: Date, n: Dict)
    requires ValidDate(now)
    requires Projection(d, now) == Ok(n)
    ensures WeekdaysLeft(d, now).Ok?
    ensures EstimatedDailyLimit(d, now, WeekdaysLeft(d, now).value).Ok?
    ensures "C-weekdayLeft" in n && n["C-weekdayLeft"] == PyInt(WeekdaysLeft(d, now).value)
    ensures "C-avgDataUOM" in n && n["C-avgDataUOM"] == PyStr("MB")
    ensures "C-avgData" in n && n["C-avgData"] == PyFloat(EstimatedDailyLimit(d, now, WeekdaysLeft(d, now).value).value)
  {
  }

  /** The projection leaves every key but its three alone. */
  lemma ProjectionKeepsOtherKeys(d: Dict, now: Date, n: Dict)
    requires ValidDate(now)
    requires Projection(d, now) == Ok(n)
    ensures forall k :: k != "C-weekdayLeft" && k != "C-avgDataUOM" && k != "C-avgData" ==> UnitNormalizer.Untouched(d, n, k)
  {
  }

  /** A successful analysis passes through its three stages. */
  lemma UsageAnalysisStages(usage: Dict, now: Date, n: Dict)
    requires ValidDate(now)
    requires UsageAnalysis(usage, now) == Ok(n)
    ensures RecordToday(usage).Ok?
    ensures UnitNormalizer.NormalizeFields(RecordToday(usage).value, UnitNormalizer.Fields).Ok?
    ensures Projection(UnitNormalizer.NormalizeFields(RecordToday(usage).value, UnitNormalizer.Fields).value, now) == Ok(n)
  {
  }

  /** After a successful analysis `C-weekdayLeft` is the weekdays of the cycle starting at
      the record's `fromDateTime` minus the elapsed ones, not floored at zero. */
  lemma UsageAnalysisWeekdays(usage: Dict, now: Date, n: Dict)
    requires ValidDate(now)
    requires UsageAnalysis(usage, now) == Ok(n)
    ensures "fromDateTime" in usage && ParseDateTime(usage["fromDateTime"]).Ok?
    ensures var start := ParseDateTime(usage["fromDateTime"]).value.date;
      && BillingCycle.TotalWeekdays(start).Ok?
      && BillingCycle.ElapsedWeekdays(start, now).Ok?
      && "C-weekdayLeft" in n
      && n["C-weekdayLeft"] == PyInt(BillingCycle.TotalWeekdays(start).value - BillingCycle.ElapsedWeekdays(start, now).value)
  {
    UsageAnalysisStages(usage, now, n);
    var d1 := RecordToday(usage).value;
    var d2 := UnitNormalizer.NormalizeFields(d1, UnitNormalizer.Fields).value;
    RecordTodayKeepsKey(usage, d1, "fromDateTime");
    NormalizeKeepsKey(d1, d2, "fromDateTime");
    ProjectedWeekdays(usage, d2, now, n);
  }

  /** The weekdays a projection of `d` writes are those of any record with the same
      `fromDateTime`. */
  lemma ProjectedWeekdays(usage: Dict, d: Dict, now: Date, n: Dict)
    requires ValidDate(now)
    requires UnitNormalizer.Untouched(usage, d, "fromDateTime")
    requires Projection(d, now) == Ok(n)
    ensures "fromDateTime" in usage && ParseDateTime(usage["fromDateTime"]).Ok?
    ensures var start := ParseDateTime(usage["fromDateTime"]).value.date;
      && BillingCycle.TotalWeekdays(start).Ok?
      && BillingCycle.ElapsedWeekdays(start, now).Ok?
      && "C-weekdayLeft" in n
      && n["C-weekdayLeft"] == PyInt(BillingCycle.TotalWeekdays(start).value - BillingCycle.ElapsedWeekdays(start, now).value)
  {
    ProjectionFacts(d, now, n);
    WeekdaysLeftSameStart(usage, d, now);
    WeekdaysLeftFacts(usage, now);
  }

  /** The weekdays left depend on the record's `fromDateTime` entry alone. */
  lemma WeekdaysLeftSameStart(d: Dict, e: Dict, now: Date)
    requires ValidDate(now)
    requires UnitNormalizer.Untouched(d, e, "fromDateTime")
    ensures WeekdaysLeft(d, now) == WeekdaysLeft(e, now)
  {
  }

  /** After a successful analysis `C-avgDataUOM` is always `'MB'` and `C-avgData` is the
      estimated limit computed from the normalised record. */
  lemma UsageAnalysisFacts(usage: Dict, now: Date, n: Dict)
    requires ValidDate(now)
    requires UsageAnalysis(usage, now) == Ok(n)
    ensures "C-avgDataUOM" in n && n["C-avgDataUOM"] == PyStr("MB")
    ensures "C-weekdayLeft" in n && n["C-weekdayLeft"].PyInt? && "C-avgData" in n
    ensures var d2 := UnitNormalizer.NormalizeFields(RecordToday(usage).value, UnitNormalizer.Fields).value;
      n["C-avgData"] == PyFloat(EstimatedDailyLimit(d2, now, n["C-weekdayLeft"].i).value)
  {
    UsageAnalysisStages(usage, now, n);
    var d2 := UnitNormalizer.NormalizeFields(RecordToday(usage).value, UnitNormalizer.Fields).value;
    ProjectionFacts(d2, now, n);
  }

  /** After a successful analysis `C-todayUsage` holds the last day's raw usage. */
  lemma UsageAnalysisToday(usage: Dict, now: Date, n: Dict)
    requires ValidDate(now)
    requires UsageAnalysis(usage, now) == Ok(n)
    ensures TodayUsage(usage).Ok? && "C-todayUsage" in n && n["C-todayUsage"] == TodayUsage(usage).value
  {
    UsageAnalysisStages(usage, now, n);
    var d1 := RecordToday(usage).value;
    RecordTodayFacts(usage, d1);
    TodayKeptAfterRecord(d1, now, n);
  }

  /** Normalising and projecting leave the recorded `C-todayUsage` alone. */
  lemma TodayKeptAfterRecord(d1: Dict, now: Date, n: Dict)
    requires ValidDate(now) && "C-todayUsage" in d1
    requires UnitNormalizer.NormalizeFields(d1, UnitNormalizer.Fields).Ok?
    requires Projection(UnitNormalizer.NormalizeFields(d1, UnitNormalizer.Fields).value, now) == Ok(n)
    ensures "C-todayUsage" in n && n["C-todayUsage"] == d1["C-todayUsage"]
  {
    var d2 := UnitNormalizer.NormalizeFields(d1, UnitNormalizer.Fields).value;
    NormalizeKeepsKey(d1, d2, "C-todayUsage");
    ProjectionKeepsOtherKeys(d2, now, n);
    assert UnitNormalizer.Untouched(d2, n, "C-todayUsage");
  }

  lemma RecordTodayKeepsKey(usage: Dict, d: Dict, k: string)
    requires RecordToday(usage) == Ok(d)
    requires k != "C-todayUsage" && k != "C-lastProcessedDateTime"
    ensures UnitNormalizer.Untouched(usage, d, k)
  {
    RecordTodayFacts(usage, d);
  }

  lemma NormalizeKeepsKey(d: Dict, n: Dict, k: string)
    requires UnitNormalizer.NormalizeFields(d, UnitNormalizer.Fields) == Ok(n)
    requires !UnitNormalizer.IsNormalizedKey(k)
    ensures UnitNormalizer.Untouched(d, n, k)
  {
    UnitNormalizer.NormalizeWritesOnlyNormalizedKeys(d, n);
  }

  /** Every key that is neither an analysis key nor an `N-` key keeps its entry. */
  lemma UsageAnalysisKeepsOtherKeys(usage: Dict, now: Date, n: Dict)
    requires ValidDate(now)
    requires UsageAnalysis(usage, now) == Ok(n)
    ensures forall k :: k !in AnalysisKeys && !UnitNormalizer.IsNormalizedKey(k) ==> UnitNormalizer.Untouched(usage, n, k)
  {
    UsageAnalysisStages(usage, now, n);
    var d1 := RecordToday(usage).value;
    var d2 := UnitNormalizer.NormalizeFields(d1, UnitNormalizer.Fields).value;
    RecordTodayFacts(usage, d1);
    UnitNormalizer.NormalizeWritesOnlyNormalizedKeys(d1, d2);
    ProjectionKeepsOtherKeys(d2, now, n);
    KeptThroughStages(usage, d1, d2, n);
  }

  /** A key each of the three stages leaves alone is left alone by all three. */
  lemma KeptThroughStages(usage: Dict, d1: Dict, d2: Dict, n: Dict)
    requires forall k :: k != "C-todayUsage" && k != "C-lastProcessedDateTime" ==> UnitNormalizer.Untouched(usage, d1, k)
    requires forall k :: !UnitNormalizer.IsNormalizedKey(k) ==> UnitNormalizer.Untouched(d1, d2, k)
    requires forall k :: k != "C-weekdayLeft" && k != "C-avgDataUOM" && k != "C-avgData" ==> UnitNormalizer.Untouched(d2, n, k)
    ensures forall k :: k !in AnalysisKeys && !UnitNormalizer.IsNormalizedKey(k) ==> UnitNormalizer.Untouched(usage, n, k)
  {
    forall k | k !in AnalysisKeys && !UnitNormalizer.IsNormalizedKey(k)
      ensures UnitNormalizer.Untouched(usage, n, k)
    {
      assert UnitNormalizer.Untouched(usage, d1, k);
      assert UnitNormalizer.Untouched(d1, d2, k);
      assert UnitNormalizer.Untouched(d2, n, k);
    }
  }

  // ---------------------------------------------------------------------------------------
  // The daily-usage loops

  /** What `for usage in daily_usage` visits. A dictionary's keys are strings, and the loop
      bodies index each visited entry by a string key, which raises `TypeError` on a string;
      so only whether a dictionary is empty matters, and a non-empty one raises at once. */
  function DailyEntries(v: Value): (r: Result<seq<Value>, Exception>)
    ensures v.PyList? ==> r == Ok(v.items)
    ensures v.PyNone? || v.PyBool? || v.PyInt? || v.PyFloat? ==> r == Err(TypeError)
    ensures v.PyDict? ==> (r.Ok? <==> v.entries == map[])
  {
    match v
    case PyDict(entries) => if entries == map[] then Ok([]) else Err(TypeError)
    case _ =>
      match Iterate(v)
      case Some(xs) => Ok(xs)
      case None => Err(TypeError)
  }

  /** The first two lines of the history message. */
  const HistoryHeader: seq<string> := ["*Usage History (Day)*", ""]

  /** One pass of the loop in `format_usage_history_message`: the entry's date as
      `ddd DD/MM/YYYY`, then its usage as Python's `str` renders it, in megabytes. */
  function HistoryLine(e: Value, str: Value -> string): (r: Result<string, Exception>)
    ensures r.Ok? <==> GetItem(e, "usageDate").Ok? && ParseDateTime(GetItem(e, "usageDate").value).Ok?
                       && GetItem(e, "usage").Ok?
    ensures r.Err? && GetItem(e, "usageDate").Ok? && ParseDateTime(GetItem(e, "usageDate").value).Err?
            ==> r.error == ParseDateTime(GetItem(e, "usageDate").value).error
  {
    var dateJson :- GetItem(e, "usageDate");
    var date :- ParseDateTime(dateJson);
    var amount :- GetItem(e, "usage");
    Ok(FormatDayDate(date.date) + " - " + str(amount) + " MB")
  }

  /** The loop body as a step of a traversal. */
  function HistoryStep(str: Value -> string): Value -> Result<string, Exception>
  {
    e => HistoryLine(e, str)
  }

  /** `format_usage_history_message`: the header, then one line per day. */
  function UsageHistory(usage: Dict, str: Value -> string): (r: Result<string, Exception>)
    ensures DailyUsage(usage).Err? ==> r == Err(DailyUsage(usage).error)
    ensures DailyUsage(usage).Ok? && DailyEntries(DailyUsage(usage).value).Err?
            ==> r == Err(TypeError)
  {
    var days :- DailyUsage(usage);
    var entries :- DailyEntries(days);
    var lines :- Traversal.MapAll(HistoryStep(str), entries);
    Ok(Text.Join(HistoryHeader + lines, "\n"))
  }

  /** `format_usage_history_message`, appending to the list of lines as the source does. */
  method FormatUsageHistory(usage: Dict, str: Value -> string) returns (r: Result<string, Exception>)
    ensures r == UsageHistory(usage, str)
  {
    var dailyUsage :- DailyUsage(usage);
    var entries :- DailyEntries(dailyUsage);
    ghost var f := HistoryStep(str);
    var text := HistoryHeader;
    ghost var lines: seq<string> := [];
    var i := 0;
    assert entries[..i] == [];
    while i < |entries|
      invariant 0 <= i <= |entries|
      invariant text == HistoryHeader + lines
      invariant Traversal.MapAll(f, entries[..i]) == Ok(lines)
    {
      ghost var line := HistoryLine(entries[i], str);
      assert f(entries[i]) == line;
      Traversal.MapAllStep(f, entries, i, lines);
      if line.Err? {
        Traversal.MapAllPrefixError(f, entries, i + 1);
        assert UsageHistory(usage, str) == Err(line.error);
      }
      var usageDate :- GetItem(entries[i], "usageDate");
      var date :- ParseDateTime(usageDate);
      var amount :- GetItem(entries[i], "usage");
      text := text + [FormatDayDate(date.date) + " - " + str(amount) + " MB"];
      lines := lines + [line.value];
      i := i + 1;
    }
    assert entries[..i] == entries;
    r := Ok(Text.Join(text, "\n"));
  }

  /** When every day renders, the message is the header followed by one line per day, in
      the order of the vendor's list. */
  lemma UsageHistoryText(usage: Dict, str: Value -> string, entries: seq<Value>)
    requires DailyUsage(usage).Ok? && DailyEntries(DailyUsage(usage).value) == Ok(entries)
    requires forall i :: 0 <= i < |entries| ==> HistoryLine(entries[i], str).Ok?
    ensures UsageHistory(usage, str)
         == Ok(Text.Join(HistoryHeader + seq(|entries|, i requires 0 <= i < |entries| => HistoryLine(entries[i], str).value), "\n"))
  {
    var f := HistoryStep(str);
    Traversal.MapAllOk(f, entries);
    var lines := Traversal.MapAll(f, entries).value;
    assert lines == seq(|entries|, i requires 0 <= i < |entries| => HistoryLine(entries[i], str).value);
  }

  /** When some day does not render, the message fails with that day's exception: the
      first such day's. */
  lemma UsageHistoryError(usage: Dict, str: Value -> string, entries: seq<Value>)
    requires DailyUsage(usage).Ok? && DailyEntries(DailyUsage(usage).value) == Ok(entries)
    requires exists i :: 0 <= i < |entries| && HistoryLine(entries[i], str).Err?
    ensures UsageHistory(usage, str).Err?
    ensures exists j :: (0 <= j < |entries| && HistoryLine(entries[j], str).Err? && UsageHistory(usage, str) == Err(HistoryLine(entries[j], str).error)
                         && forall i :: 0 <= i < j ==> HistoryLine(entries[i], str).Ok?)
  {
    var f := HistoryStep(str);
    Traversal.MapAllOk(f, entries);
    assert Traversal.MapAll(f, entries).Err?;
    Traversal.MapAllFirstError(f, entries);
  }

  /** One bar of the usage chart: its height and its label. */
  datatype Bar = Bar(height: Value, tickLabel: string)

  /** The chart data `generate_and_send_image_file` hands to the plotting library. */
  datatype BarChart = BarChart(heights: seq<Value>, labels: seq<string>)

  /** A day entry the chart loop can use: a parseable date and a convertible total. */
  predicate BarFields(e: Dict)
  {
    && "usageDate" in e && ParseDateTime(e["usageDate"]).Ok?
    && "totalVolumeUsageUOM" in e && "totalVolumeUsage" in e
    && UnitNormalizer.ToMegabytes(e["totalVolumeUsageUOM"], e["totalVolumeUsage"]).Ok?
  }

  /** One pass of the loop in `generate_and_send_image_file`: the day's total converted to
      megabytes from kilobytes or gigabytes (any other unit is kept as it is), labelled
      `DD/MM`. */
  function BarOf(e: Value): (r: Result<Bar, Exception>)
    ensures r.Ok? <==> e.PyDict? && BarFields(e.entries)
    ensures r.Ok? ==>
      && r.value.tickLabel == FormatDayMonth(ParseDateTime(e.entries["usageDate"]).value.date)
      && r.value.height == UnitNormalizer.ToMegabytes(e.entries["totalVolumeUsageUOM"], e.entries["totalVolumeUsage"]).value
  {
    var usageDate :- GetItem(e, "usageDate");
    var date :- ParseDateTime(usageDate);
    var unit :- GetItem(e, "totalVolumeUsageUOM");
    var amount :- GetItem(e, "totalVolumeUsage");
    var height :- UnitNormalizer.ToMegabytes(unit, amount);
    Ok(Bar(height, FormatDayMonth(date.date)))
  }

  /** The bar heights and labels of `generate_and_send_image_file`. */
  function BarChartData(usage: Dict): (r: Result<BarChart, Exception>)
    ensures DailyUsage(usage).Err? ==> r == Err(DailyUsage(usage).error)
    ensures r.Ok? ==> |r.value.heights| == |r.value.labels|
  {
    var days :- DailyUsage(usage);
    var entries :- DailyEntries(days);
    var bars :- Traversal.MapAll(BarOf, entries);
    Ok(BarChart(seq(|bars|, i requires 0 <= i < |bars| => bars[i].height),
                seq(|bars|, i requires 0 <= i < |bars| => bars[i].tickLabel)))
  }

  /** The loop of `generate_and_send_image_file`, appending to the two lists as the source
      does. */
  method CollectBars(usage: Dict) returns (r: Result<BarChart, Exception>)
    ensures r == BarChartData(usage)
  {
    var dailyUsage :- DailyUsage(usage);
    var entries :- DailyEntries(dailyUsage);
    var barHeights: seq<Value> := [];
    var barLabels: seq<string> := [];
    ghost var bars: seq<Bar> := [];
    var i := 0;
    assert entries[..i] == [];
    while i < |entries|
      invariant 0 <= i <= |entries|
      invariant Traversal.MapAll(BarOf, entries[..i]) == Ok(bars)
      invariant |barHeights| == |bars| && |barLabels| == |bars|
      invariant forall j :: 0 <= j < |bars| ==> barHeights[j] == bars[j].height && barLabels[j] == bars[j].tickLabel
    {
      Traversal.MapAllStep(BarOf, entries, i, bars);
      if BarOf(entries[i]).Err? {
        Traversal.MapAllPrefixError(BarOf, entries, i + 1);
      }
      var bar :- ReadBar(entries[i]);
      barHeights := barHeights + [bar.height];
      barLabels := barLabels + [bar.tickLabel];
      bars := bars + [bar];
      i := i + 1;
    }
    assert entries[..i] == entries;
    assert barHeights == seq(|bars|, j requires 0 <= j < |bars| => bars[j].height);
    assert barLabels == seq(|bars|, j requires 0 <= j < |bars| => bars[j].tickLabel);
    r := Ok(BarChart(barHeights, barLabels));
  }

  /** The body of the loop of `generate_and_send_image_file`: read one day's label and
      height, converting kilobytes and gigabytes to megabytes. */
  method ReadBar(e: Value) returns (r: Result<Bar, Exception>)
    ensures r == BarOf(e)
  {
    var usageDate :- GetItem(e, "usageDate");
    var date :- ParseDateTime(usageDate);
    var unit :- GetItem(e, "totalVolumeUsageUOM");
    var amount :- GetItem(e, "totalVolumeUsage");
    var height: Value;
    if unit == PyStr("KB") {
      var x :- ToFloat(amount);
      height := PyFloat(UnitNormalizer.KbToMb(x));
    } else if unit == PyStr("GB") {
      var x :- ToFloat(amount);
      height := PyFloat(UnitNormalizer.GbToMb(x));
    } else {
      height := amount;
    }
    r := Ok(Bar(height, FormatDayMonth(date.date)));
  }

  /** When every day converts, the chart has one bar per day, in the vendor's order, each
      labelled with its day and as tall as its total in megabytes. */
  lemma BarChartFacts(usage: Dict, entries: seq<Value>)
    requires DailyUsage(usage).Ok? && DailyEntries(DailyUsage(usage).value) == Ok(entries)
    requires forall i :: 0 <= i < |entries| ==> BarOf(entries[i]).Ok?
    ensures BarChartData(usage).Ok?
    ensures var chart := BarChartData(usage).value;
      && |chart.heights| == |entries| && |chart.labels| == |entries|
      && forall i :: 0 <= i < |entries| ==>
           && chart.labels[i] == BarOf(entries[i]).value.tickLabel
           && chart.heights[i] == BarOf(entries[i]).value.height
  {
    Traversal.MapAllOk(BarOf, entries);
    assert Traversal.MapAll(BarOf, entries).Ok?;
  }

  /** When some day does not convert, the chart fails with the first such day's exception. */
  lemma BarChartError(usage: Dict, entries: seq<Value>)
    requires DailyUsage(usage).Ok? && DailyEntries(DailyUsage(usage).value) == Ok(entries)
    requires exists i :: 0 <= i < |entries| && BarOf(entries[i]).Err?
    ensures BarChartData(usage).Err?
    ensures exists j :: (0 <= j < |entries| && BarOf(entries[j]).Err? && BarChartData(usage) == Err(BarOf(entries[j]).error)
                         && forall i :: 0 <= i < j ==> BarOf(entries[i]).Ok?)
  {
    Traversal.MapAllOk(BarOf, entries);
    assert Traversal.MapAll(BarOf, entries).Err?;
    Traversal.MapAllFirstError(BarOf, entries);
  }

  // ---------------------------------------------------------------------------------------
  // The progress bar

  /** The filled part of a bar of `length` cells, before rounding down. */
  function FilledShare(iteration: real, total: real, length: int): real
    requires total != 0.0
  {
    (length as real * iteration) / total
  }

  /** `int(length * iteration // total)`: the number of filled cells. Python's `//` floors,
      also for negative operands. */
  function FilledLength(iteration: real, total: real, length: int): int
    requires total != 0.0
  {
    FilledShare(iteration, total, length).Floor
  }

  /** `generate_progress_bar`: `prefix |bar| suffix`, where the bar is `fill` repeated for
      the filled share of `length` cells and `-` for the rest; a zero total raises. The
      `decimals` argument is unused by the source and is left out. */
  function ProgressBar(iteration: real, total: real, prefix: string, suffix: string, length: int, fill: string)
    : (r: Result<string, Exception>)
    ensures r.Err? <==> total == 0.0
    ensures r.Err? ==> r.error == ZeroDivisionError
  {
    if total == 0.0 then Err(ZeroDivisionError)
    else
      var filled := FilledLength(iteration, total, length);
      Ok(prefix + " |" + Text.Repeat(fill, filled) + Text.Repeat("-", length - filled) + "| " + suffix)
  }

  /** For progress between none and all of the total, between none and all of the cells
      are filled, and all of them exactly when the progress is complete. */
  lemma FilledLengthBounds(iteration: real, total: real, length: nat)
    requires 0.0 <= iteration <= total && 0.0 < total
    ensures 0 <= FilledLength(iteration, total, length) <= length
    ensures length > 0 ==> (FilledLength(iteration, total, length) == length <==> iteration == total)
  {
    FilledShareBounds(iteration, total, length);
  }

  lemma FloorMonotone(x: real, y: real)
    requires x <= y
    ensures x.Floor <= y.Floor
  {
  }

  lemma ScaleLe(k: real, a: real, b: real)
    requires 0.0 <= k && a <= b
    ensures k * a <= k * b
  {
    assert k * b - k * a == k * (b - a);
  }

  lemma ScaleLt(k: real, a: real, b: real)
    requires 0.0 < k && a < b
    ensures k * a < k * b
  {
    assert k * b - k * a == k * (b - a);
  }

  lemma DivideLe(a: real, b: real, t: real)
    requires a <= b && 0.0 < t
    ensures a / t <= b / t
  {
    assert b / t - a / t == (b - a) / t;
  }

  lemma DivideLt(a: real, b: real, t: real)
    requires a < b && 0.0 < t
    ensures a / t < b / t
  {
    assert b / t - a / t == (b - a) / t;
  }

  /** More progress never fills a smaller share of the bar. */
  lemma FilledShareMonotone(iteration1: real, iteration2: real, total: real, length: nat)
    requires iteration1 <= iteration2 && 0.0 < total
    ensures FilledShare(iteration1, total, length) <= FilledShare(iteration2, total, length)
  {
    ScaleLe(length as real, iteration1, iteration2);
    DivideLe(length as real * iteration1, length as real * iteration2, total);
  }

  /** The share lies between none and all of the cells, and is all of them exactly at completion. */
  lemma FilledShareBounds(iteration: real, total: real, length: nat)
    requires 0.0 <= iteration <= total && 0.0 < total
    ensures 0.0 <= FilledShare(iteration, total, length) <= length as real
    ensures length > 0 ==> (FilledShare(iteration, total, length) == length as real <==> iteration == total)
  {
    FilledShareMonotone(0.0, iteration, total, length);
    FilledShareMonotone(iteration, total, total, length);
    assert FilledShare(0.0, total, length) == 0.0;
    assert FilledShare(total, total, length) == length as real;
    if length > 0 && iteration < total {
      ScaleLt(length as real, iteration, total);
      DivideLt(length as real * iteration, length as real * total, total);
    }
  }

  /** The text of a bar with `filled` of its `length` cells filled with `c`. */
  lemma BarText(prefix: string, suffix: string, length: nat, filled: int, c: char)
    requires 0 <= filled <= length
    ensures var bar := prefix + " |" + Text.Repeat([c], filled) + Text.Repeat("-", length - filled) + "| " + suffix;
      && |bar| == |prefix| + length + 4 + |suffix|
      && bar[..|prefix| + 2] == prefix + " |"
      && (forall j :: |prefix| + 2 <= j < |prefix| + 2 + length ==>
            bar[j] == if j < |prefix| + 2 + filled then c else '-')
      && bar[|prefix| + 2 + length..] == "| " + suffix
  {
    Text.RepeatChar(c, filled);
    Text.RepeatChar('-', length - filled);
    var head := prefix + " |";
    var cells := Text.Repeat([c], filled) + Text.Repeat("-", length - filled);
    var bar := head + cells + ("| " + suffix);
    assert bar == prefix + " |" + Text.Repeat([c], filled) + Text.Repeat("-", length - filled) + "| " + suffix;
    assert forall j :: |head| <= j < |head| + length ==> bar[j] == cells[j - |head|];
    assert bar[|head| + length..] == "| " + suffix;
  }

  /** For progress between none and all of the total, the bar has exactly `length` cells:
      first the filled ones, then dashes; it is full exactly when the progress is complete. */
  lemma ProgressBarShape(iteration: real, total: real, prefix: string, suffix: string, length: nat, c: char)
    requires 0.0 <= iteration <= total && 0.0 < total
    ensures 0 <= FilledLength(iteration, total, length) <= length
    ensures length > 0 ==> (FilledLength(iteration, total, length) == length <==> iteration == total)
    ensures ProgressBar(iteration, total, prefix, suffix, length, [c]).Ok?
    ensures var bar := ProgressBar(iteration, total, prefix, suffix, length, [c]).value;
            var filled := FilledLength(iteration, total, length);
      && |bar| == |prefix| + length + 4 + |suffix|
      && bar[..|prefix| + 2] == prefix + " |"
      && (forall j :: |prefix| + 2 <= j < |prefix| + 2 + length ==>
            bar[j] == if j < |prefix| + 2 + filled then c else '-')
      && bar[|prefix| + 2 + length..] == "| " + suffix
  {
    FilledLengthBounds(iteration, total, length);
    BarText(prefix, suffix, length, FilledLength(iteration, total, length), c);
  }

  /** More progress never fills fewer cells. */
  lemma FilledLengthMonotone(iteration1: real, iteration2: real, total: real, length: nat)
    requires iteration1 <= iteration2 && 0.0 < total
    ensures FilledLength(iteration1, total, length) <= FilledLength(iteration2, total, length)
  {
    FilledShareMonotone(iteration1, iteration2, total, length);
    FloorMonotone(FilledShare(iteration1, total, length), FilledShare(iteration2, total, length));
  }

  /** Lines 205 to 210 of `format_usage_message`: a 20-cell bar of the total usage against
      the total allowance, both normalised, with the usage percentage as its suffix. */
  function ProgressBarEntry(d: Dict, str: Value -> string): (r: Result<Dict, Exception>)
    ensures "N-totalUsage" !in d ==> r == Err(KeyError("N-totalUsage"))
    ensures r.Ok? ==> r.value.Keys == d.Keys + {"C-progressBar"}
    ensures r.Ok? ==> forall k :: k != "C-progressBar" ==> UnitNormalizer.Untouched(d, r.value, k)
  {
    var totalUsage :- Get(d, "N-totalUsage");
    var used :- ToFloat(totalUsage);
    var freeUnits :- Get(d, "N-totalFreeUnits");
    var allowance :- ToFloat(freeUnits);
    var percentage :- Get(d, "usagePercentage");
    var bar :- ProgressBar(used, allowance, "", str(percentage) + "%", 20, "\U{2588}");
    Ok(d["C-progressBar" := PyStr(bar)])
  }

  /** Lines 166 to 210 of `format_usage_message`: everything the message template reads. */
  function UsageMessageRecord(usage: Dict, now: Date, str: Value -> string): (r: Result<Dict, Exception>)
    requires ValidDate(now)
    ensures UsageAnalysis(usage, now).Err? ==> r == Err(UsageAnalysis(usage, now).error)
    ensures r.Ok? ==> usage.Keys + AnalysisKeys + {"C-progressBar"} <= r.value.Keys
  {
    var d :- UsageAnalysis(usage, now);
    ProgressBarEntry(d, str)
  }

  /** `format_usage_message` up to the Markdown template, updating the record in place. */
  method FormatUsageMessage(usage: Dict, now: Date, str: Value -> string) returns (r: Result<Dict, Exception>)
    requires ValidDate(now)
    ensures r == UsageMessageRecord(usage, now, str)
  {
    var analysed := FormatUsageAnalysis(usage, now);
    var usageDict :- analysed;
    var totalUsage :- Get(usageDict, "N-totalUsage");
    var used :- ToFloat(totalUsage);
    var freeUnits :- Get(usageDict, "N-totalFreeUnits");
    var allowance :- ToFloat(freeUnits);
    var percentage :- Get(usageDict, "usagePercentage");
    var bar :- ProgressBar(used, allowance, "", str(percentage) + "%", 20, "\U{2588}");
    usageDict := usageDict["C-progressBar" := PyStr(bar)];
    r := Ok(usageDict);
  }

  /** While the usage is within the allowance, the record's progress bar is 20 cells of
      full blocks and dashes, as many full blocks as the used share of 20, between ` |` and
      `| ` and the percentage. */
  lemma UsageBarCells(d: Dict, str: Value -> string, n: Dict)
    requires ProgressBarEntry(d, str) == Ok(n)
    requires 0.0 <= ToFloat(d["N-totalUsage"]).value <= ToFloat(d["N-totalFreeUnits"]).value
    ensures "C-progressBar" in n && n["C-progressBar"].PyStr?
    ensures var bar := n["C-progressBar"].s;
            var used := ToFloat(d["N-totalUsage"]).value;
            var allowance := ToFloat(d["N-totalFreeUnits"]).value;
            var filled := FilledLength(used, allowance, 20);
      && 0 <= filled <= 20
      && |bar| == 25 + |str(d["usagePercentage"])|
      && bar[..2] == " |"
      && (forall i :: 0 <= i < 20 ==> bar[2..][i] == if i < filled then '\U{2588}' else '-')
      && bar[22..] == "| " + str(d["usagePercentage"]) + "%"
  {
    var used := ToFloat(d["N-totalUsage"]).value;
    var allowance := ToFloat(d["N-totalFreeUnits"]).value;
    var suffix := str(d["usagePercentage"]) + "%";
    ProgressBarEntryWrites(d, str, n);
    assert "\U{2588}" == ['\U{2588}'];
    ProgressBarShape(used, allowance, "", suffix, 20, '\U{2588}');
    var bar := ProgressBar(used, allowance, "", suffix, 20, "\U{2588}").value;
    var filled := FilledLength(used, allowance, 20);
    forall i | 0 <= i < 20
      ensures bar[2..][i] == if i < filled then '\U{2588}' else '-'
    {
      assert bar[2..][i] == bar[2 + i];
    }
  }

  /** A bar entry is written only when both totals and the percentage are present and the
      totals convert; it is the bar of the used total against the allowance. */
  lemma ProgressBarEntryWrites(d: Dict, str: Value -> string, n: Dict)
    requires ProgressBarEntry(d, str) == Ok(n)
    ensures "N-totalUsage" in d && ToFloat(d["N-totalUsage"]).Ok?
    ensures "N-totalFreeUnits" in d && ToFloat(d["N-totalFreeUnits"]).Ok?
    ensures "usagePercentage" in d
    ensures var used := ToFloat(d["N-totalUsage"]).value;
            var allowance := ToFloat(d["N-totalFreeUnits"]).value;
            var bar := ProgressBar(used, allowance, "", str(d["usagePercentage"]) + "%", 20, "\U{2588}");
      && bar.Ok?
      && n == d["C-progressBar" := PyStr(bar.value)]
  {
  }
}
