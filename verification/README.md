# StarHub usage bot — a Dafny model of its core

The bot answers Telegram users with the mobile-data usage of their StarHub lines. This
project models the parts of it that compute something:

- **The usage report** (`src/main.py`). `format_usage_message` first adds today's usage and a
  printable timestamp to the usage record. It then adds megabyte copies (`N-` keys) of every
  quantity reported in KB or GB (`normalize_data_uom`). Last it adds the projection for the
  billing cycle (`C-` keys): weekdays left (`num_weekdays` over a one-month cycle), the
  estimated daily limit, and a 20-cell text progress bar (`generate_progress_bar`).
  `format_usage_history_message` turns the daily entries into one line each.
  `generate_and_send_image_file` turns them into the bar heights and tick labels of a chart.
  Modules: `UsageReport`, `UnitNormalizer`, `BillingCycle` and `Calendar`.
- **The vendor client** (`src/starhub_api.py`). A `StarHubApi` object caches a long-lived
  user token from the MSSO login and exchanges it for a short-lived u-token at the ESSO
  login. It then fetches a line's data usage, retrying when a request is answered
  `401 Unauthorized`. Any other failure status is meant to raise `StarHubApiException`. As
  written, building that exception raises `TypeError` (see Findings); the model raises the
  corrected exception.
  Module: `StarHubClient`.
- **The password helper** (`aes_encryption.py`; `src/utils/aes_encryption.py` holds the same
  class at lines 11–65, its methods one line earlier). `AesCrypt256` pads a string to the 16-byte AES block,
  encrypts it in CBC mode and frames it with its initialization vector unless that vector is
  all zeros. It can also write the result in base 16 (section 8 of RFC 4648).
  Modules: `AesCrypt` and `Utf8`.

Supporting modules:
- `Python` models JSON-decoded values and the Python behaviour the code relies on. That
  covers dict and list indexing, `float()`, `+` and truthiness, with each exception a
  `Result` error.
- `Text` holds string repetition, joining and decimal rendering.
- `Traversal` models a loop over a list that stops at the first exception.
- `Wrappers` defines `Option` and `Result`.

### How the model is built

- **Stateful code becomes methods.** Code that updates state step by step is a method with
  loops and invariants: `NormalizeDataUom` (its loop is `NormalizeEach`) and `FormatUsageHistory`; `CollectBars` and
  `FormatUsageMessage`; the methods of the class `StarHubApi`. Each method is proved equal
  to a specification function. The source's promises are proved about that function as
  lemmas.
- **Environment inputs are parameters.** These are the current date, Python's `str()` of a
  JSON value, the vendor's responses (a script the client consumes in order, logging each
  request it sends), the AES block cipher, and the random initialization vector.

## Model

| member | source | states |
|---|---|---|
| Python.Get | src/main.py:166 | indexing a dict yields the entry, or raises `KeyError` exactly when the key is missing |
| Python.GetItem | src/main.py:166 | indexing a value by key yields the entry of a dict, `KeyError` for a missing key, `TypeError` for a non-dict |
| Python.LastItem | src/main.py:167 | `daily_usage[-1]` is the last entry; an empty list or string raises `IndexError` |
| Python.FirstItem | src/starhub_api.py:145 | `[0]` is the first entry; an empty list or string raises `IndexError` |
| Python.Iterate | src/main.py:238 | a `for` loop visits a list's items in order and a string's characters; numbers, `None` and booleans are not iterable |
| Python.Add | src/starhub_api.py:23 | `+` concatenates two strings and adds two integers; a string plus a non-string raises `TypeError` |
| Python.ToFloat | src/main.py:195-199 | `float()` succeeds exactly on numbers and on decimal strings; it keeps an int's or float's value; `None`, lists and dicts raise `TypeError`, bad strings `ValueError` |
| Python.ParseFloatIntDecimal | src/starhub_api.py:23 | `float()` of the decimal rendering of an integer is that integer |
| Text.Repeat | src/main.py:349 | `s * n` is `n` times as long as `s`, and empty for `n ≤ 0` |
| Text.RepeatChar | src/main.py:349 | `c * n` is `n` copies of `c` |
| Calendar.DaysInMonth | src/main.py:178 | a month has 28 to 31 days, and February has 29 exactly in leap years |
| Calendar.Ordinal | src/main.py:302-303 | the proleptic Gregorian day number, at least 1, and 1 for 1 January of year 1 |
| Calendar.NextDay | src/main.py:302-303 | the day a daily recurrence visits next is a valid date, in the same year or on 1 January of the next |
| Calendar.OrdinalNext | src/main.py:302-303 | the next day's ordinal is one more, across month and year ends, so ordinals count the days the recurrence visits |
| Calendar.Weekday | src/main.py:194 | `weekday()` is 0 (Monday) to 6 (Sunday) |
| Calendar.WeekdayNext | src/main.py:300-301 | the next day's weekday is the following one, Sunday being followed by Monday |
| Calendar.ShiftOneMonth | src/main.py:178 | `shift(months=1)` moves to the next month, rolling the year after December; it keeps the day or clamps it to the month's last day; year 9999 December overflows |
| Calendar.CycleLength | src/main.py:178 | a billing cycle lasts 28 to 31 days |
| Calendar.DayAbbreviation | src/main.py:241 | the `ddd` token is three letters, `Mon` on a Monday, and `Sat` or `Sun` exactly on a weekend day |
| Calendar.FormatDate | src/main.py:170-171 | `DD/MM/YYYY` is ten characters with `/` at positions 2 and 5 |
| Calendar.FormatDateReadsBack | src/main.py:170-171 | its digit groups read back as the day, the month and the year |
| Calendar.FormatDayDate | src/main.py:241 | `ddd DD/MM/YYYY` is the day's abbreviation, a space and `DD/MM/YYYY`, 14 characters |
| Calendar.FormatDayMonth | src/main.py:258 | `DD/MM` is five characters, the first five of `DD/MM/YYYY` |
| Calendar.FormatClock | src/main.py:170-171 | `HH:mm:ss` is eight characters with `:` at positions 2 and 5 |
| Calendar.FormatClockReadsBack | src/main.py:170-171 | its digit groups read back as the hour, the minute and the second |
| Calendar.FormatTimestamp | src/main.py:170-171 | `DD/MM/YYYY HH:mm:ss A` is the date, a space, the 24-hour time, a space, and `AM` before noon and `PM` from noon |
| Text.ZeroPad | src/main.py:170-171 | a zero-padded number has at least the width, only digits, and reads back as the number |
| UnitNormalizer.GbToMb | src/main.py:354-355 | megabytes are 1024 times gigabytes |
| UnitNormalizer.KbToMb | src/main.py:358-359 | megabytes are kilobytes divided by 1024 |
| UnitNormalizer.MbToGb | src/main.py:362-363 | gigabytes are megabytes divided by 1024 |
| UnitNormalizer.ConversionsAreLinear | src/main.py:354-359 | both conversions are linear |
| UnitNormalizer.GigabyteRoundTrip | src/main.py:354-363 | `mb_to_gb` and `gb_to_mb` are mutual inverses |
| UnitNormalizer.ToMegabytes | src/main.py:321-329 | a KB or GB amount becomes a float in MB, succeeding exactly when `float()` of the amount does; any other unit keeps the amount unchanged |
| UnitNormalizer.FieldsWellFormed | src/main.py:308-317 | the eight quantities and their unit keys are distinct and none is an `N-` key |
| UnitNormalizer.NormalizedKeyIs | src/main.py:324 | the normalized key is `N-` followed by the quantity's key |
| UnitNormalizer.DistinctNormalizedKeys | src/main.py:320-329 | different quantities are written under different `N-` keys |
| UnitNormalizer.NormalizeStep | src/main.py:321-329 | one quantity raises exactly when its unit key is missing, or its unit is set and its amount is missing or not convertible; otherwise it writes its `N-` entry per its unit and changes no other key |
| UnitNormalizer.NormalizeFields | src/main.py:320-329 | the loop as a fold over the quantities, stopping at the first exception; a successful fold keeps every original key |
| UnitNormalizer.NormalizeDataUom | src/main.py:307-331 | the loop over the quantities computes the fold that normalizes them one by one, stopping at the first exception |
| UnitNormalizer.NormalizeEach | src/main.py:320-329 | the same loop over any list of quantities computes the same fold |
| UnitNormalizer.NormalizeEntry | src/main.py:321-329 | one pass of the loop body, updating the record, is one step of the fold, with its `KeyError` for a missing unit or amount and the `float()` errors |
| UnitNormalizer.ErrorPersists | src/main.py:320-329 | once a quantity raises, the rest of the loop is not run |
| UnitNormalizer.NormalizeFieldsSpec | src/main.py:320-329 | after a successful loop every original key survives; every key that is not a normalized one is unchanged; every quantity is normalized per its unit |
| UnitNormalizer.NormalizeWritesOnlyNormalizedKeys | src/main.py:307-331 | normalization only adds or overwrites the eight `N-` keys |
| UnitNormalizer.NormalizeSetsField | src/main.py:321-329 | each quantity's `N-` entry is its value in MB for KB and GB; it is a copy for another unit; nothing is written for a `None` unit |
| UnitNormalizer.NormalizeRaisesIff | src/main.py:320-329 | normalization raises exactly when some quantity's step raises: a missing key, or a KB/GB amount `float()` rejects |
| UnitNormalizer.RaisesIff | src/main.py:320-329 | the same for any well-formed list of quantities |
| UnitNormalizer.NormalizeIdempotent | src/main.py:307-331 | normalizing a normalized record changes nothing |
| UnitNormalizer.RenormalizePrefix | src/main.py:320-329 | for any well-formed list of quantities, re-running any prefix of the loop on a normalized record changes nothing |
| BillingCycle.NumWeekdays | src/main.py:299-304 | the count of Monday-to-Friday days in an inclusive range is at most its length, and 0 when it is empty |
| BillingCycle.NumWeekdaysCounts | src/main.py:299-304 | the count is the size of the set of weekdays in the range |
| BillingCycle.NumWeekdaysSplit | src/main.py:299-304 | counts over adjacent ranges add up |
| BillingCycle.NumWeekdaysWeek | src/main.py:299-304 | any seven consecutive days hold five weekdays |
| BillingCycle.NumWeekdaysWeeks | src/main.py:299-304 | any `w` whole weeks hold `5w` weekdays |
| BillingCycle.NumWeekdaysMonotone | src/main.py:299-304 | extending the range never lowers the count |
| BillingCycle.MonthWeekdays | src/main.py:299-304 | 28 to 31 consecutive days hold 20 to 23 weekdays |
| BillingCycle.TotalWeekdays | src/main.py:177-183 | a cycle has 20 to 23 weekdays; only a cycle starting in December 9999 raises |
| BillingCycle.ElapsedWeekdays | src/main.py:185-187 | the weekdays elapsed before today are between 0 and the days since the cycle began |
| BillingCycle.TotalWeekdaysCounts | src/main.py:177-183 | the cycle's weekday count is the number of Monday-to-Friday days from its first day to the day before the same day next month |
| BillingCycle.ElapsedWeekdaysCounts | src/main.py:185-187 | the elapsed weekday count is the number of Monday-to-Friday days from the cycle's first day to yesterday |
| BillingCycle.WeekdaysLeftBounds | src/main.py:182-189 | on those day numbers, the weekdays left never exceed the cycle's total, and are not negative while today is within the cycle |
| BillingCycle.Divisor | src/main.py:196-199 | the divisor is the weekdays left when positive and 1 otherwise |
| BillingCycle.DailyBudget | src/main.py:194-199 | the daily limit times the divisor is the data left, plus today's usage on a weekday |
| BillingCycle.WeekendIgnoresToday | src/main.py:194-196 | on a weekend today's usage does not affect the limit |
| BillingCycle.MarchExample | src/main.py:182-189 | a cycle starting Sunday 1 March 2020 has 22 weekdays, of which 12 have elapsed by Wednesday 18 March |
| UsageReport.ParseDateTime | src/main.py:287-295 | a parsed timestamp is a valid date and time with a four-digit year; a non-object raises `TypeError` |
| UsageReport.DailyUsage | src/main.py:166 | the daily entries are `usage_dict['dailyUsage']['day']`; a missing `dailyUsage` raises `KeyError` and a non-dict one `TypeError` |
| UsageReport.TodayUsage | src/main.py:166-167 | today's usage is the last daily entry's `usage`; no entries raises `IndexError`; an error reading the entries passes through |
| UsageReport.RecordToday | src/main.py:166-171 | recording today adds exactly `C-todayUsage` and `C-lastProcessedDateTime` and leaves every other entry as it was, the first holding today's usage and the second the `DD/MM/YYYY HH:mm:ss A` text of `lastProcessedDateTime`; errors reading today's usage or parsing that timestamp pass through, and a missing `lastProcessedDateTime` raises `KeyError` |
| UsageReport.WeekdaysLeft | src/main.py:177-189 | a missing `fromDateTime` raises `KeyError`; the weekdays left are at most 23 |
| UsageReport.DailyLimitOn | src/main.py:194-199 | the limit exists exactly when `N-usageDifference` is present and convertible and, on a weekday, so is `C-todayUsage`; a missing `N-usageDifference` raises `KeyError` |
| UsageReport.EstimatedDailyLimit | src/main.py:194-199 | a missing `N-usageDifference` raises `KeyError`; on a weekend day only that figure matters |
| UsageReport.Projection | src/main.py:177-203 | the projection adds exactly `C-avgData`, `C-avgDataUOM` and `C-weekdayLeft`; an error counting the weekdays left passes through |
| UsageReport.UsageAnalysis | src/main.py:165-203 | an error recording today passes through; a successful analysis keeps every key of the record and holds all five analysis keys |
| UsageReport.RecordTodayFacts | src/main.py:165-171 | the record gains today's usage and the formatted text of its parsed `lastProcessedDateTime`, and nothing else changes |
| UsageReport.WeekdaysLeftSameStart | src/main.py:177-189 | weekdays left depend on the record's `fromDateTime` entry alone |
| UsageReport.EstimatedDailyLimitMeaning | src/main.py:191-199 | the limit times the weekdays left (at least 1) is the data left plus, unless today is Saturday or Sunday, today's usage; both figures must be present and convertible |
| UsageReport.DailyLimitSharedOut | src/main.py:191-199 | the same share-out, for a given answer to whether today is a weekend day |
| UsageReport.ProjectionKeepsOtherKeys | src/main.py:201-203 | the projection changes no key but those three |
| UsageReport.ProjectedWeekdays | src/main.py:177-189 | the weekdays a projection writes are those of any record with the same `fromDateTime` |
| UsageReport.UsageAnalysisWeekdays | src/main.py:165-192 | after the whole analysis the weekdays left are the cycle's weekdays minus the elapsed ones, counted from the record's own `fromDateTime` |
| UsageReport.UsageAnalysisFacts | src/main.py:165-203 | after the whole analysis the unit is `MB` and the limit is the estimate over the normalized record |
| UsageReport.UsageAnalysisToday | src/main.py:166-167 | after the whole analysis `C-todayUsage` still holds the last day's raw usage |
| UsageReport.TodayKeptAfterRecord | src/main.py:173-203 | normalizing and projecting keep the recorded `C-todayUsage` as it was |
| UsageReport.RecordTodayKeepsKey | src/main.py:166-171 | recording today's figures leaves every other key as it was |
| UsageReport.NormalizeKeepsKey | src/main.py:174 | normalization leaves any key without the `N-` prefix as it was |
| UsageReport.UsageAnalysisKeepsOtherKeys | src/main.py:165-203 | every key that is neither an analysis key nor an `N-` key keeps its entry |
| UsageReport.KeptThroughStages | src/main.py:165-203 | a key each of the three stages leaves alone keeps its entry through all three |
| UsageReport.FormatUsageAnalysis | src/main.py:165-203 | the step-by-step updates of the record compute the analysis |
| UsageReport.AddProjection | src/main.py:177-203 | the projection block computes the projection |
| UsageReport.CycleWeekdaysLeft | src/main.py:177-189 | the statements reading the cycle's start and counting its weekdays compute the weekdays left, with the same errors |
| UsageReport.AverageDataMb | src/main.py:194-199 | the average computed by the two branches is the estimated daily limit, with the same errors for a missing or unconvertible figure |
| UsageReport.DailyEntries | src/main.py:234-238 | a list of entries is iterated as is; an empty dict gives no entries; a non-empty dict or a scalar raises `TypeError` |
| UsageReport.HistoryLine | src/main.py:239-241 | a history line exists exactly when the entry's date parses and it has a usage; a bad date raises the parser's exception |
| UsageReport.UsageHistory | src/main.py:233-242 | errors reading the daily entries pass through, and entries that cannot be iterated raise `TypeError` |
| UsageReport.FormatUsageHistory | src/main.py:233-242 | the loop appending one line per entry computes the history text |
| UsageReport.UsageHistoryText | src/main.py:236-242 | the history is the header and one line per entry, in order, joined by newlines |
| UsageReport.UsageHistoryError | src/main.py:238-241 | the history raises the exception of the first entry that fails, all earlier entries having succeeded |
| UsageReport.BarOf | src/main.py:250-259 | an entry gives a bar exactly when it is a dict with a parsable date, a unit and an amount `float()` accepts; the bar's height is the amount in MB and its label is the date as `DD/MM` |
| UsageReport.BarChartData | src/main.py:246-259 | errors reading the daily entries pass through, and the chart has as many labels as heights |
| UsageReport.CollectBars | src/main.py:246-259 | the loop appending heights and labels computes the chart data |
| UsageReport.ReadBar | src/main.py:250-259 | one pass of the loop body reads the bar its entry gives, or raises as that entry does |
| UsageReport.BarChartFacts | src/main.py:247-259 | the chart has one height and one label per entry, in order |
| UsageReport.BarChartError | src/main.py:249-259 | the chart raises the exception of the first entry that fails |
| UsageReport.ProgressBar | src/main.py:335-350 | the bar raises `ZeroDivisionError` exactly when the total is zero |
| UsageReport.FilledLengthBounds | src/main.py:348 | for usage within the total, 0 to `length` cells are filled, and all of them exactly when usage equals the total |
| UsageReport.BarText | src/main.py:349-350 | the text is the prefix, a space and a bar, the filled cells, dashes up to `length` cells, a bar and a space, then the suffix |
| UsageReport.ProgressBarShape | src/main.py:348-350 | the progress bar has that shape, with the filled length in bounds |
| UsageReport.FilledLengthMonotone | src/main.py:348 | more usage never fills fewer cells |
| UsageReport.FilledShareMonotone | src/main.py:348 | more usage never gives a smaller unrounded share of the bar |
| UsageReport.FilledShareBounds | src/main.py:348 | the unrounded share of the bar lies between none and all of the cells, and is all of them exactly when usage equals the total |
| UsageReport.ProgressBarEntry | src/main.py:205-210 | a missing `N-totalUsage` raises `KeyError`; the bar step adds exactly `C-progressBar` and changes no other key |
| UsageReport.UsageMessageRecord | src/main.py:165-210 | an error in the analysis passes through; a complete record keeps every original key and holds the five analysis keys and `C-progressBar` |
| UsageReport.FormatUsageMessage | src/main.py:165-210 | the step-by-step record updates compute the analysis plus the progress bar |
| UsageReport.UsageBarCells | src/main.py:205-210 | the message's bar has 20 cells: the first `⌊20·used/allowance⌋` are full blocks and the rest dashes, followed by the usage percentage and `%` |
| Traversal.MapAllOk | src/main.py:238-241 | a loop over entries succeeds exactly when every entry does, yielding one result per entry in order |
| Traversal.MapAllFirstError | src/main.py:249-259 | a failing loop raises the first failing entry's exception |
| StarHubClient.ExceptionMessageAsWrittenRaises | src/starhub_api.py:23 | building the message as written raises `TypeError` for every message and status code |
| StarHubClient.ExceptionMessage | src/starhub_api.py:23 | the corrected message is the user message, `HTTP Code: `, then the code's digits |
| StarHubClient.ExceptionMessageCode | src/starhub_api.py:23 | the status code can be read back from the message's tail |
| StarHubClient.ApiException | src/starhub_api.py:19-24 | the exception keeps the status code, API name and response body, and its message starts with the user message |
| StarHubClient.Exchange | src/starhub_api.py:66-69 | a request is logged and answered by the next scripted response; with none left it raises `RequestException`; tokens are untouched |
| StarHubClient.Lift | src/starhub_api.py:72-74 | a Python exception raised while reading a response propagates unchanged |
| StarHubClient.LoginToken | src/starhub_api.py:72-74 | the user token is the body's `user_token`, or `None` when absent |
| StarHubClient.EssoToken | src/starhub_api.py:110-111 | the u-token is `['userDetails']['utoken']` of the body; a non-JSON body raises `ValueError`, a non-dict one `TypeError` |
| StarHubClient.UsageDetail | src/starhub_api.py:144-145 | the usage detail is read by nested look-ups; a non-JSON body raises `ValueError`, a non-dict one `TypeError`, and a missing `mainContext` `KeyError` |
| StarHubClient.UserToken | src/starhub_api.py:43-76 | a truthy cached token is returned without a request; otherwise one login is sent; a 200 stores and returns the token; another status raises the corrected exception for `MSSO/MAPP/LOGIN`; the u-token is untouched |
| StarHubClient.UserTokenConsumes | src/starhub_api.py:43-76 | the login only consumes responses and appends requests |
| StarHubClient.ConsumesTransitive | src/starhub_api.py:117 | consecutive calls compose |
| StarHubClient.UToken | src/starhub_api.py:78-119 | the ESSO exchange never consumes more responses than are scripted |
| StarHubClient.UTokenConsumes | src/starhub_api.py:78-119 | the exchange sends its ESSO request first and only consumes responses |
| StarHubClient.UTokenConsumesAnswered | src/starhub_api.py:109-119 | the same when the first answer is not a 401 |
| StarHubClient.UTokenConsumesRetry | src/starhub_api.py:113-117 | the same after a 401 |
| StarHubClient.UTokenTokens | src/starhub_api.py:109-117 | a successful exchange stores the u-token it returns; a failing one leaves it; a cached user token is kept |
| StarHubClient.Leading401s | src/starhub_api.py:113-117 | the number of leading `401` responses is the number of retries before a final answer |
| StarHubClient.UTokenAfter401Cached | src/starhub_api.py:113-117 | after a 401 with a truthy cached user token, the exchange starts over with that token and no login |
| StarHubClient.UTokenRetriesTrace | src/starhub_api.py:105-117 | with a cached user token, the exchange sends one ESSO request per leading 401 plus one, and consumes those answers and one more |
| StarHubClient.UTokenRetriesResult | src/starhub_api.py:109-119 | with a cached user token, the first answer that is not a 401 decides the result |
| StarHubClient.RetryTraceStep | src/starhub_api.py:113-117 | each further leading 401 adds one repeated request and consumes one more answer |
| StarHubClient.UTokenRetries | src/starhub_api.py:78-119 | with a cached user token, the exchange sends one ESSO request per leading 401 plus one; the first other response decides: 200 gives its u-token, another status raises the corrected exception for `FAPI/LOGIN/ESSO`, none raises `RequestException` |
| StarHubClient.PhoneDataUsage | src/starhub_api.py:121-156 | a 200 returns the first usage detail and changes no token; another non-401 status raises the corrected exception for `FAPI/USAGE/DATA`; no response raises `RequestException` |
| StarHubClient.PhoneDataUsageConsumes | src/starhub_api.py:121-156 | the usage request is sent first and responses are only consumed |
| StarHubClient.PhoneDataUsageConsumesAnswered | src/starhub_api.py:143-156 | the same when the first answer is not a 401 |
| StarHubClient.PhoneDataUsageConsumesRetry | src/starhub_api.py:147-153 | the same after a 401 |
| StarHubClient.PhoneDataUsageConsumesAfterTokens | src/starhub_api.py:152-153 | the same once both tokens have been fetched again |
| StarHubClient.PhoneDataUsageTokens | src/starhub_api.py:143-153 | a direct 200 sends one request and keeps the u-token; success after a 401 ends with a request under the u-token then stored |
| StarHubClient.PhoneDataUsageLastRequest | src/starhub_api.py:143-153 | when the u-token passed is the one stored, a successful call's last request carries the u-token stored at the end |
| StarHubClient.StarHubApi.constructor | src/starhub_api.py:36-41 | a new client holds the credentials and no tokens, and has sent nothing |
| StarHubClient.StarHubApi.Send | src/starhub_api.py:66-69 | sending updates the object as `Exchange` says |
| StarHubClient.StarHubApi.GetUserToken | src/starhub_api.py:43-76 | the method's result and new state are those of `UserToken` |
| StarHubClient.StarHubApi.GetUToken | src/starhub_api.py:78-119 | the method's result and new state are those of `UToken` |
| StarHubClient.StarHubApi.GetPhoneDataUsage | src/starhub_api.py:121-156 | the method's result and new state are those of `PhoneDataUsage` |
| StarHubClient.RevokedSessionTokens | src/starhub_api.py:43-112 | from a fresh client, login and ESSO give user token `T` and u-token `U1` |
| StarHubClient.LoginBody | src/starhub_api.py:72-74 | the login body of the session reads back its user token through `get('user_token')` |
| StarHubClient.EssoBody | src/starhub_api.py:110-111 | the ESSO body of the session reads back its u-token |
| StarHubClient.RevokedSessionReissue | src/starhub_api.py:78-117 | after the refused request the cached user token `T` is exchanged for `U2` without a new login |
| StarHubClient.RevokedSessionRepeat | src/starhub_api.py:143-145 | the repeated request with `U2` returns the usage detail |
| StarHubClient.UsageBodyDetail | src/starhub_api.py:145 | the nested look-up reads back the detail a usage body was built around |
| StarHubClient.RevokedSessionUsage | src/starhub_api.py:121-153 | when `U1` has been revoked (401), the client gets `U2` and succeeds |
| StarHubClient.RevokedUTokenSession | src/starhub_api.py:121-153 | that session, run on the object, returns the usage detail after exactly five requests |
| Utf8.EncodeChar | aes_encryption.py:31 | a character takes one to four bytes, and one byte, its code, exactly when it is ASCII |
| Utf8.Encode | aes_encryption.py:31 | the encoding is at least as long as the string |
| Utf8.EncodeAscii | aes_encryption.py:31 | an ASCII string encodes to its character codes |
| Utf8.DecodeFirstEncodeChar | aes_encryption.py:27 | the decoder reads back each encoded character |
| Utf8.DecodeEncode | aes_encryption.py:27 | decoding the UTF-8 encoding of any string gives the string |
| AesCrypt.PadLength | aes_encryption.py:23 | 1 to 16 pad units bring the length to a multiple of 16 |
| AesCrypt.PadText | aes_encryption.py:22-23 | `pkcs5_pad` keeps the text and appends `n` characters of code `n`, reaching a multiple of 16 |
| AesCrypt.Latin1 | aes_encryption.py:27 | each byte becomes the character with that code |
| AesCrypt.UnpadText | aes_encryption.py:25-27 | `pkcs5_unpad` drops as many bytes as the last byte says, giving the empty string when that is 0 or at least the length; empty input raises `IndexError` |
| AesCrypt.UnpadTextPadText | aes_encryption.py:22-27 | unpadding the encoded padding of an ASCII string gives the string |
| AesCrypt.EncryptFramedAsWritten | aes_encryption.py:29-38 | as written, `_encrypt` fails on a bad key or vector, and on text whose encoding is not block-aligned |
| AesCrypt.AsWrittenRoundTripAscii | aes_encryption.py:22-60 | as written, an ASCII value is accepted by `_encrypt`, and `_decrypt` of its ciphertext, framed as `decrypt` splits it, gives the value back |
| AesCrypt.DecryptFramedAsWritten | aes_encryption.py:40-43 | as written, `_decrypt` fails on a bad key, vector or length, and otherwise unpads the decryption |
| AesCrypt.NonAsciiValueRaises | aes_encryption.py:29-31 | as written, encrypting `é` raises `ValueError` under every key and vector |
| AesCrypt.PadBytes | aes_encryption.py:22-23 | the corrected padding appends `n` bytes of value `n` to the encoded text, reaching a multiple of 16 |
| AesCrypt.UnpadBytes | aes_encryption.py:25-27 | the corrected unpadding follows the source's rule on bytes |
| AesCrypt.UnpadBytesPadBytes | aes_encryption.py:22-27 | the corrected unpadding undoes the corrected padding for all bytes |
| AesCrypt.PadBytesAgreesOnAscii | aes_encryption.py:22-31 | on ASCII text the corrected padding yields the same bytes as the source |
| AesCrypt.EncryptFramed | aes_encryption.py:29-38 | the corrected `_encrypt` fails exactly on a bad key or vector length; it returns the ciphertext, preceded by the vector unless that is all zeros |
| AesCrypt.DecryptFramed | aes_encryption.py:40-43 | `_decrypt` fails on a bad key, vector or length; an empty decryption raises `IndexError` |
| AesCrypt.EncryptFramedAgreesOnAscii | aes_encryption.py:29-38 | on ASCII text the corrected `_encrypt` equals the source's |
| AesCrypt.Hexlify | aes_encryption.py:62-63 | `hexlify` writes two lower-case hexadecimal digits per byte |
| AesCrypt.Unhexlify | aes_encryption.py:65-66 | `unhexlify` reads half as many bytes as digits; an odd length or a non-digit raises `ValueError` |
| AesCrypt.UnhexlifyHexlify | aes_encryption.py:62-66 | `unhexlify` undoes `hexlify` |
| AesCrypt.AesCrypt256.Encrypt | aes_encryption.py:45-50 | `encrypt` frames under the zero vector in default mode and under the drawn vector otherwise |
| AesCrypt.AesCrypt256.Decrypt | aes_encryption.py:52-60 | `decrypt` uses the zero vector in default mode; otherwise it takes the first 16 bytes as the vector, and shorter input raises `ValueError` |
| AesCrypt.AesCrypt256.EncryptHex | aes_encryption.py:62-63 | `encryptHex` succeeds exactly when `encrypt` does, and its text reads back as the ciphertext |
| AesCrypt.AesCrypt256.DecryptHex | aes_encryption.py:65-66 | `decryptHex` raises on malformed hexadecimal and otherwise decrypts the bytes read |
| AesCrypt.DecryptFramedEncrypted | aes_encryption.py:29-43 | with an invertible cipher, `_decrypt` undoes `_encrypt` under the same key and vector |
| AesCrypt.RoundTripDefaultIv | aes_encryption.py:45-60 | in default-vector mode, `decrypt` undoes `encrypt` |
| AesCrypt.RoundTripRandomIv | aes_encryption.py:45-60 | in random-vector mode, `decrypt` undoes `encrypt` whenever the drawn vector is not all zeros |
| AesCrypt.HexRoundTrip | aes_encryption.py:62-66 | the base-16 layer adds nothing: `decryptHex ∘ encryptHex` equals `decrypt ∘ encrypt` |
| AesCrypt.HexRoundTripValue | aes_encryption.py:45-66 | `decryptHex` undoes `encryptHex` in the same cases |
| AesCrypt.ZeroDrawnIvBreaksRoundTrip | aes_encryption.py:33-38 | in random mode a drawn all-zero vector is not framed, and the round trip fails |

`src/utils/aes_encryption.py` holds the same `AesCrypt256` at lines 11–65, its methods one line
earlier than in `aes_encryption.py`.
Every `aes_encryption.py` row applies to it too.

## Left out

- The Telegram side of `src/main.py` is not modelled: handlers, keyboards, configuration and
  logging. Nor is the Markdown template of `format_usage_message` (lines 212–230).
- The chart drawing and sending of `generate_and_send_image_file` (lines 261–270) is not
  modelled. That includes the title's look-up of `usageServiceId`.
- The clock and time zones are left out. The current date in Singapore is the parameter
  `now`.
- Python's `str()` of a JSON value is the parameter `str`.
- The `decimals` parameter of `generate_progress_bar` is not modelled; the code never uses it.
- Python.ToFloat: only accepts an optional sign, digits and one optional decimal point. It
  does not model exponents, surrounding whitespace, `inf`/`nan` or digit underscores.
- Floating point is modelled as exact real arithmetic, so conversions, the daily limit and
  `int(length * iteration // total)` ignore rounding.
- UsageReport.ParseDateTime: takes integer fields only and does not model arrow's parsing
  of other value types. Arrow's `D/M/YYYY h:m:s` pattern fixes only how many digits each
  field has. A field out of range (day 32, hour 24) then makes `datetime` raise a plain
  `ValueError`; the model reports every refused value as arrow's `ParserError`.
- The network is left out. A request is answered by the next response of a script given to
  the constructor. Running out of responses stands for a timeout or a refused connection.
  Headers, URLs, fixed body fields and log messages are not modelled.
- StarHubClient.UserToken, StarHubClient.UToken, StarHubClient.PhoneDataUsage: these raise
  the corrected exception (`ApiException`) for a failure status. In the source each such
  status raises `TypeError` instead, while the exception is being built (see Findings).
- StarHubClient.UToken: a run of 401 answers retries without bound in the source, until
  Python's recursion limit. The model retries as long as the script has responses, and
  Python's recursion limit is not modelled. Its own contract states only that bound; the
  retry behaviour is stated by `UTokenRetries`, `UTokenConsumes` and `UTokenTokens`.
- StarHubClient.PhoneDataUsage: the same bound applies. Its 401 branch is stated by
  `PhoneDataUsageConsumes`, `PhoneDataUsageTokens` and `RevokedSessionUsage`.
- AES itself, `Random.get_random_bytes` and the PBKDF2 demonstration at the end of
  `src/utils/aes_encryption.py` (lines 68–78) are left out. The cipher is any pair of
  functions; the round trips rely only on the fact that decryption undoes encryption. The drawn
  vector is a parameter.
- AesCrypt.AesCrypt256.Encrypt: models the corrected padding, which pads the encoded bytes
  (see Findings). The code as written is `EncryptFramedAsWritten`; the two agree on ASCII
  values.
- AesCrypt.AesCrypt256.Decrypt: decodes the unpadded bytes as UTF-8, while the source reads
  them as Latin-1 (`DecryptFramedAsWritten`). On an ASCII value the source's own round
  trip succeeds (`AsWrittenRoundTripAscii`), as does the corrected one.
- AesCrypt.AesCrypt256.EncryptHex: returns the hexadecimal digits as text. In Python 3
  `binascii.hexlify` returns `bytes`, so `encryptHex` yields the ASCII bytes of those
  digits (`b'…'`), not a `str`.
- Weekdays left are not floored at zero; only the divisor is (src/main.py:189,196). See
  `UsageAnalysisWeekdays` and `Divisor`.
- The root-level `starhub_api.py`, `starhub_bot.py` and the reverse-engineering scripts are
  not part of this model.

## Findings

| source | as written | input that shows it | evidently intended | confidence | as-written member | corrected member |
|---|---|---|---|---|---|---|
| src/starhub_api.py:23 | the exception's message joins the user message, a string, to the integer status code with `+`, which raises `TypeError`, so no `StarHubApiException` is ever raised | any response status other than 200 or 401, e.g. 500 from the MSSO login | the message ends with the status code written in decimal | high; not executed | StarHubClient.ExceptionMessageAsWrittenRaises | StarHubClient.ExceptionMessageCode |
| aes_encryption.py:22-31 | `pkcs5_pad` counts characters, but the cipher is given the UTF-8 bytes, so a non-ASCII value reaches AES misaligned (and an aligned one decrypts as Latin-1) | `encrypt(key, "é")`: 1 character padded with 15 gives 17 bytes, and AES raises `ValueError` | pad and unpad the encoded bytes, then decode them as UTF-8 | high; not executed | AesCrypt.NonAsciiValueRaises | AesCrypt.RoundTripDefaultIv |
