# Morning Routine & Productivity Tracker — a verified model of its rules

The tracker records two entries a day: a morning routine (wake time, sleep, exercise, meditation, breakfast,
mood, screen time, caffeine, water) and a productivity entry (score, tasks, focus hours, distractions,
energy, stress, notes). It is a Next.js frontend over a FastAPI backend that stores the entries in Supabase.
This project models, in Dafny, the deterministic rules of that system and proves what they guarantee.

Frontend:

- **Dashboard** (`Dashboard`): the 12-hour time formatter, the merged productivity chart, the routine
  chart, the four-bucket sleep histogram with rounded percentages, the five most recent entries, and the
  banner flags.
- **Data hooks** (`UseApi`): each `{data, loading, error}` slot is a class with three transitions, and
  `fetch` sequences them. The cached goal list is updated by append, replace-by-id and remove-by-id.
- **API client** (`ApiClient`): error messages, request headers, how a response is classified, the query
  string builder, and the URLs and query keys.
- **Pages**: the CSV preview parser and import page (`ImportPage`), the entry form (`EntryPage`), the
  settings forms (`SettingsPage`), the sign-up checks (`SignupPage`), and the JavaScript idioms they
  share (`Forms`).

Backend:

- **Database** (`Store`): the Supabase tables are held in memory as sequences of rows. A query collects
  `eq`, `neq`, `gte` and `lte` filters, `order` and `range`.
- **Record services** (`EntryService`): the routine and productivity services are the same code over two
  tables, so one class models both. It covers pagination, get, create, update and delete.
- **User service** (`UserService`): the profile and settings rows, and the rule that a user has at most one
  active goal per type.
- **Analytics** (`Analytics`): the summary (averages, best and worst day, trend) and the chart-data merge.
- **Import endpoint** (`CsvImport`): the CSV import loop, with routing by column set, counting, and a stop
  after eleven failures.
- **Model validation** (`Validation`): the Pydantic request models' constraints, defaults and `exclude_unset`
  dumps.
- **Data generator** (`Dataset`): the synthetic dataset generator. The random draws are inputs.

`Common` holds the shared sequence, string and number machinery: a stable sort, a sorted set union, split /
join / trim, and decimal printing and parsing. `Records` holds the typed records.

Where the code and its documentation disagree, the model follows the code:

- `backend/scripts/download_dataset.py:25` describes the wake-time variance as "0-90 minutes". The sleep quality it is
  computed from can be as low as -0.25, so the variance reaches 112 minutes. `WakeVarianceRange` states the
  range the code actually produces.
- A failed response's message falls back to `API request failed (<status>)`, as `frontend/src/lib/api.ts:90`
  builds it. The client's tests expect the bare text `API request failed`, without the status.
- The dashboard shows demo data when there are no records, and it has no initial-load skeleton gate. Its
  error banner is shown even while loading.

## Model

| member | source | states |
|---|---|---|
| Analytics.Keep | backend/app/services/analytics_service.py:28-35 | a filtered query never returns more rows than the table holds |
| Analytics.KeepMembers | backend/app/services/analytics_service.py:28-46 | a row is returned iff it is in the table and passes the `user_id` / date-window filter |
| Analytics.UserRowsSpec | backend/app/services/analytics_service.py:27-49 | the summary reads exactly the user's routines and entries dated in the window; the entries are in ascending date order and each occurs as often as in the table |
| Analytics.UserRoutines | backend/app/services/analytics_service.py:27-35 | the user's routines in the window; stated by `UserRowsSpec` |
| Analytics.UserProductivity | backend/app/services/analytics_service.py:37-46 | the user's entries in the window, by date; stated by `UserRowsSpec` |
| Analytics.BestIndex | backend/app/services/analytics_service.py:72 | `max(..., key=score)` picks an entry whose score no entry exceeds, and no earlier entry has that score |
| Analytics.WorstIndex | backend/app/services/analytics_service.py:73 | `min(..., key=score)` picks an entry whose score no entry undercuts, and no earlier entry has that score |
| Analytics.DefaultWindow | backend/app/services/analytics_service.py:22-25 | with no dates the window is from 30 days before today to today, both ends included; a given end date alone starts the window 30 days before it |
| Analytics.Window | backend/app/services/analytics_service.py:22-25 | the query window: the given dates, or today and 30 days before the end; stated by `DefaultWindow` |
| Analytics.TotalEntriesCount | backend/app/services/analytics_service.py:97 | `total_entries` is the number of this user's productivity rows in the window |
| Analytics.SummaryOfEmpty | backend/app/services/analytics_service.py:52-70 | with no routines the routine averages are 0; with no entries the entry averages and `total_entries` are 0, there is no best or worst day and the trend is stable |
| Analytics.GetSummary | backend/app/services/analytics_service.py:15-101 | the summary of the user's rows in the window; `KeepMembers` says which rows are read, `TotalEntriesCount` the count and `DefaultWindow` the window |
| Analytics.SummaryOf | backend/app/services/analytics_service.py:52-101 | the averages, best and worst day and trend of the selected rows; stated by `SummaryOfEmpty`, `BestAndWorstDay`, `MeanScoreBounds` and `AverageBetweenWorstAndBest` |
| Analytics.BestAndWorstDay | backend/app/services/analytics_service.py:71-75 | the best (worst) day is the date of the first entry with the highest (lowest) score |
| Analytics.ScoreTotalBounds | backend/app/services/analytics_service.py:66-68 | bounds on every score bound the sum by `lo * n` and `hi * n` |
| Analytics.MeanScoreBounds | backend/app/services/analytics_service.py:66-68 | the mean of scores lying between `lo` and `hi` lies between them |
| Analytics.AverageBetweenWorstAndBest | backend/app/services/analytics_service.py:65-75 | the average productivity lies between the worst day's and the best day's score |
| Analytics.TrendOfFewEntries | backend/app/services/analytics_service.py:78-79 | fewer than four entries give `stable` |
| Analytics.ProductivityTrend | backend/app/services/analytics_service.py:77-89 | `up`, `down` or `stable` from the means of the two halves; stated by `TrendOfFewEntries`, `TrendUpWhenSecondHalfHigher`, `TrendDownWhenSecondHalfLower` and `TrendOfConstantScores` |
| Analytics.TrendUpWhenSecondHalfHigher | backend/app/services/analytics_service.py:79-87 | with the split at `n // 2`, first-half scores at most `c` and second-half scores above `1.1 * c` give `up` |
| Analytics.TrendDownWhenSecondHalfLower | backend/app/services/analytics_service.py:79-89 | first-half scores at least `c` and second-half scores below `0.9 * c` give `down` |
| Analytics.TrendOfConstantScores | backend/app/services/analytics_service.py:78-89 | equal positive scores give `stable` |
| Analytics.ChartData | backend/app/services/analytics_service.py:145-160 | the append loop yields one point per chart date, in order, each the merge of that date's rows |
| Analytics.GetChartData | backend/app/services/analytics_service.py:103-162 | the chart of this user's rows in the defaulted window, both queries ordered by date |
| Analytics.ChartDatesSpec | backend/app/services/analytics_service.py:140-143 | the chart dates are strictly increasing and are exactly the dates found in either table |
| Analytics.ChartDates | backend/app/services/analytics_service.py:140-143 | `sorted(set(...))` of the dates of both tables; stated by `ChartDatesSpec` |
| Analytics.PointSources | backend/app/services/analytics_service.py:140-159 | a point's productivity (routine) fields are present iff that date has a productivity (routine) row, and then come from the last such row |
| Analytics.PointFor | backend/app/services/analytics_service.py:144-159 | the chart point of one date; stated by `PointSources` and `PointsAreNotEmpty` |
| Analytics.PointsAreNotEmpty | backend/app/services/analytics_service.py:143-159 | every chart point carries data from at least one table |
| ApiClient.GetApiErrorMessageCases | frontend/src/lib/api.ts:46-60 | an `ApiError` yields its detail, any other `Error` its message, a non-object the fallback; an object that is not an `Error` yields its detail only when it is named `ApiError` and has one |
| ApiClient.GetApiErrorMessage | frontend/src/lib/api.ts:46-60 | the message shown for a caught error; stated by `GetApiErrorMessageCases` and `GetApiErrorMessageFallback` |
| ApiClient.GetApiErrorMessageFallback | frontend/src/lib/api.ts:46-60 | a result other than the fallback comes only from an object that is an `ApiError` with a detail, or an `Error` |
| ApiClient.RequestHeaders | frontend/src/lib/api.ts:65-72 | the headers are the custom ones plus `Content-Type` (JSON unless overridden) and, iff the token is truthy, `Authorization: Bearer <token>`, which overrides a custom one |
| ApiClient.FailedResponseMessage | frontend/src/lib/api.ts:88-93 | a non-ok status rejects with an `ApiError` whose message is the body's truthy detail or `API request failed (<status>)` |
| ApiClient.OkResponse | frontend/src/lib/api.ts:95-100 | an ok status resolves, with no body iff the status is 204 |
| ApiClient.ClassifyResponse | frontend/src/lib/api.ts:88-100 | how `apiClient` settles on a status: rejected with an `ApiError` when not ok, no body on 204, the body otherwise; stated by `FailedResponseMessage` and `OkResponse` |
| ApiClient.FailedImportMessage | frontend/src/lib/api.ts:297-300 | a failed import rejects with the body's truthy detail or `Import failed` |
| ApiClient.ClassifyImportResponse | frontend/src/lib/api.ts:297-302 | how `import.csv` settles on a status: rejected with an `ApiError` when not ok, the body otherwise; stated by `FailedImportMessage` |
| ApiClient.Defined | frontend/src/lib/api.ts:106-110 | the appended pairs are never more than the entries |
| ApiClient.BuildQueryParams | frontend/src/lib/api.ts:104-113 | the loop builds exactly the query string of the defined entries, `''` when it is empty |
| ApiClient.SerializeEmptyIff | frontend/src/lib/api.ts:111 | the serialised search parameters are empty iff no pair was appended |
| ApiClient.DefinedEmptyIff | frontend/src/lib/api.ts:106-110 | no pair is appended iff every value is undefined |
| ApiClient.QueryStringEmptyIff | frontend/src/lib/api.ts:111-112 | the result is `''` iff every value is undefined, and otherwise starts with `?` |
| ApiClient.QueryString | frontend/src/lib/api.ts:104-112 | `?` and the serialised defined pairs, or `''`; stated by `QueryStringEmptyIff`, and `BuildQueryParams` proves the loop equal to it |
| ApiClient.DefinedAppend | frontend/src/lib/api.ts:106-110 | entries keep their order: the pairs of a concatenation are the concatenation of the pairs |
| ApiClient.DefinedSingle | frontend/src/lib/api.ts:107-109 | an undefined value contributes nothing, a defined one its key and `String(value)` |
| ApiClient.GoalsUrlActiveOnly | frontend/src/lib/api.ts:141-144 | the goals URL gets a query iff `activeOnly` is set, and always starts with `/api/users/me/goals` |
| ApiClient.GoalsUrl | frontend/src/lib/api.ts:141-144 | the goals URL with the optional `active_only` query; stated by `GoalsUrlActiveOnly` |
| ApiClient.ListParamsMapping | frontend/src/lib/api.ts:180-185 | `pageSize`, `startDate`, `endDate` are sent as `page_size`, `start_date`, `end_date`, and an omitted `page` is left out |
| ApiClient.ListUrlsBare | frontend/src/lib/api.ts:180-232 | the routines and productivity list URLs are the bare path iff no option is set, and otherwise their query follows the path after `?` |
| ApiClient.RangeUrlsBare | frontend/src/lib/api.ts:264-277 | the summary and chart URLs are the bare path iff neither date is set, and otherwise their query follows the path after `?` |
| ApiClient.RoutinesListUrl | frontend/src/lib/api.ts:180-186 | `/api/routines` with the list query; stated by `ListUrlsBare` and `ListParamsMapping` |
| ApiClient.ProductivityListUrl | frontend/src/lib/api.ts:225-231 | `/api/productivity` with the list query; stated by `ListUrlsBare` and `ListParamsMapping` |
| ApiClient.SummaryUrl | frontend/src/lib/api.ts:264-269 | `/api/analytics/summary` with the date query; stated by `RangeUrlsBare` |
| ApiClient.ChartsUrl | frontend/src/lib/api.ts:272-277 | `/api/analytics/charts` with the date query; stated by `RangeUrlsBare` |
| Common.LessTotal | frontend/src/app/dashboard/page.tsx:145 | the date order used for `localeCompare` on ISO dates is total on distinct strings |
| Common.LessTransitive | frontend/src/app/dashboard/page.tsx:224 | the date order is transitive |
| Common.LessIrreflexive | frontend/src/app/dashboard/page.tsx:224 | no date sorts before itself |
| Common.SortBySorted | frontend/src/app/dashboard/page.tsx:145 | the stable sort by a string key returns its input rearranged (same multiset) in key order |
| Common.SortBy | frontend/src/app/dashboard/page.tsx:145 | a stable insertion sort by a string key; stated by `SortBySorted` and `SortByLength` |
| Common.SortByLength | backend/app/services/analytics_service.py:44 | sorting (`order("date")`) keeps the number of rows |
| Common.InsertBySorted | frontend/src/app/dashboard/page.tsx:145 | one insertion step of the sort keeps the run ordered and adds exactly the inserted element |
| Common.SortedSetProperties | backend/app/services/analytics_service.py:143 | `sorted(set(...))` is strictly increasing and holds exactly the input's strings |
| Common.SortedSet | backend/app/services/analytics_service.py:143 | `sorted(set(...))` on strings; stated by `SortedSetProperties` |
| Common.InsertUniqueSorted | backend/app/services/analytics_service.py:143 | inserting into a strictly increasing run keeps it so and adds only the new string |
| Common.DedupProperties | frontend/src/app/dashboard/page.tsx:218-221 | a `Set` built from a sequence holds the same strings, each once |
| Common.Take | frontend/src/app/dashboard/page.tsx:225 | `slice(0, n)` keeps the first `min(n, length)` elements unchanged |
| Common.LastWithKey | frontend/src/app/dashboard/page.tsx:212-215 | a `Map` built from `[key, row]` pairs finds nothing iff no row has the key, and otherwise the last row with it |
| Common.Keys | backend/app/services/analytics_service.py:140-141 | the key list has one key per row, in row order |
| Common.Split | frontend/src/app/dashboard/import/page.tsx:34 | `split` always yields at least one part |
| Common.JoinSplit | frontend/src/app/dashboard/import/page.tsx:34-35 | joining the parts of `split(sep)` with `sep` gives back the text |
| Common.SplitPartsAvoidSep | frontend/src/app/dashboard/import/page.tsx:34-35 | no part of `split(sep)` contains `sep` |
| Common.SplitNoSep | frontend/src/app/dashboard/page.tsx:84 | text without the separator splits into itself alone |
| Common.SplitAt | frontend/src/app/dashboard/page.tsx:84 | text before the first separator is the first part, and the rest splits on its own |
| Common.TrimStart | frontend/src/app/dashboard/import/page.tsx:35 | removes exactly the leading white space |
| Common.TrimEnd | frontend/src/app/dashboard/import/page.tsx:35 | removes exactly the trailing white space |
| Common.TrimEmptyIff | frontend/src/app/dashboard/import/page.tsx:34 | `line.trim()` is empty, so the line is dropped, iff the line is all white space |
| Common.TrimNoSpace | frontend/src/app/dashboard/import/page.tsx:35 | text with no white space at either end trims to itself |
| Common.Trim | frontend/src/app/dashboard/import/page.tsx:34 | JavaScript `trim()`: `TrimStart` then `TrimEnd`; stated by `TrimStart`, `TrimEnd`, `TrimEmptyIff`, `TrimEnds` and `TrimNoSpace` |
| Common.TrimEnds | frontend/src/app/dashboard/import/page.tsx:35 | trimmed text has no white space at either end, so `trim()` is idempotent |
| Common.NatToString | frontend/src/app/dashboard/page.tsx:88 | a number prints as a non-empty run of digits |
| Common.DigitsValueOfNatToString | frontend/src/app/dashboard/page.tsx:88 | the printed digits read back as the number |
| Common.DigitRun | frontend/src/app/dashboard/page.tsx:85 | the leading digits `parseInt` reads stop at the first non-digit |
| Common.ParseIntOfDigits | frontend/src/app/dashboard/page.tsx:85 | `parseInt` of a decimal numeral is its value |
| Common.ParseInt | frontend/src/app/dashboard/page.tsx:85 | JavaScript `parseInt`: leading white space and a sign, then the digit run, or NaN; stated by `DigitRun`, `ParseIntOfDigits` and `ParseIntPad2` |
| Common.ParseIntPad2 | frontend/src/app/dashboard/page.tsx:85 | `parseInt` of a two-digit zero-padded hour is that hour |
| Common.ParseFloatOfNat | frontend/src/app/dashboard/entry/page.tsx:68 | `parseFloat` of a printed whole number is that number |
| Common.ParseFloatOfDigits | frontend/src/app/dashboard/entry/page.tsx:68 | `parseFloat` of a run of digits is its decimal value |
| Common.ParseFloat | frontend/src/app/dashboard/entry/page.tsx:68 | JavaScript `parseFloat` without exponents; stated by `ParseFloatOfDigits` and `ParseFloatOfNat` |
| Common.Reverse | frontend/src/app/dashboard/page.tsx:224 | the descending order of distinct dates is the ascending order reversed, element by element |
| Common.IncreasingDistinct | frontend/src/app/dashboard/page.tsx:218-224 | a strictly increasing date list has no repeated date |
| CsvImport.CleanRow | backend/app/api/import_data.py:61-65 | the row sent carries the user's id and exactly the file's non-`NaN` cells, unchanged |
| CsvImport.Project | backend/app/api/import_data.py:76-111 | a table's part of a split row keeps exactly the row's keys in that table's whitelist, with their values |
| CsvImport.AfterInsertsRows | backend/app/api/import_data.py:70-117 | after the inserts each table holds its old rows followed by the rows inserted into it, in order |
| CsvImport.AttemptPrefix | backend/app/api/import_data.py:113-121 | the inserts of one row that went through are a prefix of its inserts; there is an error iff one raised, and it is that insert's error |
| CsvImport.Attempt | backend/app/api/import_data.py:113-121 | a row's inserts up to the first that raises; stated by `AttemptPrefix` and `AttemptSkip` |
| CsvImport.AttemptSkip | backend/app/api/import_data.py:113-117 | inserts that do not raise pass through and the attempt continues with the rest |
| CsvImport.InsertEach | backend/app/api/import_data.py:113-117 | performs a row's inserts in order until one raises: the tables gain exactly the inserts that went through, and the error is the first one raised |
| CsvImport.RunStopped | backend/app/api/import_data.py:124-126 | once the loop has broken off, later rows change nothing |
| CsvImport.RunSnoc | backend/app/api/import_data.py:59-126 | the loop over one more row is one more step of the loop |
| CsvImport.ImportCsv | backend/app/api/import_data.py:32-133 | a name not ending in `.csv` gives 400 `File must be a CSV`, and a file `read_csv` cannot parse gives 400 `Failed to parse CSV: <error>`, both with the tables unchanged; otherwise the response is the loop's result and each table gains exactly the rows inserted into it |
| CsvImport.ImportRows | backend/app/api/import_data.py:47-126 | the loop's counters, error list and table contents are those of the row-by-row specification |
| CsvImport.ImportRow | backend/app/api/import_data.py:60-123 | one row: its error is the first insert error, and the tables gain the inserts that went through |
| CsvImport.StepCounts | backend/app/api/import_data.py:119-126 | one more row keeps the counters right: imported plus failed is the rows processed, one error per failure, and the stop exactly at the eleventh failure with the marker after it |
| CsvImport.Step | backend/app/api/import_data.py:119-126 | one row of the loop; stated by `StepCounts` and `RunStopped` |
| CsvImport.RunCounts | backend/app/api/import_data.py:59-126 | after any rows the counters are right, and every row is processed unless the loop stopped at the eleventh failure |
| CsvImport.Run | backend/app/api/import_data.py:59-126 | the loop over the rows; stated by `RunCounts` and `RunSnoc`, and `ImportRows` proves the loop equal to it |
| CsvImport.RowErrorIsNotMarker | backend/app/api/import_data.py:123-125 | a `Row N: ...` message is never the truncation marker |
| CsvImport.ImportResultSpec | backend/app/api/import_data.py:119-133 | at most ten errors are returned, `min(failed, 10)` of them, each a row message and never the marker; imported plus failed is the rows processed; success iff nothing failed |
| CsvImport.ResultOf | backend/app/api/import_data.py:128-133 | the response of the loop's counters; stated by `ImportResultSpec` |
| CsvImport.InsertsSpec | backend/app/api/import_data.py:62-117 | every row sent goes to one of the two tables with the user's id and only non-`NaN` cells from the file; a part of a split row has more than two keys, all in its table's whitelist |
| CsvImport.Inserts | backend/app/api/import_data.py:62-117 | the inserts one cleaned row causes, routed by the file's columns; stated by `InsertsSpec` and `RoutineFileRouting` |
| CsvImport.RoutineFileRouting | backend/app/api/import_data.py:68-70 | a file with the routine columns sends each whole row to the routines, even when it has productivity columns too |
| CsvImport.EmptySplitCountsAsImported | backend/app/api/import_data.py:113-119 | a split row with neither part large enough is inserted nowhere and still counts as imported |
| Dashboard.JsRem | frontend/src/app/dashboard/page.tsx:87 | JavaScript `%` by a positive divisor: strictly inside `(-b, b)`, the Euclidean remainder for non-negative operands and never positive for negative ones |
| Dashboard.DisplayHour | frontend/src/app/dashboard/page.tsx:87 | for a non-negative hour `h % 12 \|\| 12` is between 1 and 12 and agrees with `h` modulo 12; an unparsable hour shows as 12 |
| Dashboard.FormatTimeEmpty | frontend/src/app/dashboard/page.tsx:83 | the empty string formats as `-` |
| Dashboard.FormatTimeOfClock | frontend/src/app/dashboard/page.tsx:82-89 | a zero-padded `HH:mm` prints `h % 12` (12 for 0), the minutes as given and `PM` iff the hour is at least 12 |
| Dashboard.FormatTime | frontend/src/app/dashboard/page.tsx:82-89 | `formatTime`; stated by `FormatTimeEmpty`, `FormatTimeOfClock`, `FormatTimeClockCase` and the example lemmas |
| Dashboard.FormatTimeClockCase | frontend/src/app/dashboard/page.tsx:82-89 | the same rule with the expected text given outright |
| Dashboard.FormatTimeMorning | frontend/src/app/dashboard/page.tsx:82-89 | `06:30` is `6:30 AM` |
| Dashboard.FormatTimeAfternoon | frontend/src/app/dashboard/page.tsx:82-89 | `14:45` is `2:45 PM` |
| Dashboard.FormatTimeNoon | frontend/src/app/dashboard/page.tsx:86-87 | `12:00` is `12:00 PM` |
| Dashboard.FormatTimeMidnight | frontend/src/app/dashboard/page.tsx:86-87 | `00:00` is `12:00 AM` |
| Dashboard.FormatTimePaddedMinutes | frontend/src/app/dashboard/page.tsx:84-88 | `09:05` is `9:05 AM`: the hour loses its padding, the minutes keep theirs |
| Dashboard.FormatTimeExamples | frontend/src/app/dashboard/page.tsx:82-89 | the five clock texts above, written as literal strings |
| Dashboard.MergedRows | frontend/src/app/dashboard/page.tsx:145 | one merged point per date, in the order of the dates |
| Dashboard.AllDatesMembers | frontend/src/app/dashboard/page.tsx:128-143 | the map's keys are exactly the dates found in either list |
| Dashboard.RoutineStep | frontend/src/app/dashboard/page.tsx:128-134 | one routine visited by the `forEach` keeps the map equal to the merge of the records seen so far |
| Dashboard.MergeRoutines | frontend/src/app/dashboard/page.tsx:128-134 | the first `forEach` leaves the map holding, per routine date, its label and the mood of the last routine of that date, in first-seen order |
| Dashboard.ProductivityStep | frontend/src/app/dashboard/page.tsx:136-143 | one entry visited keeps the map equal to the merge of the records seen so far, merging into an existing point |
| Dashboard.MergeProductivity | frontend/src/app/dashboard/page.tsx:136-143 | the second `forEach` completes the map to the merge of both lists |
| Dashboard.MapValues | frontend/src/app/dashboard/page.tsx:145 | `Array.from(map.values())` lists the merged points in key insertion order |
| Dashboard.ProductivityChartData | frontend/src/app/dashboard/page.tsx:112-146 | the memo returns the demo chart when both lists are empty, and otherwise the merged points sorted by label |
| Dashboard.ProductivityChartShape | frontend/src/app/dashboard/page.tsx:118-145 | with data there is one point per distinct raw date; the points are sorted ascending by the formatted label and are a rearrangement of the merged points |
| Dashboard.ProductivityChart | frontend/src/app/dashboard/page.tsx:112-146 | the chart points: demo data with no rows, else the merged points by label; stated by `ProductivityChartData` and `ProductivityChartShape` |
| Dashboard.MergedRowSources | frontend/src/app/dashboard/page.tsx:128-143 | a point's mood is present iff a routine has its date, and is then the last such routine's; score and energy are present iff an entry has its date, and are then the last such entry's |
| Dashboard.BarsOf | frontend/src/app/dashboard/page.tsx:153-158 | one bar per routine, in order, with its label, sleep, exercise and meditation |
| Dashboard.RoutineChartData | frontend/src/app/dashboard/page.tsx:148-159 | the demo bars for no routines, else one bar per routine in the same order |
| Dashboard.CountIn | frontend/src/app/dashboard/page.tsx:166-173 | a bucket never counts more nights than there are |
| Dashboard.SleepBucket | frontend/src/app/dashboard/page.tsx:166-172 | the bucket of a night: under 6, under 7, under 8, otherwise `>8`; stated by `SleepSlicesExample` (8 hours is `>8`) and `CountIn` |
| Dashboard.SleepDistribution | frontend/src/app/dashboard/page.tsx:161-198 | the counting loop yields the demo slices for no routines, else the four rounded percentages of the bucket counts |
| Dashboard.BucketCountsSum | frontend/src/app/dashboard/page.tsx:167-173 | every night lands in exactly one of the four buckets: the counts sum to the number of routines |
| Dashboard.PercentBounds | frontend/src/app/dashboard/page.tsx:179-194 | `Math.round(count / total * 100)` is between 0 and 100, 0 for no nights and 100 for all |
| Dashboard.SleepSlicesInRange | frontend/src/app/dashboard/page.tsx:175-197 | every slice value is between 0 and 100 |
| Dashboard.SleepSlices | frontend/src/app/dashboard/page.tsx:175-197 | the four named, coloured slices with rounded percentages; stated by `SleepSlicesInRange`, `SleepSlicesExample` and `BucketCountsSum` |
| Dashboard.SleepSlicesExample | frontend/src/app/dashboard/page.tsx:166-197 | nights of 5, 6.5 and 8 hours give 33, 33, 0, 33: exactly 8 hours falls in `>8 hrs` |
| Dashboard.RowsFor | frontend/src/app/dashboard/page.tsx:226-236 | one table row per date, in the order of the dates |
| Dashboard.RecentEntries | frontend/src/app/dashboard/page.tsx:201-237 | the five demo rows when both lists are empty, else one row per recent date |
| Dashboard.RecentDatesOrdered | frontend/src/app/dashboard/page.tsx:218-225 | at most five dates, strictly decreasing (so no duplicates), each from one of the lists |
| Dashboard.RecentDates | frontend/src/app/dashboard/page.tsx:218-225 | the five newest dates of either list; stated by `RecentDatesOrdered`, `NotRecentIsOlder` and `RecentDatesNewest` |
| Dashboard.NotRecentIsOlder | frontend/src/app/dashboard/page.tsx:224-225 | a date cut off by `slice(0, 5)` is older than all five dates kept |
| Dashboard.RecentDatesNewest | frontend/src/app/dashboard/page.tsx:218-225 | no date left out is newer than a date shown, and dates are left out only when five are shown |
| Dashboard.RecentRowCells | frontend/src/app/dashboard/page.tsx:226-235 | sleep, mood and wake are `-` iff no routine has the date; the score is `-` iff no entry has it |
| Dashboard.RecentRowFor | frontend/src/app/dashboard/page.tsx:226-235 | the table row of one date; stated by `RecentRowCells` |
| Dashboard.DashboardBanners | frontend/src/app/dashboard/page.tsx:239-241 | Refresh is disabled iff a routine, productivity or summary fetch is loading; the error banner shows the first truthy of their errors; the no-data banner shows iff nothing loads, no records exist and no error is shown |
| Dashboard.ErrorBannerWhileLoading | frontend/src/app/dashboard/page.tsx:277-282 | the error banner shows while another slot is still loading |
| Dataset.Trunc | backend/scripts/download_dataset.py:157 | Python `int()` of a float truncates toward zero |
| Dataset.Clip | backend/scripts/download_dataset.py:152 | `np.clip` lands in `[lo, hi]` and leaves a value already inside unchanged |
| Dataset.TruncWithin | backend/scripts/download_dataset.py:157 | truncating a value clipped to whole non-negative bounds stays within them |
| Dataset.RoundHalfEven | backend/scripts/download_dataset.py:263 | Python `round()` is within one half of its argument and breaks ties to the even integer |
| Dataset.Round1Within | backend/scripts/download_dataset.py:151-153 | `round(x, 1)` moves `x` by at most 0.05 and keeps it within bounds that are whole tenths |
| Dataset.Round1 | backend/scripts/download_dataset.py:151-153 | `round(x, 1)` with ties to even; stated by `Round1Within` |
| Dataset.WakeOffset | backend/scripts/download_dataset.py:26 | the offset lies in `[-variance // 2, variance]` |
| Dataset.WakeMinutes | backend/scripts/download_dataset.py:28-29 | the minutes are clamped to `[300, 540]`, unchanged when already inside |
| Dataset.Pad2Length | backend/scripts/download_dataset.py:33 | `:02d` of a number below 100 has two characters |
| Dataset.WakeTimeFormat | backend/scripts/download_dataset.py:18-33 | the wake time is `HH:MM`, reads back as the clamped minutes, and lies between `05:00` and `09:00` |
| Dataset.GenerateWakeTime | backend/scripts/download_dataset.py:18-33 | `generate_wake_time`; stated by `WakeTimeFormat` |
| Dataset.WakeVarianceRange | backend/scripts/download_dataset.py:25 | for a sleep quality in `[-0.25, 1]` the variance lies in `[0, 112]`, and reaches 112 |
| Dataset.WakeVariance | backend/scripts/download_dataset.py:25 | `int((1 - sleep_quality) * 90)`; stated by `WakeVarianceRange` |
| Dataset.BreakfastQuality | backend/scripts/download_dataset.py:36-47 | the result is always one of the four breakfast literals |
| Dataset.BreakfastBands | backend/scripts/download_dataset.py:40-47 | excellent iff score > 0.75, good iff in (0.5, 0.75], fair iff in (0.25, 0.5], poor otherwise |
| Dataset.BreakfastScore | backend/scripts/download_dataset.py:38 | the breakfast score with its noise draw as an input; stated by `BreakfastScoreBounds`, and `BreakfastBands` maps it to a quality |
| Dataset.BreakfastScoreBounds | backend/scripts/download_dataset.py:38 | for a mood in 1..10, non-negative exercise and noise in `[-0.2, 0.2]` the score lies in `[-0.14, 1.2]` |
| Dataset.BreakfastPoints | backend/scripts/download_dataset.py:221 | the breakfast score used for energy is between 0 and 3 |
| Dataset.BreakfastPointsMonotone | backend/scripts/download_dataset.py:36-47 | a higher breakfast score never gives a lower quality |
| Dataset.PoolSize | backend/scripts/download_dataset.py:52-99 | every pool the notes can be drawn from is non-empty |
| Dataset.PoolSizeIsLength | backend/scripts/download_dataset.py:52-99 | the fixed pool sizes are the lengths of the pools |
| Dataset.ChooseNote | backend/scripts/download_dataset.py:90-99 | the note is drawn from the branch the first matching condition selects, at an index inside its pool |
| Dataset.GenerateNotes | backend/scripts/download_dataset.py:50-99 | the note is a member of the pool of the selected branch |
| Dataset.CompletedAllNote | backend/scripts/download_dataset.py:90-91 | a "completed all" note means productivity at least 8 and all planned tasks done |
| Dataset.HighStressNote | backend/scripts/download_dataset.py:92-95 | a high-stress note means productivity below 7 and stress at least 7 |
| Dataset.LowProductivityNote | backend/scripts/download_dataset.py:94-97 | a low-productivity note means productivity at most 4 and stress below 7 |
| Dataset.HighProductivityNote | backend/scripts/download_dataset.py:90-93 | a high-productivity note means productivity at least 7 |
| Dataset.EmptyNote | backend/scripts/download_dataset.py:90-99 | the empty note comes only from the high-productivity-or-neutral, or the neutral, branch |
| Dataset.SleepQualityBounds | backend/scripts/download_dataset.py:160 | with sleep in `[4, 10]` and screen time in `[0, 180]` the sleep quality lies in `[-0.25, 1]` |
| Dataset.SleepQuality | backend/scripts/download_dataset.py:160 | the sleep quality of a day; stated by `SleepQualityBounds` |
| Dataset.SleepFor | backend/scripts/download_dataset.py:150-153 | the sleep duration lies in `[4, 10]` |
| Dataset.ScreenFor | backend/scripts/download_dataset.py:157 | the screen time lies in `[0, 180]` |
| Dataset.ClippedInt | backend/scripts/download_dataset.py:168 | `int(np.clip(x, lo, hi))` lies in `[lo, hi]` |
| Dataset.RoutineFor | backend/scripts/download_dataset.py:144-216 | a kept day's routine row lies in the generator's ranges, and the streak grows on an exercise day and resets to 0 otherwise |
| Dataset.ProductivityFor | backend/scripts/download_dataset.py:220-284 | the productivity row has the routine's day; score, energy and stress in `[1, 10]`, planned in `[1, 12]`, completed in `[0, planned + 1]`, and the note chosen from its branch |
| Dataset.ExerciseStreak | backend/scripts/download_dataset.py:166-172 | the streak is the number of trailing days with exercise |
| Dataset.Day | backend/scripts/download_dataset.py:144-284 | one kept day gives a routine and a productivity row for that day, both in range |
| Dataset.Build | backend/scripts/download_dataset.py:136-284 | after `k` days the two lists have equal length, at most `k` |
| Dataset.BuildSkip | backend/scripts/download_dataset.py:140-141 | a skipped day appends nothing |
| Dataset.BuildKeep | backend/scripts/download_dataset.py:203-216 | a kept day appends its routine row and its productivity row |
| Dataset.DayFitsDay | backend/scripts/download_dataset.py:144-284 | the day step always gives rows for the given day within the ranges |
| Dataset.BuildRows | backend/scripts/download_dataset.py:136-284 | position for position the lists have the same day; days strictly increase; every row is a kept day and every kept day has a row; all rows in range |
| Dataset.KeptDayRows | backend/scripts/download_dataset.py:203-216 | appending a kept day's rows keeps all five of those facts |
| Dataset.DaysMatchSnoc | backend/scripts/download_dataset.py:272-284 | appending two rows of the same day keeps the lists matched |
| Dataset.DaysIncreaseSnoc | backend/scripts/download_dataset.py:136-137 | the next day's row is later than every row so far |
| Dataset.DaysKeptSnoc | backend/scripts/download_dataset.py:136-141 | the new row is a kept day |
| Dataset.DaysKeptSkip | backend/scripts/download_dataset.py:140-141 | skipping a day keeps every row a kept day |
| Dataset.KeptDaysPresentSnoc | backend/scripts/download_dataset.py:203-216 | after a kept day every kept day so far has a row |
| Dataset.KeptDaysPresentSkip | backend/scripts/download_dataset.py:140-141 | a skipped day needs no row |
| Dataset.RowsInRangeSnoc | backend/scripts/download_dataset.py:203-284 | appending rows in range keeps every row in range |
| Dataset.GenerateDataset | backend/scripts/download_dataset.py:102-286 | the loop builds exactly the day-by-day specification; its outputs have matching, strictly increasing days, one per kept day, all in range |
| Dataset.KeptDay | backend/scripts/download_dataset.py:144-284 | one kept day of the loop appends that day's two rows and updates the streak |
| Dataset.StateAppended | backend/scripts/download_dataset.py:154-172 | after a row, `prev_sleep` is its sleep and the streak grows or resets |
| Dataset.GeneratedRoutineValid | backend/scripts/download_dataset.py:203-216 | every generated routine row passes the `MorningRoutineBase` constraints |
| Dataset.GeneratedProductivityValid | backend/scripts/download_dataset.py:272-284 | every generated productivity row passes the `ProductivityBase` constraints |
| Forms.OrString | frontend/src/app/dashboard/settings/page.tsx:55-59 | `value \|\| fallback` keeps a truthy string and replaces null and `''` by the fallback |
| Forms.OrBool | frontend/src/app/dashboard/settings/page.tsx:68-70 | `value ?? fallback` keeps any stored boolean and replaces only null |
| Forms.NullishKeepsFalse | frontend/src/app/dashboard/settings/page.tsx:68-70 | `??` keeps a stored `false` where `\|\|` would put the `true` default |
| Forms.MessageOr | frontend/src/app/dashboard/entry/page.tsx:120 | `err instanceof Error ? err.message : fallback` |
| Forms.MessageOrAgrees | frontend/src/app/dashboard/entry/page.tsx:120 | for the errors the API client throws, this idiom and `getApiErrorMessage` give the same text |
| Forms.PromiseAll | frontend/src/app/dashboard/entry/page.tsx:110 | `Promise.all` of two calls resolves iff both do, with both values, and otherwise rejects with the reason of the call that rejects first |
| Forms.Utf16Length | frontend/src/app/auth/signup/page.tsx:36 | `password.length` counts UTF-16 code units: between the number of characters and twice it |
| Forms.Utf16LengthBmp | frontend/src/app/auth/signup/page.tsx:36 | for text in the Basic Multilingual Plane the length is the number of characters |
| Forms.Utf16LengthAstral | frontend/src/app/auth/signup/page.tsx:36 | two emoji count as four, so they pass a minimum of four but not of six |
| EntryPage.InitialForm | frontend/src/app/dashboard/entry/page.tsx:31-50 | `initialFormData` has a value for every input of the page |
| EntryPage.CoerceSpec | frontend/src/app/dashboard/entry/page.tsx:68 | `number` and `range` inputs store `parseFloat(value)`, or 0 when it is not a number; other inputs store the raw text |
| EntryPage.Coerce | frontend/src/app/dashboard/entry/page.tsx:68 | the value `handleChange` stores; stated by `CoerceSpec` and `CoerceNat` |
| EntryPage.CoerceNat | frontend/src/app/dashboard/entry/page.tsx:68 | a whole number typed into a numeric input is stored as that number |
| EntryPage.ProductivityFields | frontend/src/app/dashboard/entry/page.tsx:97-105 | the productivity fields other than `notes`, copied from the form |
| EntryPage.RoutinePayloadSpec | frontend/src/app/dashboard/entry/page.tsx:83-94 | the routine payload has exactly the ten routine fields, each as the form holds it |
| EntryPage.RoutinePayload | frontend/src/app/dashboard/entry/page.tsx:83-94 | the routine request body; stated by `RoutinePayloadSpec` and `PayloadSplit` |
| EntryPage.ProductivityPayloadSpec | frontend/src/app/dashboard/entry/page.tsx:97-107 | the productivity payload has the productivity fields as the form holds them, and `notes` iff the notes are not empty |
| EntryPage.ProductivityPayload | frontend/src/app/dashboard/entry/page.tsx:97-107 | the productivity request body; stated by `ProductivityPayloadSpec` and `PayloadSplit` |
| EntryPage.PayloadSplit | frontend/src/app/dashboard/entry/page.tsx:83-107 | the two payloads share only the date, with the same value; with empty notes every other input goes to exactly one of them |
| EntryPage.KeySetsShareDate | frontend/src/app/dashboard/entry/page.tsx:83-107 | the routine and productivity field lists have only `date` in common |
| EntryPage.EntryPageState.constructor | frontend/src/app/dashboard/entry/page.tsx:53-56 | the page starts with `initialFormData`, not saving, and with neither banner |
| EntryPage.EntryPageState.HandleChange | frontend/src/app/dashboard/entry/page.tsx:62-73 | stores the coerced value under the input's name, changes no other input, and clears both banners |
| EntryPage.EntryPageState.HandleSubmit | frontend/src/app/dashboard/entry/page.tsx:75-124 | sends the two payloads; on success shows success and no error; on failure the first rejection's message or `Failed to save entry`; `saving` ends false; the form is unchanged |
| EntryPage.EntryPageState.SuccessTimerFires | frontend/src/app/dashboard/entry/page.tsx:115-118 | the timer restores `initialFormData` and clears success, leaving the error alone |
| EntryPage.EntryPageState.Reset | frontend/src/app/dashboard/entry/page.tsx:387-391 | restores `initialFormData` and clears both banners |
| EntryPage.SubmitWithoutToken | frontend/src/app/dashboard/entry/page.tsx:110-120 | with no session the submit fails with `Not authenticated` |
| EntryService.FloorDiv | backend/app/services/routine_service.py:52 | Python's `//` is the floor of the quotient: `q*b <= a < q*b + b` for a positive divisor, mirrored for a negative one |
| EntryService.ListRange | backend/app/services/routine_service.py:32-42 | the list query asks for positions `(page-1)*page_size` to `offset + page_size - 1` – exactly `page_size` positions – ordered by date, newest first |
| EntryService.ListFilters | backend/app/services/routine_service.py:28-38 | the list query filters on the caller's `user_id`, then adds `date >= start_date` and `date <= end_date` only for the bounds that were given |
| EntryService.ListQuery | backend/app/services/routine_service.py:28-42 | the list query; stated by `ListRange` and `ListFilters` |
| EntryService.TotalPagesCeiling | backend/app/services/routine_service.py:52 | `(total + page_size - 1) // page_size` is the ceiling of `total / page_size`: enough pages for every entry and no empty last page |
| EntryService.ShapePageSpec | backend/app/services/routine_service.py:44-53 | the page carries the response rows, echoes `page` and `page_size`, and a missing count gives `total = 0` |
| EntryService.ShapePage | backend/app/services/routine_service.py:44-53 | the paginated response; stated by `ShapePageSpec` and `TotalPagesCeiling` |
| EntryService.CreatePayloadSpec | backend/app/services/routine_service.py:67-74 | the stored row has the service's `user_id` (overriding any in the body), the date as its ISO string, every other body field unchanged, and the database-filled columns |
| EntryService.CreatePayload | backend/app/services/routine_service.py:67-74 | the inserted row; stated by `CreatePayloadSpec` |
| EntryService.EntryService.constructor | backend/app/services/routine_service.py:15-18 | the service keeps the client, the user and its table (`morning_routines`; `productivity_entries` in backend/app/services/productivity_service.py:18) |
| EntryService.EntryService.List | backend/app/services/routine_service.py:20-53 | `list` returns the page of the executed list query, and raises `ZeroDivisionError` when `page_size` is 0 |
| EntryService.EntryService.Get | backend/app/services/routine_service.py:55-65 | `get` returns the single row with this id and this user, and nothing when none or several match |
| EntryService.EntryService.Create | backend/app/services/routine_service.py:67-74 | `create` appends exactly the payload row to its table, returns it, and leaves every other table as it was |
| EntryService.EntryService.Update | backend/app/services/routine_service.py:76-88 | `update` applies the patch to the rows matching id and user only, returns the first changed row or None, and leaves other tables unchanged |
| EntryService.EntryService.Delete | backend/app/services/routine_service.py:90-99 | `delete` removes the rows matching id and user and returns true iff there was one; other tables are unchanged |
| EntryService.ListedRows | backend/app/services/routine_service.py:28-53 | every listed row is one of the table's rows, belongs to the user and lies within the date bounds; the page is sorted newest first, holds at most `page_size` rows, and `total` counts all matching rows |
| EntryService.MissingRow | backend/app/services/routine_service.py:55-99 | for an id that is not the user's, `get` and `update` find nothing and `update` / `delete` leave the table as it was |
| EntryService.DeleteKeepsUnselected | backend/app/services/routine_service.py:92-98 | a delete whose filters match no row leaves the table unchanged |
| EntryService.OtherUsersUntouched | backend/app/services/routine_service.py:80-98 | the `user_id` filter means update and delete never change or remove another user's rows |
| Store.Select | backend/app/services/routine_service.py:28-33 | a filtered select never returns more rows than the table holds |
| Store.SelectMembers | backend/app/services/routine_service.py:28-38 | a row is selected iff it is in the table and passes every `eq` / `gte` / `lte` filter |
| Store.Passes | backend/app/services/routine_service.py:28-38 | whether one row passes an `eq`, `neq`, `gte` or `lte` filter; `SelectMembers` states selection through it |
| Store.ById | backend/app/services/routine_service.py:60-61 | the `eq("id")` and `eq("user_id")` pair; `MissingRow` and `OtherUsersUntouched` state what it protects |
| Store.SelectAppend | backend/app/services/routine_service.py:73 | selecting from a table with rows appended is the old selection followed by the selection among the new rows |
| Store.SelectNone | backend/app/services/routine_service.py:57-64 | when no row passes the filters the select is empty |
| Store.Single | backend/app/services/routine_service.py:62-65 | `.single()` yields a row iff exactly one row matched, and then that row |
| Store.FirstOrNone | backend/app/services/routine_service.py:88 | `response.data[0] if response.data else None` is None iff no row came back, otherwise the first |
| Store.Window | backend/app/services/routine_service.py:41-42 | `range(from, to)` returns consecutive rows starting at `from`, at most `to - from + 1` of them, and exactly that many when the table reaches `to` |
| Store.ExecuteSpec | backend/app/services/routine_service.py:28-45 | an executed select returns only matching table rows, in the requested order, no more than the range allows, with the exact count of matching rows |
| Store.Execute | backend/app/services/routine_service.py:28-45 | an executed select; stated by `ExecuteSpec` |
| Store.UpdateWhere | backend/app/services/routine_service.py:80-86 | an update keeps the table's length, merges the patch into every selected row and leaves the other rows as they were |
| Store.Updated | backend/app/services/routine_service.py:80-88 | an update returns one row per selected row, each as it is after the patch |
| Store.DeleteWhere | backend/app/services/routine_service.py:92-98 | a delete keeps exactly the rows the filters do not select, and the kept and removed rows add up to the table |
| Store.MergeSpec | backend/app/services/user_service.py:35-41 | a patch sets the columns it names and leaves every other column of the row unchanged |
| Store.PartialUpdate | backend/app/services/user_service.py:33-41 | an `exclude_unset` update changes only the selected rows, and in them only the patched columns |
| Store.UpdateClearsSelection | backend/app/services/user_service.py:116-118 | an update that rewrites a column the filters pin to a value (`is_active` true to false) leaves no row those filters select |
| Store.Database.constructor | backend/app/services/routine_service.py:15-18 | the database starts with the given tables |
| Store.Database.Insert | backend/app/services/routine_service.py:73 | `insert(row)` appends the row to its table and changes no other table |
| Store.Database.Update | backend/app/services/routine_service.py:80-86 | `update(patch)` rewrites its table as `UpdateWhere`, returns the updated rows, and changes no other table |
| Store.Database.Delete | backend/app/services/routine_service.py:92-98 | `delete()` removes the selected rows, returns them, and changes no other table |
| UserService.SettingsPayload | backend/app/services/user_service.py:66-70 | the settings payload has the same fields as the request, and every field but `reminder_time` is unchanged |
| UserService.SettingsPayloadReminder | backend/app/services/user_service.py:69-70 | a `time` given as `reminder_time` is sent as its ISO string; a payload without one is sent unchanged |
| UserService.UserServiceState.constructor | backend/app/services/user_service.py:14-16 | the service keeps the client and the user |
| UserService.UserServiceState.GetProfile | backend/app/services/user_service.py:22-31 | `get_profile` returns the single profile row whose `id` is the user's, or None |
| UserService.UserServiceState.UpdateProfile | backend/app/services/user_service.py:33-41 | `update_profile` patches only the user's profile row, returns it or None when there is none, and changes no other table |
| UserService.UserServiceState.UpdateLastLogin | backend/app/services/user_service.py:43-47 | `update_last_login` sets `last_login_at` to `now()` on the user's profile and changes nothing else |
| UserService.UserServiceState.GetSettings | backend/app/services/user_service.py:53-62 | `get_settings` returns the single settings row of the user, or None |
| UserService.UserServiceState.UpdateSettings | backend/app/services/user_service.py:64-79 | `update_settings` patches the user's settings row with the serialised payload, returns the first updated row or None, and changes no other table |
| UserService.UserServiceState.ListGoals | backend/app/services/user_service.py:85-98 | `list_goals` returns the result of the user's goal query, newest first, restricted to active goals when asked |
| UserService.UserServiceState.GetGoal | backend/app/services/user_service.py:100-110 | `get_goal` returns the single goal with this id owned by the user, or None |
| UserService.UserServiceState.CreateGoal | backend/app/services/user_service.py:112-124 | `create_goal` first deactivates the user's active goals of the same type when the new goal is active, then appends the goal with the user's id, returns it, and changes no other table |
| UserService.UserServiceState.UpdateGoal | backend/app/services/user_service.py:126-148 | `update_goal` deactivates the other active goals of the goal's type when it activates it, then patches the goal, and returns the first patched row or None |
| UserService.UserServiceState.DeleteGoal | backend/app/services/user_service.py:150-159 | `delete_goal` removes the user's goal with this id and returns true iff there was one |
| UserService.CreateActiveIsOnlyActive | backend/app/services/user_service.py:114-124 | after creating an active goal, it is the user's only active goal of its type |
| UserService.GoalsAfterCreate | backend/app/services/user_service.py:114-124 | the goal rows after `create_goal`; stated by `CreateActiveIsOnlyActive`, `CreateInactiveKeepsGoals` and `CreateKeepsOtherGoals` |
| UserService.CreateInactiveKeepsGoals | backend/app/services/user_service.py:115-123 | creating an inactive goal only appends it; existing goals stay as they were |
| UserService.CreateKeepsOtherGoals | backend/app/services/user_service.py:115-118 | creating a goal changes no goal of another user, of another type, or already inactive |
| UserService.UpdateStepsOnlyTarget | backend/app/services/user_service.py:130-146 | after both update steps, a goal still active of that type is the goal being updated |
| UserService.DeactivationFilters | backend/app/services/user_service.py:134-138 | the deactivation in `update_goal` selects exactly the user's active goals of the type whose id is not the updated goal's |
| UserService.TargetNotDeactivated | backend/app/services/user_service.py:134-138 | the `neq("id", goal_id)` filter spares the goal being updated |
| UserService.UpdateActivateIsOnlyActive | backend/app/services/user_service.py:126-148 | activating an existing goal leaves it the only active goal of its type for the user, and the returned row is active |
| UserService.GoalsAfterUpdate | backend/app/services/user_service.py:126-148 | the goal rows after `update_goal`; stated by `UpdateActivateIsOnlyActive`, `UpdateMissingGoal` and `UpdateStepsOnlyTarget` |
| UserService.UpdateMissingGoal | backend/app/services/user_service.py:130-148 | updating a goal the user does not have changes no goal and returns None |
| UserService.ListGoalsSpec | backend/app/services/user_service.py:85-98 | every listed goal is one of the user's rows (and active when `active_only`), newest `created_at` first; the list is the selected rows rearranged (the same multiset), so every goal of the user (active, when asked) is listed; without the flag the count is that of all the user's goals |
| UserService.DeleteKeepsOtherUsers | backend/app/services/user_service.py:150-159 | deleting a goal never removes another user's goal |
| ImportPage.NonBlankMembers | frontend/src/app/dashboard/import/page.tsx:34 | `filter((line) => line.trim())` keeps exactly the lines that are not blank |
| ImportPage.TrimAll | frontend/src/app/dashboard/import/page.tsx:35 | one header per comma-separated part, that part trimmed; no header has white space at either end, so trimming it again changes nothing |
| ImportPage.Cells | frontend/src/app/dashboard/import/page.tsx:40-42 | one cell per header: the trimmed value at that position while the line has one, `''` past its end; no cell has white space at either end |
| ImportPage.AssignKeys | frontend/src/app/dashboard/import/page.tsx:39-43 | assigning `row[header]` for every header gives a row whose keys are exactly the headers |
| ImportPage.AssignValue | frontend/src/app/dashboard/import/page.tsx:40-42 | a header not repeated later keeps the value assigned at its position; a repeated header takes the last one |
| ImportPage.FillRow | frontend/src/app/dashboard/import/page.tsx:39-43 | the `forEach` loop fills the row that header-by-header assignment defines |
| ImportPage.RowOfKeys | frontend/src/app/dashboard/import/page.tsx:39-43 | a preview row has exactly the headers as keys |
| ImportPage.RowOfValue | frontend/src/app/dashboard/import/page.tsx:40-42 | under a header not repeated later stands the trimmed cell of that column, or `''` |
| ImportPage.RowOf | frontend/src/app/dashboard/import/page.tsx:40-42 | one preview row; stated by `RowOfKeys` and `RowOfValue`, and `FillRow` proves the loop equal to it |
| ImportPage.RowsOf | frontend/src/app/dashboard/import/page.tsx:37-44 | one preview row per line, each read from the line's comma-separated values |
| ImportPage.PreviewLines | frontend/src/app/dashboard/import/page.tsx:37 | `lines.slice(1, 6)` is the lines after the header, at most five, in order |
| ImportPage.PreviewShape | frontend/src/app/dashboard/import/page.tsx:34-46 | the preview has at most five rows, the rows after the header line, each read against the trimmed headers |
| ImportPage.PreviewOf | frontend/src/app/dashboard/import/page.tsx:34-46 | the preview of the non-blank lines; stated by `PreviewShape` |
| ImportPage.ParsePreviewFailsIff | frontend/src/app/dashboard/import/page.tsx:32-50 | parsing fails (the `catch` branch) exactly when the file is white space only, in particular when it is empty |
| ImportPage.ParsePreview | frontend/src/app/dashboard/import/page.tsx:32-50 | the preview parse written inline in the `try` block of `handleFileSelect`: split on newlines, drop blank lines, trim the headers, build up to five rows; stated by `ParsePreviewFailsIff` and `PreviewShape` |
| ImportPage.ImportPageState.constructor | frontend/src/app/dashboard/import/page.tsx:11-13 | the page starts with no file, no preview and no error |
| ImportPage.ImportPageState.HandleFileSelect | frontend/src/app/dashboard/import/page.tsx:17-51 | no file changes nothing; a name not ending in `.csv` sets "Please select a CSV file" and clears file and preview; a CSV file is kept with the error cleared, and either the parsed preview is stored or "Failed to parse CSV file" is set and the preview cleared |
| ImportPage.ImportPageState.HandleReset | frontend/src/app/dashboard/import/page.tsx:63-70 | Clear empties the file, the preview and the error |
| ImportPage.ImportPageState.HandleImport | frontend/src/app/dashboard/import/page.tsx:53-61 | without a file nothing happens; otherwise the import hook runs and always ends not loading, with the result, the "Import failed" message, or "Not authenticated" |
| ImportPage.ImportPageState.ImportAnotherFile | frontend/src/app/dashboard/import/page.tsx:245-251 | "Import Another File", shown only while a result is held, resets the file state but keeps the hook's result, so the Clear and Import buttons stay hidden for any file |
| ImportPage.ImportPageState.ImportAnotherFileThenSelect | frontend/src/app/dashboard/import/page.tsx:231 | after "Import Another File" and a new `.csv` pick, the file is selected but no Import button is shown |
| ImportPage.ImportPageState.ImportAnotherFileClearingResult | frontend/src/app/dashboard/import/page.tsx:63-70 | the corrected reset: the file state and the hook's slot both return to empty |
| ImportPage.ImportPageState.ImportAnotherFileClearingThenSelect | frontend/src/app/dashboard/import/page.tsx:231 | with the corrected reset, a new `.csv` pick shows the Import button again |
| ImportPage.DisplayedErrors | frontend/src/app/dashboard/import/page.tsx:186 | the page shows the first five import errors, in order, and all of them when there are at most five |
| ImportPage.ImportLabelCases | frontend/src/app/dashboard/import/page.tsx:237-239 | the button reads "Importing..." while loading, "Import ~N+ Records" for a preview of N > 0 rows, and "Import Records" otherwise |
| ImportPage.ImportLabel | frontend/src/app/dashboard/import/page.tsx:237-239 | the import button's label; stated by `ImportLabelCases` |
| SettingsPage.PopulateEmptyIsInitial | frontend/src/app/dashboard/settings/page.tsx:23-76 | loading a profile and settings with every field empty fills the forms with exactly their initial defaults |
| SettingsPage.PopulateProfile | frontend/src/app/dashboard/settings/page.tsx:52-62 | the profile form filled from loaded data; stated by `ProfileRoundTrip` and `PopulateEmptyIsInitial` |
| SettingsPage.PopulateSettings | frontend/src/app/dashboard/settings/page.tsx:64-76 | the preferences form filled from loaded data; stated by `SettingsRoundTrip` and `PopulateEmptyIsInitial` |
| SettingsPage.ProfileRoundTrip | frontend/src/app/dashboard/settings/page.tsx:52-62 | saving a profile form and loading it back gives the same form iff its timezone is set; an empty timezone comes back as "UTC" |
| SettingsPage.SettingsRoundTrip | frontend/src/app/dashboard/settings/page.tsx:64-76 | the three notification flags always survive a save and reload (`??` keeps `false`); the whole form does iff no text field is empty |
| SettingsPage.SetProfileValue | frontend/src/app/dashboard/settings/page.tsx:78-84 | a profile change sets the named field to the new value and leaves every other field as it was |
| SettingsPage.ApplySettingsEvent | frontend/src/app/dashboard/settings/page.tsx:89-95 | a checkbox event sets its flag to `checked`, any other event sets its text field to `value`, and every other field is kept |
| SettingsPage.IsLoading | frontend/src/app/dashboard/settings/page.tsx:132 | `profile.loading \|\| settings.loading`, the flag that shows the profile skeleton; no contract of its own — `SettingsPageState.Mount` states that it is false once both requests have settled |
| SettingsPage.SettingsPageState.constructor | frontend/src/app/dashboard/settings/page.tsx:23-43 | the page starts with the default forms, not saving, with no message |
| SettingsPage.SettingsPageState.Mount | frontend/src/app/dashboard/settings/page.tsx:44-76 | with a token both fetches settle, so neither hook is loading, each failed request holds its fallback message and each form holds what its request returned; without a token the loading flag is unchanged and each form is filled from whatever data its hook already holds |
| SettingsPage.SettingsPageState.OnProfileData | frontend/src/app/dashboard/settings/page.tsx:52-62 | arriving profile data repopulates the profile form only; no data changes nothing |
| SettingsPage.SettingsPageState.OnSettingsData | frontend/src/app/dashboard/settings/page.tsx:64-76 | arriving settings data repopulates the settings form only; no data changes nothing |
| SettingsPage.SettingsPageState.HandleProfileChange | frontend/src/app/dashboard/settings/page.tsx:78-87 | a profile edit updates that field and clears both messages |
| SettingsPage.SettingsPageState.HandleSettingsChange | frontend/src/app/dashboard/settings/page.tsx:89-98 | a settings edit updates that field and clears both messages |
| SettingsPage.SettingsPageState.SaveProfile | frontend/src/app/dashboard/settings/page.tsx:100-113 | saving the profile ends not saving, with "Profile updated successfully!" and the stored profile on success, or the error message (fallback "Failed to update profile") on failure; the hook's slot ends not loading with no error on success and is left as it was on failure; the forms are unchanged |
| SettingsPage.SettingsPageState.SaveSettings | frontend/src/app/dashboard/settings/page.tsx:115-130 | saving the settings ends not saving, with "Settings updated successfully!" and the stored settings on success, or the error message (fallback "Failed to update settings") on failure; the hook's slot ends not loading with no error on success and is left as it was on failure; the forms are unchanged |
| SignupPage.SignupPageState.constructor | frontend/src/app/auth/signup/page.tsx:10-16 | the form starts with empty fields, no error, not loading and not confirmed |
| SignupPage.SignupPageState.HandleSubmit | frontend/src/app/auth/signup/page.tsx:27-52 | `signUp` is called iff the passwords match and have at least 6 UTF-16 code units, and then with the email, the password and the full name; a mismatch reports "Passwords do not match", a short password "Password must be at least 6 characters"; a successful call shows the confirmation, a failed one its message (fallback "Failed to sign up"); loading ends false after a call, and the fields are never changed |
| UseApi.AsyncState.constructor | frontend/src/hooks/useApi.ts:33-38 | a slot starts with the initial data, not loading and without an error |
| UseApi.AsyncState.SetLoading | frontend/src/hooks/useApi.ts:40-42 | `setLoading` keeps the data, starts loading and clears the error |
| UseApi.AsyncState.SetData | frontend/src/hooks/useApi.ts:44-46 | `setData` stores the data, stops loading and clears the error |
| UseApi.AsyncState.SetError | frontend/src/hooks/useApi.ts:48-50 | `setError` keeps the data, stops loading and stores the message |
| UseApi.Fetch | frontend/src/hooks/useApi.ts:59-380 | every hook's `fetch`: without a token `useCurrentUser` sets "Not authenticated" and the others change nothing; with one the slot ends with the data, or with the error message and the hook's own fallback, keeping the old data |
| UseApi.ImportFile | frontend/src/hooks/useApi.ts:386-413 | `importFile`: without a token it sets "Not authenticated" and returns nothing; a success stores and returns the result; a failure stores the message (fallback "Import failed"), keeps the old data and rethrows the same error |
| UseApi.AuthedCall | frontend/src/hooks/useApi.ts:99-109 | a mutating callback throws "Not authenticated" without a token and otherwise settles exactly as the API call |
| UseApi.ReplaceById | frontend/src/hooks/useApi.ts:184 | replacing a goal by id keeps the list's length |
| UseApi.RemoveById | frontend/src/hooks/useApi.ts:196 | removing goals by id never lengthens the list |
| UseApi.ReplaceByIdSpec | frontend/src/hooks/useApi.ts:184 | each goal with that id is replaced by the returned goal and every other goal stays in place |
| UseApi.RemoveByIdMembers | frontend/src/hooks/useApi.ts:196 | the filtered list holds exactly the goals whose id differs |
| UseApi.RemoveByIdAppend | frontend/src/hooks/useApi.ts:196 | filtering distributes over concatenation, so the kept goals stay in order |
| UseApi.RemoveByIdAbsent | frontend/src/hooks/useApi.ts:196 | removing an id no goal has leaves the list unchanged |
| UseApi.CreateGoal | frontend/src/hooks/useApi.ts:166-176 | after a successful create the goal is appended to the cached list (`[]` when there is none); a failure leaves the slot unchanged |
| UseApi.UpdateGoal | frontend/src/hooks/useApi.ts:178-188 | after a successful update the goals with that id are replaced by the returned goal; a failure leaves the slot unchanged |
| UseApi.RemoveGoal | frontend/src/hooks/useApi.ts:190-199 | after a successful delete the goals with that id are dropped from the cached list; a failure leaves the slot unchanged |
| UseApi.UpdateRecord | frontend/src/hooks/useApi.ts:99-141 | after a successful profile or settings update the slot holds the returned record; a failure (including a missing token) leaves the slot unchanged |
| Validation.Dump | backend/app/services/routine_service.py:78 | `model_dump(exclude_unset=True)` of a list of fields: a key per sent field, `null` as null; stated by `DumpRecords` and `DumpOnly` |
| Validation.DumpRecords | backend/app/services/routine_service.py:78 | over distinct column names the dump records every field (present iff sent, `null` as null, otherwise its value) and holds no other key |
| Validation.DumpOnly | backend/app/services/routine_service.py:78 | when only one field is sent the dump is that one key, and when none is sent it is empty |
| Validation.ValidateRoutine | backend/app/models/routine.py:6-22 | an accepted routine satisfies every bound, carries the four required fields as sent and the defaults (0, 0, "good", 0, 0, 0) for the rest; a rejection names at least one field |
| Validation.RoutineRoundTrip | backend/app/models/routine.py:6-22 | sending every field of a routine and validating gives it back iff it satisfies the bounds |
| Validation.ValidateRoutineUpdate | backend/app/models/routine.py:25-35 | a rejected routine update names at least one failing field |
| Validation.RoutineUpdateKeepsValid | backend/app/models/routine.py:25-35 | the update model has the base model's bounds, so applying an accepted update to a valid routine (a `null` read as "leave it") gives a valid routine with the same date; when nothing is sent as `null`, merging the dumped row into the stored columns gives exactly that routine's columns |
| Validation.RoutineUpdateKeys | backend/app/models/routine.py:25-35 | an update row has a key for each of the nine fields iff it was sent, holding the sent value (a `null` as null), no other key, and never `date` |
| Validation.RoutineUpdateStored | backend/app/services/routine_service.py:76-88 | with no field sent as `null`, the stored columns with the dumped row merged in are the columns of the routine with the update applied |
| Validation.RoutineUpdateNullMood | backend/app/services/routine_service.py:76-88 | a body holding only `"morning_mood": null` is accepted and dumps `{morning_mood: null}`, so the merged row holds null where a stored routine never does |
| Validation.RoutineUpdateRow | backend/app/models/routine.py:25-35 | the dumped update row of the nine routine fields; stated by `RoutineUpdateKeys` and `RoutineUpdateStored` |
| Validation.RoutineUpdateIgnoresDate | backend/app/models/routine.py:25-35 | a `date` key in an update body changes nothing |
| Validation.RoutineDefaults | backend/app/models/routine.py:6-17 | a body with only the required fields is accepted with the declared defaults |
| Validation.RoutineMoodBounds | backend/app/models/routine.py:14 | `morning_mood` is accepted iff it is between 1 and 10, and a rejection names only that field |
| Validation.RoutineSleepBounds | backend/app/models/routine.py:10 | `sleep_duration_hours` is accepted iff it is between 0 and 24 |
| Validation.RoutineExerciseNonNegative | backend/app/models/routine.py:11 | `exercise_minutes` is accepted iff it is not negative |
| Validation.BreakfastQualityLiterals | backend/app/models/routine.py:13 | `breakfast_quality` is accepted iff it is one of poor, fair, good, excellent, and may not be sent as `null` |
| Validation.RoutineNeedsMood | backend/app/models/routine.py:14 | a routine without `morning_mood` is rejected, naming that field |
| Validation.ValidateProductivity | backend/app/models/productivity.py:6-24 | an accepted entry satisfies every bound, carries the required fields as sent and the declared defaults for the rest; a rejection names at least one field |
| Validation.ProductivityRoundTrip | backend/app/models/productivity.py:6-24 | sending every field of an entry and validating gives it back iff it satisfies the bounds |
| Validation.ValidateProductivityUpdate | backend/app/models/productivity.py:27-37 | a rejected productivity update names at least one failing field |
| Validation.ProductivityUpdateKeepsValid | backend/app/models/productivity.py:27-37 | applying an accepted update to a valid entry gives a valid entry with the same date and `routine_id`; when no field but `notes` is sent as `null`, merging the dumped row into the stored columns gives exactly that entry's columns |
| Validation.ProductivityUpdateKeys | backend/app/models/productivity.py:27-37 | an update row has a key for each of the eight fields iff it was sent, holding the sent value (a `null` as null), no other key, and never `date` or `routine_id` |
| Validation.ProductivityUpdateStored | backend/app/services/productivity_service.py:76-88 | with no field but `notes` sent as `null`, the stored columns with the dumped row merged in are the columns of the entry with the update applied (a `null` note stored as null) |
| Validation.ProductivityUpdateNullScore | backend/app/services/productivity_service.py:76-88 | a body holding only `"productivity_score": null` is accepted and dumps `{productivity_score: null}`, so the merged row holds null where a stored entry never does |
| Validation.ProductivityUpdateRow | backend/app/models/productivity.py:27-37 | the dumped update row of the eight productivity fields; stated by `ProductivityUpdateKeys` and `ProductivityUpdateStored` |
| Validation.ProductivityDefaults | backend/app/models/productivity.py:6-18 | a body with only the three required scores is accepted with the declared defaults |
| Validation.ProductivityLevelBounds | backend/app/models/productivity.py:11-17 | each of `productivity_score`, `energy_level` and `stress_level` is accepted iff it is between 1 and 10, and a rejection names only that field |
| Validation.ProductivityCountsNonNegative | backend/app/models/productivity.py:12-14 | `tasks_completed` and `focus_hours` are accepted iff they are not negative |
| Validation.MoreCompletedThanPlanned | backend/app/models/productivity.py:11-12 | no rule ties `tasks_completed` to `tasks_planned`: more tasks done than planned is accepted |
| Validation.ValidateProfile | backend/app/models/user.py:12-23 | an accepted profile satisfies the length limits and the gender literals; timezone and locale are the sent values or "UTC" and "en-US", and each of the seven optional fields is the sent value, or none when left out or sent as `null`; a rejection names at least one field |
| Validation.ValidateProfileUpdate | backend/app/models/user.py:32-44 | a rejected profile update names at least one failing field |
| Validation.ProfileDefaults | backend/app/models/user.py:12-23 | an empty profile body is accepted with every field unset except timezone "UTC" and locale "en-US" |
| Validation.ProfileLengthLimits | backend/app/models/user.py:15-44 | full name and occupation accept up to 100 characters, display name and timezone 50, locale 10, each in the base and in the update model |
| Validation.GenderLiterals | backend/app/models/user.py:19 | `gender` is accepted iff it is one of the four literals, and `null` is accepted |
| Validation.ProfileUpdateClearsTimezone | backend/app/models/user.py:20-40 | the base model refuses a `null` timezone while the update model accepts it and sends it as null |
| Validation.ValidateSettings | backend/app/models/user.py:68-96 | accepted settings satisfy every literal set and bound, and each of the seventeen fields is the sent value or its declared default; a rejection names at least one field |
| Validation.SettingsOfValid | backend/app/models/user.py:68-96 | a settings body without errors yields settings that satisfy every constraint |
| Validation.ValidateSettingsUpdate | backend/app/models/user.py:99-127 | a rejected settings update names at least one failing field |
| Validation.SettingsDefaults | backend/app/models/user.py:68-96 | empty settings are accepted with all seventeen declared defaults, and an empty update sends nothing |
| Validation.DateRangeBounds | backend/app/models/user.py:88-119 | `default_date_range` is accepted iff it is between 7 and 365, in the base and the update model |
| Validation.ThemeLiterals | backend/app/models/user.py:72 | `theme` is accepted iff it is light, dark or system |
| Validation.TimeFormatLiterals | backend/app/models/user.py:94 | `time_format` is accepted iff it is 12h or 24h |
| Validation.SettingsUpdateAcceptsNull | backend/app/models/user.py:72-103 | the update model accepts a `null` theme and sends it, where the base model refuses it |
| Validation.ValidateGoal | backend/app/models/user.py:161-174 | an accepted goal has a known type and the sent target, its unit as sent (none when left out or `null`), `is_active` defaulting to true and `reminder_enabled` to false; a rejection names at least one field |
| Validation.ValidateGoalUpdate | backend/app/models/user.py:177-183 | a rejected goal update names at least one failing field |
| Validation.GoalDefaults | backend/app/models/user.py:146-168 | a goal with a type and a target is accepted iff the type is one of the eleven goal types, with the defaults; a goal without target is rejected |
| Validation.GoalUpdateIgnoresType | backend/app/models/user.py:177-183 | a goal update ignores `goal_type` and never sends it |
| Validation.GoalUpdateActivates | backend/app/models/user.py:177-183 | an accepted update that sends `is_active: true` sends it as true, and only the four update fields at most |

## Left out

- Network, JSON and files: `fetch`, response-body parsing, `file.text()`, the CSV template download, the
  `pandas.read_csv` parse and the dataset's CSV write are not modelled. A response is its status and
  `detail`; a parsed CSV is its column set and rows, or the text of the exception `read_csv` raised; a file
  read is its outcome.
- Clock and locale: `new Date()`, `date.today()`, `toLocaleDateString` (`formatDate`), `isoformat()` and the
  "30 days before" step are parameters or given strings. `localeCompare` is plain lexicographic order.
  The generator numbers days by ordinal and does not spell them as ISO dates.
- Floating point: hours, averages, scores and the sleep-slice percentages are exact reals. `Math.round` of
  a slice percentage is taken of the exact `count / total * 100`, so it can differ from JavaScript's float
  result at a tie (29 of 200 nights gives 15 here and 14 in JavaScript); at the dashboard's fetch of at most
  ten rows the two agree. The final `round(..., 2)` of the summary averages is not modelled. `parseFloat`
  reads an optional sign, digits and an optional fraction; an exponent part is not read (`1e3` reads as 1),
  and `Infinity` reads as NaN.
- Randomness: `np.random.normal` is `mean + sd * z` with `z` an input. `randint` / `choice` are a pick
  modulo the number of choices, and exponential draws are inputs. The text of a note is chosen by
  (category, index) and is not otherwise modelled. The pandas DataFrame, `print_statistics` and the
  download step of the script are left out.
- Percent-encoding in `URLSearchParams` is the parameter `encode`.
- An error response's `detail` is an optional string. FastAPI's 422 answers carry a list there, which
  `error.detail || ...` passes on unchanged as the message; that list is not modelled.
- Pydantic type coercion (a string `"7"` accepted as an integer, date parsing) is left out: bodies arrive
  with values of the declared types. `EmailStr` checking is not modelled.
- `.single()` raises when zero or several rows match: PostgREST answers 406 and, with no exception handler
  registered, the client receives a 500. The model returns `None` there instead. In the source the routers'
  `if not ...: raise HTTPException(404)` after a `get` (for example `backend/app/api/routines.py:42-43`) is
  therefore never reached for a missing id.
- A negative range start (a `page` below 1) gives an empty page in the model; what PostgREST answers there
  is not modelled.
- A `page_size` of 0 is the model's `ZeroDivision` (Python's `ZeroDivisionError` in `total_pages`). A
  negative `page_size` makes the range end before it starts. The model then returns an empty page, with
  `total_pages` taken by Python's floor division. What PostgREST answers to such a range is not modelled.
- The tables' `NOT NULL` constraints are not modelled. An update body may send `null` for a column the base
  model requires, and the update model accepts it and writes it (`RoutineUpdateNullMood`,
  `ProductivityUpdateNullScore`). What the database then answers is not modelled.
- The FastAPI routers, auth delegation (`AuthContext`, Supabase auth, `core/auth.py`) and configuration
  are not part of this model. Neither are the JSX rendering, charts and layout, or the test doubles.
- Concurrency: overlapping fetches into one slot and React's batching of state updates are not modelled.
  Each handler runs to completion with its awaited outcomes given as inputs.
- The sign-up page's field setters and the redirect of a signed-in user are not modelled, since they are
  plain assignments and navigation.
- Preview rows are maps, so the column order in which the import page lists a row's keys is not modelled.
- UseApi.ReplaceById: its own contract states only that the length is kept; the replacement itself is
  stated by `ReplaceByIdSpec`.
- UseApi.RemoveById: its own contract states only that the list does not grow; which goals remain is
  stated by `RemoveByIdMembers` and `RemoveByIdAppend`.
- Validation.ValidateRoutineUpdate: its own contract states only that a rejection names a field; the
  accepted row is described by `RoutineUpdateKeys`, `RoutineUpdateIgnoresDate`, `RoutineUpdateStored` and
  `RoutineUpdateKeepsValid`.
- Validation.RoutineUpdateKeepsValid: the stored routine it proves valid reads a `null` as "leave the column
  as it is". The row actually written agrees with it only when nothing is sent as `null`
  (`RoutineUpdateStored`); a `null` is written as null (`RoutineUpdateNullMood`).
- Validation.ProductivityUpdateKeepsValid: the same, for every field but `notes` (`ProductivityUpdateStored`,
  `ProductivityUpdateNullScore`).
- Validation.ValidateProductivityUpdate: as for routines; see `ProductivityUpdateKeys`,
  `ProductivityUpdateStored` and `ProductivityUpdateKeepsValid`.
- Validation.ValidateProfileUpdate: its own contract states only that a rejection names a field; the
  accepted rows are stated by the lemmas `ProfileLengthLimits` and `ProfileUpdateClearsTimezone`.
- Validation.ValidateSettingsUpdate: the same; see `DateRangeBounds`, `SettingsUpdateAcceptsNull` and
  `SettingsDefaults`.
- Validation.ValidateGoalUpdate: the same; see `GoalUpdateIgnoresType` and `GoalUpdateActivates`.
- `UseApi.AsyncState.Clear` is not a transition of the hook. It exists only for the corrected reset in
  "## Findings" (`ImportAnotherFileClearingResult`); nothing else in the model calls it.

## Findings

| source | as written | input that shows it | evidently intended | confidence | as-written member | corrected member |
|---|---|---|---|---|---|---|
| frontend/src/app/dashboard/import/page.tsx:63-70 | "Import Another File" calls `handleReset`, which clears the file, the preview and the parse error but not `csvImport.data`; the buttons need `!csvImport.data` (line 231) | complete one import, press "Import Another File", then pick another `.csv` file: no Import button appears | the reset also clears the import result, so a second file can be imported | high, not executed | ImportPage.ImportPageState.ImportAnotherFileThenSelect | ImportPage.ImportPageState.ImportAnotherFileClearingThenSelect |
