# Inside-sales analyzer: a verified model of the aggregation core

This project models the core of the inside-sales analyzer in Dafny. The
analyzer turns a sales team's spreadsheets into monthly JSON reports. Those
spreadsheets are the staff's daily call reports, the deals entered in TAAAN,
the Sansan rejection log and the staff list. A Streamlit dashboard then
reads the reports. The model covers the parts of the system that compute
something. The Google Apps Script batch engine (`generateJson.js`) and its
configuration tree (`config.js`) form the main part. The dashboard's small
pure helpers (`utils/data_processor.py`, `common/helpers.py`,
`components/rankings.py`, `config.py`) make up the rest.

The modules follow the program's structure:

- `Common`, `PyText`, `Tables`, `Cells`, `Dates` hold the shared
  vocabulary. It covers optional values and string order, digit strings
  and zero padding, and Python's `split` / `int()` / `replace` / `pathlib`
  suffix. It also covers a JavaScript object used as an insertion-ordered
  dictionary, JavaScript cell values with truthiness, `||`, `String()`,
  `parseFloat` and `safeNumber`, and calendar dates with their
  `toISOString` month and day keys, `fixOutlierDate` and
  `getMonthsBetween`.
- `Sheets` turns spreadsheet rows into the normalised records. It covers
  the two-row grouped header, records keyed by header and the
  prefixed-then-bare field lookup. It also covers the main activity and
  the at most three sub-product slots, the staff map, and the daily and
  deal records of the analysis and retention pipelines.
- `Join` matches each daily report to the first deal and the first Sansan
  rejection with the same day and staff (`findMatch`), then composes the
  company report.
- `Rollup` holds the monthly rollup of `generateAnalysisJson`. The activity
  fold opens month buckets with branch, product and staff tables. The deal
  fold counts each deal of an existing month once, into one product and
  one staff bucket and at most one branch bucket. Then come the rate pass
  and the period totals.
- `Funnel` builds the monthly conversion funnel (appointments → TAAAN
  entries → approved deals) with its null-safe ratios.
- `Retention` is the retention and churn-risk engine. It covers the
  per-worker monthly histories, the five weighted risk factors with the
  code's `||` defaults, the high / medium / low tiers, the monthly
  retention rate and the branch rollup.
- `Report` holds `generateMonthlySummary` (key metrics, deal breakdown,
  top staff by calls, critical-before-warning alerts) and
  `generateBranchProductCrossAnalysis`. The latter spreads each worker's
  deals over the month's products in proportion to the products' deal
  counts, rounding each cell with `Math.round`.
- `ConfigTree` holds the `CONFIG` tree of `config.js` as a class.
  - The class holds the tree. Its methods are `getConfig`, `updateConfig`
    (in place), `validateConfig`, `exportConfig` and `importConfig`
    (wholesale replacement).
  - It also holds the shipped default configuration.
- `DataProcessor`, `Helpers`, `Rankings`, `AppConfig` hold the dashboard
  helpers. They cover month discovery from report file names, report
  lookup and the flattening of daily activity. They also cover both
  month-list functions (one includes the given month, one excludes it),
  month-format and file-name checks, working-day counting, guarded
  arithmetic, competition ranking with ties, the upload check and yes/no
  environment settings.

Loops in the source are methods with loop invariants, proved against the
specification functions the rest of the model reasons with. The
configuration store is a class whose methods update its tree. Inputs that
come from outside are parameters. These are the sheet contents, the date
parser, the current year, the JST conversion and the environment.

## Model

| member | source | states |
|---|---|---|
| Dates.MonthKey | generateJson.js:468-471 | `getMonthFromDate`: no date gives null; a date gives the seven-character `YYYY-MM` head of its ISO text |
| Dates.MonthKeySameMonth | generateJson.js:468-471 | for four-digit years two dates share a month key iff they fall in the same calendar month |
| Dates.MonthKeyText | generateJson.js:470 | the month key of a four-digit-year date is its `YYYY-MM` text |
| Dates.BeforeT | generateJson.js:347-348 | `split('T')[0]` is the longest prefix holding no `T`, and a `T` follows it whenever it is not the whole text |
| Dates.DayKeyIsDateText | generateJson.js:347-349 | the date part `findMatch` compares is the `YYYY-MM-DD` part of the ISO text |
| Dates.DayKeySameDay | generateJson.js:345-350 | for four-digit years two dates compare equal in `findMatch` iff they fall on the same calendar day |
| Dates.FixOutlierDate | generateJson.js:134-144 | no date stays no date; a year from 2010 on is kept as is; an earlier year becomes the current year with month, day and time kept (29 February rolls to 1 March in a non-leap year, as `setFullYear` does) |
| Dates.FixOutlierDateIdempotent | generateJson.js:134-144 | repairing a repaired date changes nothing once the current year is 2010 or later |
| Dates.MonthsBetween | generateJson.js:481-486 | 0 when either date is missing, else the difference of the dates' month counts since year 0 |
| Dates.MonthsBetweenChain | generateJson.js:481-486 | month distances are antisymmetric, add up along a chain, and are 0 iff both dates are in the same calendar month |
| Cells.Or | generateJson.js:239 | `a \|\| b` gives `a` when truthy, else `b`; the result is truthy iff either operand is (also generateJson.js:579) |
| Cells.TruthyKeyNonEmpty | generateJson.js:575 | a truthy header cell never renders as the empty key |
| Cells.ParseFloatSkipsSpace | generateJson.js:476 | leading white space does not change what `parseFloat` reads |
| Cells.ParseFloatNatPrefix | generateJson.js:476 | `parseFloat` reads the numeric prefix of a text such as `120件`, with or without a minus sign |
| Cells.ParseFloatNoNumber | generateJson.js:476 | text starting with no sign, digit or point after white space reads as NaN |
| Cells.TextToNumber | config.js:176 | text compared with a number by `<` is converted whole: white space alone is 0, one decimal literal with white space around it is the value `parseFloat` reads, anything else NaN |
| Cells.TextToNumberOfNatText | config.js:176 | the decimal text of a natural number converts to that number |
| Cells.TextToNumberWhole | config.js:176 | unlike `parseFloat`, the conversion refuses trailing text: `45px` is NaN while `parseFloat` reads 45 |
| Cells.SafeNumber | generateJson.js:474-478 | null, undefined and `''` give 0; a number is itself; text gives its `parseFloat` value or 0 for NaN; it is total |
| Cells.SafeNumberOfCount | generateJson.js:474-478 | a count followed by a unit reads as that count |
| Cells.SafeNumberOfWord | generateJson.js:474-478 | text holding no number counts as 0 |
| Tables.Put | generateJson.js:640-641 | `obj[k] = v`: the key is present with value `v`, every other key keeps its value and presence, an existing key keeps its place and a new key goes to the end of the key order (for keys that are not array indices) |
| Tables.MapValues | generateJson.js:968-1000 | transforming every value keeps the keys and their order |
| Tables.SumPut | generateJson.js:1027-1042 | assigning one key moves a sum over the table by the difference between new and old value |
| Tables.AssignedLastWins | generateJson.js:496-505 | after a run of assignments a key is present iff it was assigned, with the value of its last assignment |
| Sheets.ActiveGroupIsLastLabel | generateJson.js:262-267 | the group in force is the last non-blank group cell so far, or none when all were blank |
| Sheets.BuildHeaders | generateJson.js:262-277 | one header per column, each built from the column cell and the group in force at that column |
| Sheets.HeaderBlankIffColumnBlank | generateJson.js:269-276 | a header is `''` exactly when its column cell is blank |
| Sheets.BuildRecord | generateJson.js:573-576 | the record built column by column equals the header-to-cell map |
| Sheets.RecordOfLastColumnWins | generateJson.js:573-576 | a header is a key iff some column carries it, and it holds the cell of the last such column |
| Sheets.Field | generateJson.js:579-587 | the grouped column when it holds a truthy value, else the bare column |
| Sheets.MainActivity | generateJson.js:579-587 | the main product is read with the grouped-then-bare fallback |
| Sheets.UsedSlots | generateJson.js:590-606 | at most the scanned number of slots; every listed product is truthy and not `終了`; exactly the used slots are listed |
| Sheets.ExtractSubProducts | generateJson.js:590-606 | the slot loop over 1..3 yields exactly the used slots |
| Sheets.SafeDate | generateJson.js:433-434 | a falsy cell is no date |
| Sheets.BuildStaffMap | generateJson.js:494-505 | the staff loop equals the map built from the rows after the title row |
| Sheets.StaffMapLastRowWins | generateJson.js:496-505 | a name is listed iff a row after the title carries it, with the join date and branch of its last such row |
| Sheets.AnalysisDaily | generateJson.js:572-631 | repaired date and its month key, the author, branch and join date from the staff list or null, main activity and used sub-product slots |
| Sheets.RetentionDaily | generateJson.js:1510-1546 | the unrepaired date and its month key, staff-list branch and join date or null, main activity, no sub-products |
| Sheets.AnalysisDeal | generateJson.js:527-543 | a deal dated by its meeting start, its commission through `safeNumber`, its raw status cell |
| Join.MergeDealOf | generateJson.js:232-248 | deals are dated by creation time; the product falls back to the service name; commission and inline reason are truthy iff their cells are |
| Join.RejectionOf | generateJson.js:216-226 | a rejection dated by its month cell, the detail falling back from `FB詳細` to `却下理由` |
| Join.MergeDailyOf | generateJson.js:279-339 | report id `idx + 1`, the repaired date, and the join date of the staff list or null |
| Join.DealKeys | generateJson.js:343-355 | each deal is compared on its calendar date and `String(staff)` |
| Join.RejectionKeys | generateJson.js:216-226 | a rejection row has no staff field, so its staff compares as `"undefined"` (also generateJson.js:351) |
| Join.FindFirst | generateJson.js:343-355 | nothing iff no element has the key; otherwise the first element that has it |
| Join.RejectionMatchNeedsUndefinedStaff | generateJson.js:216-226 | a report by a worker whose name does not render as `undefined` never matches a Sansan rejection (also generateJson.js:343-359) |
| Join.CompanyReportOf | generateJson.js:361-405 | product from the main product; with no matching deal no status and no deal info; with one, `承認` iff its commission is truthy else `却下`; Bill One reasons from the rejection log, others from the deal's inline reason, else `{}` |
| Join.DealStatusIffMatch | generateJson.js:358-378 | a status is set iff some deal shares the day and author; it is `承認` iff the first such deal has a truthy commission |
| Join.BillOneReasonNeverAttaches | generateJson.js:361 | a Bill One report by a named worker never receives a rejection reason (also generateJson.js:381-388) |
| Join.MergeAll | generateJson.js:341-428 | one merged report per daily report, in order, with its id, author, call figures and company report |
| Rollup.AddWork | generateJson.js:682-684 | adding a report's work changes calls, hours and appointments only, by the amounts given |
| Rollup.ReportWork | generateJson.js:767-776 | a report adds its main product's calls plus every sub-product's calls, and leaves the deal counts alone |
| Rollup.CountDeal | generateJson.js:818-827 | a counted deal adds one deal, one approval or one rejection as its status says, and its commission to revenue when approved or to potential revenue when pending |
| Rollup.DailyStaffOk | generateJson.js:747-776 | the staff buckets stay consistent, keep their deal total and gain exactly the report's calls |
| Rollup.DailyBranchesOk | generateJson.js:662-697 | the branch buckets stay consistent and keep their deal total under the activity fold |
| Rollup.DailyProductsOk | generateJson.js:700-745 | the product buckets stay consistent and keep their deal total under the activity fold |
| Rollup.AddDailyOk | generateJson.js:637-797 | one daily report keeps the month invariant: buckets consistent, deals in exactly one product and one staff bucket and at most one branch bucket, staff calls summing to the month's calls |
| Rollup.ActivityStepOk | generateJson.js:637-659 | a report with a month opens that month if needed and keeps the invariant of every month |
| Rollup.DealBranchesOk | generateJson.js:830-871 | a deal whose worker has a branch with a bucket that month counts there; one whose worker's branch has no bucket counts nowhere; one whose worker has no branch counts in `未設定`, opened if needed; the branch deal total grows by one except in the second case |
| Rollup.DealProductsOk | generateJson.js:873-925 | a deal lands in exactly one product bucket, its product's or `未設定`, and the product buckets stay consistent |
| Rollup.DealStaffOk | generateJson.js:927-965 | a deal lands in exactly one staff bucket, its worker's if present that month else `未設定`, and the staff calls are unchanged |
| Rollup.AddDealOk | generateJson.js:806-965 | a counted deal adds one to the month's deals, one to the product and staff deal totals, and at most one to the branch deal total |
| Rollup.DealStepTouchesOneMonth | generateJson.js:800-806 | a deal with no date or no month bucket changes nothing; otherwise only its own month changes and no month is added |
| Rollup.DealStepOk | generateJson.js:800-965 | the deal fold keeps the invariant of every month |
| Rollup.FoldDealsKeepsMonths | generateJson.js:800-804 | the deal fold never opens a month |
| Rollup.FoldActivitiesOk | generateJson.js:637-797 | every month built by the activity fold satisfies the month invariant |
| Rollup.FoldDealsOk | generateJson.js:800-966 | every month still satisfies the invariant after the deal fold, so approved + rejected ≤ deals everywhere |
| Rollup.ActivityFold | generateJson.js:637-797 | the activity loop equals the fold over the daily reports |
| Rollup.DealFold | generateJson.js:800-966 | the deal loop equals the fold over the deals |
| Rollup.Round2Bounds | generateJson.js:974 | `toFixed(2)` moves a value by at most half a hundredth and keeps it within 0..100 |
| Rollup.RateOf | generateJson.js:973-975 | a bucket with deals gets a percentage; one without keeps its previous rate |
| Rollup.RateOfBounds | generateJson.js:973-975 | every rate lies between 0 and 100 |
| Rollup.RatePass | generateJson.js:969-1000 | the rate pass keeps the months and their order and gives each month its rates |
| Rollup.RatesAfterPass | generateJson.js:969-1000 | after the pass a month with deals has a rate in 0..100 and one without stays without; so does each product bucket, whose rate stays 0 without deals |
| Rollup.PeriodTotalsConsistent | generateJson.js:1027-1037 | the period totals satisfy approved + rejected ≤ deals |
| Rollup.PeriodSummary | generateJson.js:1027-1042 | the period loop sums every month and the overall rate is taken from those sums |
| Rollup.PeriodRateBounds | generateJson.js:1039-1042 | the overall rate is a percentage in 0..100 when there are deals and 0 otherwise |
| Rollup.RejectedFieldAsWrittenIsNaN | generateJson.js:701-712 | a product bucket opened by a main product and then given a rejection holds NaN as its rejected count (also generateJson.js:895) |
| Rollup.RejectedCountedFromZero | generateJson.js:724-738 | a product bucket whose rejected count starts at 0 counts every rejection (also generateJson.js:895) |
| Rollup.RejectedCount | generateJson.js:818-827 | counting deals from zero gives exactly the number of rejections |
| Funnel.CountAppointments | generateJson.js:1071-1080 | adding self-reported appointments changes only the appointment count |
| Funnel.CountEntry | generateJson.js:1092-1105 | a TAAAN entry adds one entry, and one approval exactly when the deal is approved |
| Funnel.AddAppointmentsOk | generateJson.js:1073-1080 | adding appointments to a bucket (opened at zero when missing) keeps the breakdown summing to the total |
| Funnel.AddEntryOk | generateJson.js:1093-1105 | adding an entry to a bucket keeps approvals ≤ entries in every bucket and the breakdown summing to the total |
| Funnel.FunnelDailyOk | generateJson.js:1048-1081 | a daily report keeps each breakdown (staff, branch, product, with `未設定` for missing keys) sound against the month total |
| Funnel.FunnelDealOk | generateJson.js:1084-1107 | a deal keeps each breakdown sound against the month total |
| Funnel.FunnelDailyFoldOk | generateJson.js:1048-1081 | every month of the appointment fold has sound breakdowns |
| Funnel.FunnelDealFoldOk | generateJson.js:1084-1107 | every month stays sound through the deal fold, so approved deals ≤ TAAAN entries in every bucket |
| Funnel.FunnelDailyLoop | generateJson.js:1048-1081 | the appointment loop equals the fold over the daily reports |
| Funnel.FunnelDealLoop | generateJson.js:1084-1107 | the TAAAN loop equals the fold over the deals |
| Funnel.RatiosOf | generateJson.js:1113-1115 | the TAAAN and true approval ratios are null iff appointments are not positive; the approval ratio is null iff there are no entries |
| Funnel.RatiosOfSoundBucket | generateJson.js:1113-1115 | in a sound bucket the approval ratio lies in 0..1 and the true approval ratio is the product of the other two |
| Funnel.FunnelRatePass | generateJson.js:1110-1137 | the ratio pass keeps the months and their order and rates every bucket of each month |
| Funnel.ConversionRatesBounded | generateJson.js:1110-1137 | after the pass every defined approval ratio of a sound month lies in 0..1: in the total and in every staff, branch and product bucket |
| Retention.ZeroSettingFallsBack | generateJson.js:1657-1710 | a setting configured as 0 falls back to the code's default, because settings are read with `\|\|` |
| Retention.NoRiskScoringUsesDefaults | generateJson.js:1653-1654 | a configuration without a `risk_scoring` object gives the code's defaults 30/25/20/15/10, 50/5/2/3/10/10 and 50/30 (also generateJson.js:1708-1710) |
| Retention.ShippedSettings | config.js:36-59 | the shipped configuration gives weights 50/10/40/15/10 instead of the code's 30/25/20/15/10, and the shipped factor and tier thresholds (also generateJson.js:1653-1710) |
| Retention.ShippedWeights | config.js:37-43 | the shipped weights section reads as 50/10/40/15/10 through the `\|\|` defaults |
| Retention.ShippedFactors | config.js:51-58 | the shipped factor thresholds read as 50/5/2/3/10/10 |
| Retention.ShippedThresholds | config.js:45-48 | the shipped tier thresholds read as 50 and 30 |
| Retention.BuildHistories | generateJson.js:1552-1605 | the history loop equals the fold over the reports |
| Retention.RecordOk | generateJson.js:1573-1602 | a report adds one active day to its month and to its author's totals, with the main product's calls, hours and appointments, keeping the totals equal to the sums of the months |
| Retention.HistoryStepOk | generateJson.js:1552-1605 | a report without author or date changes nothing; otherwise it opens or extends its author's history and every history stays totalled |
| Retention.HistoryStepDays | generateJson.js:1553 | the active days over all workers grow by one exactly for a report with author and date (also generateJson.js:1599) |
| Retention.FoldHistoriesOk | generateJson.js:1552-1605 | every history is totalled and the active days over all workers equal the number of reports with author and date |
| Retention.ActiveMonthsBound | generateJson.js:1639-1643 | a worker is active in no more months than were seen overall |
| Retention.ActivityRateBounds | generateJson.js:1643 | the monthly activity rate lies in 0..100 |
| Retention.LastThree | generateJson.js:1665 | `slice(-3)` keeps the last three months, or all of them when there are fewer |
| Retention.RecentAreLatest | generateJson.js:1665-1669 | the recent months are the latest three active months in text order |
| Retention.VarianceNonNegative | generateJson.js:1698-1701 | the variance of active days per month is never negative |
| Retention.ConstantDaysStable | generateJson.js:1698-1701 | equal active days in every month give mean `d` and variance 0 |
| Retention.ScoreBounds | generateJson.js:1649-1705 | the score lies between 0 and the sum of all weights, and is 0 iff no factor fired (for positive weights) |
| Retention.ScoreMonotone | generateJson.js:1649-1705 | firing more factors never lowers the score |
| Retention.LevelOf | generateJson.js:1709-1721 | high iff score ≥ the high threshold; medium iff below it and ≥ the medium threshold; low otherwise |
| Retention.ShippedLowActivityAloneIsHigh | generateJson.js:1656-1660 | under the shipped settings low activity alone (weight 50) makes a worker high risk (also generateJson.js:1713) |
| Retention.Assess | generateJson.js:1649-1721 | a worker's level is the level of its score, and its score is the weighted sum of its fired factors |
| Retention.TiersPartition | generateJson.js:1713-1721 | every worker is listed in exactly one of the high, medium and low lists, the one its level names, and no one else is |
| Retention.AssessAll | generateJson.js:1629-1744 | one assessment per worker, keyed and ordered as the histories |
| Retention.RiskPass | generateJson.js:1629-1744 | the per-worker loop gives each worker's assessment and the three tier lists |
| Retention.PushAll | generateJson.js:1713-1721 | pushing each worker to its tier list gives the tiers of all workers |
| Retention.ActiveWithinEnrolled | generateJson.js:1752-1762 | the active workers of a month are among those enrolled by then, who are among all workers |
| Retention.RetentionBounds | generateJson.js:1748-1771 | a month's active count ≤ enrolled count ≤ workers, and its rate lies in 0..100 |
| Retention.RetentionTableRows | generateJson.js:1747-1771 | the table lists the months in the order given, each with its own row |
| Retention.CountMonth | generateJson.js:1752-1770 | the counting loop gives the month's row |
| Retention.MonthlyRetention | generateJson.js:1746-1771 | one row per month seen, in sorted order |
| Retention.BranchFoldNext | generateJson.js:1775-1810 | the branch loop takes one worker at a time in key order |
| Retention.BranchStepTotal | generateJson.js:1775-1810 | counting one worker into its branch bucket (`未分類` when it has none, a fresh zero bucket when the branch is new) adds exactly one to the sum of the branch totals |
| Retention.BranchFoldOk | generateJson.js:1775-1810 | in every branch bucket the high, medium and low counts add up to the branch's workers, and the active workers are among them |
| Retention.BranchFoldTotal | generateJson.js:1775-1810 | the branch buckets together hold every worker exactly once: their totals add up to the number of workers |
| Retention.BranchRollup | generateJson.js:1775-1819 | the branch loop and the averaging pass give the averaged branch statistics |
| Retention.AverageRateBounds | generateJson.js:1813-1818 | a branch's average activity rate lies in 0..100 |
| Retention.LowPerformanceAlwaysFiresAsWritten | generateJson.js:1587-1602 | as written, every worker with a report has NaN call totals, an appointment rate of 0 and the low-performance factor fired (also generateJson.js:1677-1678) |
| Retention.LowPerformanceFromMainProduct | generateJson.js:1533-1543 | with the main product's fields a worker with 100 calls and 5 appointments does not fire the factor, while the code as written does (also generateJson.js:1677-1678) |
| Report.ShippedAlertThresholds | config.js:8-23 | under the shipped configuration the alert thresholds are 60/50 (approval), 10/15 (high-risk workers) and 30/20 (retention) (also generateJson.js:1950-1955) |
| Report.ShippedAlertValues | config.js:8-23 | each shipped alert threshold replaces the code's default (60/50, 3/5, 70/60) (also generateJson.js:1950-1955) |
| Report.BelowAlert | generateJson.js:1958-1973 | a critical alert iff the value is below the critical threshold, else a warning iff below the warning threshold; at most one, carrying the value; no alert for a missing rate (also generateJson.js:1993-2008) |
| Report.AtLeastAlert | generateJson.js:1976-1990 | a critical alert iff the count reaches the critical threshold, else a warning iff it reaches the warning threshold |
| Report.RateValue | generateJson.js:1958 | `parseFloat` of a missing rate is NaN, so no value; any set rate has one |
| Report.AlertsOrdered | generateJson.js:1956-2010 | at most three alerts, at most one per kind, in the order approval, high-risk workers, retention; none about approval when the month has no rate |
| Report.StaffRows | generateJson.js:1915-1932 | one row per staff bucket of the month, in key order |
| Report.SortByCallsPermutes | generateJson.js:1934-1936 | sorting by calls keeps exactly the same rows |
| Report.SortByCallsStable | generateJson.js:1934-1936 | the rows come out by calls descending, and rows with equal calls keep their order |
| Report.SliceEnd | generateJson.js:1938 | `slice(0, n)` keeps `floor(n)` rows, or all of them when there are fewer |
| Report.ShippedTopCount | config.js:64 | the shipped configuration asks for the top 10 (also generateJson.js:1914) |
| Report.TopStaffBusiest | generateJson.js:1914-1940 | the top list is the first rows of the sorted staff rows; none left out has more calls than one kept; with 10 asked, min(10, workers) rows |
| Report.RowsByNameKeys | generateJson.js:1938-1940 | keying the kept rows by name keeps every row and its order |
| Report.SortedNamesDistinct | generateJson.js:1915-1936 | the sorted rows carry distinct names |
| Report.JsRoundBounds | generateJson.js:2069 | `Math.round` moves a value by at most one half |
| Report.AddCellTotal | generateJson.js:2063-2069 | adding a share to a cell (opened at 0) adds it to the grid total |
| Report.AllocateOneGrid | generateJson.js:2054-2088 | one product's allocation adds the rounded share of each of the three measures to its branch/product cell |
| Report.AllocateProductsTotal | generateJson.js:2054-2090 | allocating a worker over the products adds the sum of the rounded shares to the grid total |
| Report.StaffStepTotal | generateJson.js:2032-2091 | one worker adds its allocated amount to the grid total |
| Report.CrossFoldTotal | generateJson.js:2032-2091 | the grid total is the sum of every worker's allocated amounts |
| Report.ExactSharesValue | generateJson.js:2047-2057 | the unrounded shares of a worker add up to its amount times the share of the products listed |
| Report.RoundedShares | generateJson.js:2069 | the rounded shares differ from the exact ones by at most one half per product (also generateJson.js:2078, generateJson.js:2087) |
| Report.StaffAllocationDrift | generateJson.js:2042-2090 | a worker's allocated amount is within half a unit per product of its own deals, approvals or revenue |
| Report.AllocationBase | generateJson.js:2043-2050 | the product deal total used for the ratios equals the month's deal count |
| Report.ProductTotal | generateJson.js:2043-2050 | the product loop sums the products' deal counts |
| Report.AllocateStaff | generateJson.js:2054-2090 | the inner loop allocates one worker over every product in key order |
| Report.CrossAnalysis | generateJson.js:2017-2095 | `generateBranchProductCrossAnalysis` gives the cross analysis of the month, empty when the month is missing |
| Report.ActiveStaffCount | generateJson.js:1943-1947 | the active workers are among all workers |
| Report.StaffArray | generateJson.js:1915-1932 | the staff loop builds the staff rows in key order |
| Report.MonthAlerts | generateJson.js:1956-2010 | the alert steps give the month's alerts |
| Report.MonthlySummary | generateJson.js:1832-2014 | `generateMonthlySummary` gives the month's summary, none when the month is missing |
| Report.SummaryBreakdown | generateJson.js:1855-1860 | pending = deals − approved − rejected ≥ 0, so the breakdown adds up to the month's deals |
| Report.SummaryRiskCounts | generateJson.js:1862-1872 | the high, medium and low counts add up to the workers, and the active workers are among them |
| ConfigTree.SplitDots | config.js:136 | `path.split('.')` gives at least one piece, none holding a dot |
| ConfigTree.JoinSplitDots | config.js:136 | joining the pieces of a path with dots gives the path back |
| ConfigTree.SplitJoinDots | config.js:136 | splitting a dot-joined list of dot-free keys gives the keys back |
| ConfigTree.GetPathAppend | config.js:135-148 | reading `a.b` is reading `b` in what `a` reads |
| ConfigTree.AssignWellFormed | config.js:163 | assigning a leaf keeps the tree well formed (keys listed once, in order) |
| ConfigTree.UpdateOutcomeAsWritten | config.js:151-165 | as written: `Invalid config path` iff some intermediate key is missing or its parent is no object; a TypeError iff the parent is null; otherwise reported as updated, even below a number, text or boolean |
| ConfigTree.UpdateOutcome | config.js:151-165 | `Invalid config path` iff some intermediate key is missing; updated iff the parent reached is an object |
| ConfigTree.AssignThenGet | config.js:155-164 | after assigning a value at a path whose parent is an object, reading the path gives that value, a new leaf included |
| ConfigTree.AssignKeepsOthers | config.js:155-164 | assigning at a path leaves every path that neither equals nor extends it unchanged |
| ConfigTree.UpdatePrimitiveParentAsWritten | config.js:155-164 | as written, updating `monthly_summary.top_staff_count.limit` reports success yet stores nothing, and reading the path back gives null |
| ConfigTree.DefaultTopStaffCount | config.js:64 | the shipped `monthly_summary.top_staff_count` is 10 |
| ConfigTree.AssignBelowPrimitive | config.js:163 | assigning below a number, text or boolean leaves the tree as it was |
| ConfigTree.UpdatedReadsBack | config.js:151-165 | after a successful update the path reads back the new value |
| ConfigTree.SafeChainAgrees | config.js:177 | a property chain that never meets null or undefined reads the same value as the checked walk (also config.js:181) |
| ConfigTree.Errors | config.js:169-183 | the missing-sections error is listed iff a section is missing, the approval error iff warning < critical and the risk error iff high < medium, each `<` as JavaScript evaluates it (`JsLess`); at most three |
| ConfigTree.ToPrimitive | config.js:176 | a plain object becomes the text `[object Object]` before `<` compares it; no result is an object |
| ConfigTree.JsLessNumericText | config.js:176 | a threshold stored as decimal text is compared with a number by its value, on either side of `<` |
| ConfigTree.JsLessObjectText | config.js:176 | an object compared with text is compared as the text `[object Object]` |
| ConfigTree.TextThresholdOutOfOrder | config.js:176-178 | a warning threshold of `"45"` against a critical threshold of 50 is reported as out of order |
| ConfigTree.ValidationOf | config.js:185-188 | valid iff the error list is empty |
| ConfigTree.ValidateConfigAsWritten | config.js:168-189 | as written, the check returns iff the configuration is not null and all four thresholds' parent objects exist; otherwise it throws a TypeError |
| ConfigTree.ValidateConfig | config.js:168-189 | valid iff the error list is empty |
| ConfigTree.ValidateRefinesAsWritten | config.js:168-189 | wherever the code returns, the model returns the same result |
| ConfigTree.ValidateEmptyThrows | config.js:172-177 | as written, validating `{}` throws after recording the missing sections; the model reports the missing sections instead |
| ConfigTree.DefaultConfigWellFormed | config.js:4-132 | the shipped configuration tree is well formed |
| ConfigTree.DefaultApprovalThresholds | config.js:8-11 | the shipped approval thresholds are 60 (warning) and 50 (critical) |
| ConfigTree.DefaultRiskThresholds | config.js:45-48 | the shipped risk thresholds are 50 (high) and 30 (medium) |
| ConfigTree.DefaultValidates | config.js:168-189 | the shipped configuration passes validation with no errors, both as written and in the model (also config.js:8-11, config.js:45-48) |
| ConfigTree.DefaultSections | config.js:172 | the shipped configuration has both required sections (also config.js:6, config.js:34) |
| ConfigTree.ValidWhenOrdered | config.js:168-189 | any configuration with both sections and ordered numeric thresholds is valid |
| ConfigTree.ImportAsWritten | config.js:197-207 | as written: unparsable text leaves the configuration and reports `Invalid JSON format`; parsed text always replaces the configuration |
| ConfigTree.ImportEmptyAsWritten | config.js:172-177 | as written, importing `{}` replaces the configuration yet reports `Invalid JSON format` (also config.js:197-207) |
| ConfigTree.ConfigStore.constructor | config.js:4-132 | a new store holds the shipped configuration |
| ConfigTree.ConfigStore.Get | config.js:135-148 | `getConfig` returns the value at the dotted path, null as soon as a key is missing or the value reached is no object |
| ConfigTree.ConfigStore.Update | config.js:151-165 | `updateConfig` reports the outcome of the path; on success the tree is the old one with the leaf assigned and the path reads back the value; otherwise nothing changes |
| ConfigTree.ConfigStore.Validate | config.js:168-189 | `validateConfig` on the current tree; valid iff no errors |
| ConfigTree.ConfigStore.Export | config.js:192-194 | the export is the current tree |
| ConfigTree.ConfigStore.Import | config.js:197-207 | unparsable text leaves the tree and reports one `Invalid JSON format` error; parsed text replaces the tree and returns its validation |
| ConfigTree.ExportImportRoundTrip | config.js:192-201 | exporting and importing the export restores the same configuration and returns its validation |
| Helpers.ParseStart | common/helpers.py:13-15 | a readable argument is seven characters long and splits at `-` into exactly two sides that `int()` reads, the month 1..12; the result is the month those two numbers name, within the years 1..9999 that `datetime` accepts |
| Helpers.ParseStartLoose | common/helpers.py:13-15 | the check is looser than `YYYY-MM`: `202-003` and `+202-03` both read as March of year 202 |
| Helpers.ParseLabel | common/helpers.py:13-15 | every month label is seven characters and parses back to its month (also common/helpers.py:21) |
| Helpers.LabelInjective | common/helpers.py:21 | distinct months have distinct labels |
| Helpers.Back32 | common/helpers.py:19-20 | 32 days before the first of a month, moved to the first of that month, is always two months back |
| Helpers.MonthBefore32Days | common/helpers.py:19-20 | the step of the loop as written moves two months back |
| Helpers.Walk2Shape | common/helpers.py:18-22 | the loop as written overflows iff it would pass January of year 1; otherwise its j-th month is `2(j + 1)` months back |
| Helpers.PrevMonthsLoop | common/helpers.py:17-24 | the loop appends the formatted months of its walk, and the result is reversed |
| Helpers.GetPrevMonthsAsWritten | common/helpers.py:10-28 | `get_prev_months` as written: `[]` for an unreadable argument, else the loop from the parsed month |
| Helpers.AsWrittenList | common/helpers.py:17-24 | as written the list holds every other month, oldest first |
| Helpers.PreviousNotListed | common/helpers.py:19-24 | as written the month just before the argument is never listed |
| Helpers.AsWrittenSkipsMonths | common/helpers.py:10-24 | as written, `2024-03` with n = 3 gives `2023-09, 2023-11, 2024-01`: every other month, never the previous one |
| Helpers.Walk1Shape | common/helpers.py:18-22 | stepping back one month at a time, the j-th month is `j + 1` months back, overflowing iff January of year 1 is passed |
| Helpers.BeforeFromShape | common/helpers.py:10-24 | the corrected list is the n consecutive months before the argument, oldest first, ending with the month just before it |
| Helpers.PrevMonthsBeforeShape | common/helpers.py:10-28 | the corrected `get_prev_months`: `[]` for an unreadable argument, else n consecutive months ending just before the argument, which is never listed |
| Helpers.ValidateMonthFormatLabels | common/helpers.py:30-35 | every month label passes the format check, and so does any `YYYY-MM` text, a month number out of range such as 13 included |
| Helpers.ExtractMonth | common/helpers.py:37-47 | a month is found only when the name (before one final newline) ends in `_` + the month + `.json`, and the month passes the format check |
| Helpers.ExtractMonthRoundTrip | common/helpers.py:42-46 | a name ending in `_YYYY-MM.json`, with or without a final newline, gives back its month |
| Helpers.ExtractMonthNeedsJson | common/helpers.py:43-47 | a name that does not end in `.json` gives no month |
| Helpers.CountWorkedBounds | common/helpers.py:59-75 | the working days are at most the activities; all of them iff every activity has calls; none iff none has |
| Helpers.CalculateWorkingDays | common/helpers.py:49-77 | 0 for an absent worker; otherwise the number of activities with main calls or some sub-product calls, at most the number of activities |
| Helpers.SafeDivide | common/helpers.py:91-98 | the default when the denominator is 0 or either value is missing; otherwise the quotient |
| Helpers.Round1 | common/helpers.py:144 | `round(x, 1)` gives a whole number of tenths within half a tenth of `x`, an exact tie going to the even tenth |
| Helpers.RoundHalfEven | common/helpers.py:144 | the result is an integer within one half of `x`, and at an exact half it is the even one |
| Helpers.Round1Unique | common/helpers.py:144 | the three clauses of `Round1` single out one value: any tenth meeting them is `Round1(x)` |
| Helpers.PercentageChange | common/helpers.py:137-146 | 0 when either value is missing or the previous one is 0; otherwise the relative change in percent rounded by `Round1`, so within 0.05 of it |
| Helpers.PercentageChangeTie | common/helpers.py:144 | 17 against 16 is a change of exactly 6.25 %, which rounds to the even 6.2 |
| Helpers.PercentageChangeSign | common/helpers.py:137-146 | no change gives 0, growth a non-negative and decline a non-positive change |
| Helpers.LatestMonthIsMaximum | common/helpers.py:113-123 | none iff the list is empty; otherwise a member of the list no smaller in text order than any other |
| DataProcessor.MonthOfName | utils/data_processor.py:42-46 | a month is taken only from a name holding `_` and `.json`, as the last `_` piece less `.json`, when that is 7 characters with `-` at index 4 |
| DataProcessor.MonthOfReportName | utils/data_processor.py:41-47 | a report named `<prefix>_<YYYY-MM>.json` offers its month |
| DataProcessor.MonthsInMembers | utils/data_processor.py:39-47 | a month is collected iff some file name offers it |
| DataProcessor.ListOf | utils/data_processor.py:48 | `list(months)` lists each member of the set once |
| DataProcessor.GetAvailableMonths | utils/data_processor.py:37-48 | exactly the months offered by the file names, each once, strictly descending |
| DataProcessor.Classify | utils/data_processor.py:56-62 | the `if`/`elif` chain: no kind iff the name holds none of the three patterns; a kind only if the name holds its pattern and none checked before it |
| DataProcessor.LastWhereSpec | utils/data_processor.py:56-62 | the last value whose name satisfies the test, or none iff no name does |
| DataProcessor.LastOfSpec | utils/data_processor.py:50-64 | each report is the data of the last file classified as its kind, or none iff no file is |
| DataProcessor.LoadAnalysisData | utils/data_processor.py:50-64 | the loop gives, for basic, detail and summary, the data of the last file of that kind or none |
| DataProcessor.LoadRetentionData | utils/data_processor.py:66-71 | none iff no name holds `定着率分析_<month>.json`; otherwise the data of the first that does |
| DataProcessor.SubRowsShape | utils/data_processor.py:113-132 | every sub row comes from a sub-product with its date, worker, branch and join date; every sub-product with calls gets a row |
| DataProcessor.DayRowsShape | utils/data_processor.py:80-132 | an activity's first row is its main product iff the main product has calls; all later rows are sub-products; every row carries the converted date and the worker's data |
| DataProcessor.StaffRowsOwner | utils/data_processor.py:76-79 | every row of a worker carries that worker's name, branch and join date |
| DataProcessor.AllRowsOwners | utils/data_processor.py:73-133 | every row belongs to some worker of the input, with that worker's data |
| DataProcessor.AppendSubRows | utils/data_processor.py:113-132 | the sub-product loop appends the sub rows |
| DataProcessor.ConvertDate | utils/data_processor.py:81-89 | a non-empty date is converted to its JST day, and kept when the conversion fails |
| DataProcessor.AppendDayRows | utils/data_processor.py:80-132 | one activity appends its main row (when it has calls), then its sub rows |
| DataProcessor.AppendStaffRows | utils/data_processor.py:76-132 | one worker appends the rows of every activity in order |
| DataProcessor.ExtractDailyActivity | utils/data_processor.py:73-133 | the records are the rows of every worker, in input order |
| DataProcessor.GetPrevMonthsIncluding | utils/data_processor.py:135-169 | `[]` when the argument does not parse; otherwise the n months ending at the argument, oldest first |
| DataProcessor.IncludingLoop | utils/data_processor.py:154-163 | the loop appends month `i` back for i = 0..n−1 |
| DataProcessor.AppendedText | utils/data_processor.py:155-163 | the text of one step: the previous year with `12 + (month − i)` when `month − i ≤ 0`, else the same year |
| DataProcessor.StepBackCalendar | utils/data_processor.py:155-161 | within a year's reach each step is exactly `i` calendar months back |
| DataProcessor.StepsEndingAt | utils/data_processor.py:154-165 | reversed, the steps are the n consecutive calendar months ending at the argument |
| DataProcessor.PrevMonthsIncludingConsecutive | utils/data_processor.py:135-165 | for n ≤ month + 12 the list is n consecutive calendar months, oldest first, one apart with year wrap, whose last element is the argument |
| DataProcessor.ParseFormat | utils/data_processor.py:151 | a formatted month parses back to its year and month (also utils/data_processor.py:163) |
| Rankings.CountAboveZero | components/rankings.py:24 | no row is above a value iff every row's value is at most it, so the best value gets rank 1 |
| Rankings.RankOrder | components/rankings.py:24 | `rank(method='min', ascending=False)`: equal values share a rank, a larger value gets a strictly smaller rank, and every rank is between 1 and the number of rows |
| Rankings.InsertRanked | components/rankings.py:25 | inserting keeps every row once: the result is the input plus the new row, as a multiset |
| Rankings.SortRanked | components/rankings.py:25 | the sort is a permutation of its input |
| Rankings.SortRankedOrdered | components/rankings.py:25 | `sort_values([col, 'staff_name'], ascending=[False, True])`: values descending, names ascending among equal values |
| Rankings.KeepUpToPrefix | components/rankings.py:28 | on the sorted rows the filter `rank <= max_rank` keeps a prefix; every kept row is within the cut-off and every dropped row is beyond it |
| Rankings.KeepUpToMembers | components/rankings.py:28 | every kept row was in the input and has rank at most the cut-off |
| Rankings.RankingOrder | components/rankings.py:23-28 | the ranking is sorted, its ranks never decrease, and it is the head of the sorted table up to the first rank beyond the cut-off |
| Rankings.RankingMembers | components/rankings.py:23-28 | a ranked row is listed iff it is a row of the input, carries its competition rank, and that rank is within the cut-off |
| Rankings.RankingSize | components/rankings.py:23-28 | at least `max_rank` rows are listed, or all of them when there are fewer |
| Rankings.RankingFirst | components/rankings.py:23-28 | with a positive cut-off and some row, the first listed row has rank 1 |
| Rankings.RankingTiesExceedCutoff | components/rankings.py:24-28 | ties at the cut-off are all listed: two rows tied on value both appear under `max_rank = 1`, by name |
| Rankings.SortedRanksNonDecreasing | components/rankings.py:24-25 | in the sorted table values never increase and ranks never decrease |
| Rankings.ResultColumns | components/rankings.py:111-113 | the columns are `順位`, `staff_name`, `branch` when the table has one, then the display columns in order |
| Rankings.CreateRankingFrame | components/rankings.py:89-115 | the frame's columns are the result columns; a row is in the frame iff it is an input row carrying its competition rank and that rank is at most `max_rank`; the rows are in ranking order with ranks never decreasing |
| Rankings.TagOf | components/rankings.py:36-40 | a branch tag is shown iff branches are shown, a colour map is given and non-empty, and the row has a branch; it carries the branch and its colour, `#95a5a6` when the branch has none |
| Rankings.DisplayRankingWithTies | components/rankings.py:5-87 | one line per ranked row, in ranking order, with its rank, name and branch tag |
| AppConfig.ValidateFileUpload | config.py:62-73 | accepted iff the size is at most 200 MiB and the lower-cased suffix is `.zip`; the size is checked first, then the type, each with its own message |
| AppConfig.SizeMessageText | config.py:26 | the size message names 200 MB (also config.py:65-66) |
| AppConfig.ZipAcceptedAtLimit | config.py:26-27 | a `stem.zip` name in any letter case is accepted at exactly the size limit (also config.py:64-73) |
| AppConfig.OverLimitRefusedFirst | config.py:64-66 | one byte over the limit is refused for size whatever the name |
| AppConfig.DotNameRefused | config.py:69-71 | a name whose only dot starts it has no suffix and is refused as the wrong type |
| AppConfig.SuffixOfStem | config.py:69 | `Path('stem.ext').suffix` is `.ext` |
| AppConfig.GetBool | config.py:52-60 | yes words give true, no words give false, anything else the default |
| AppConfig.GetBoolDefault | config.py:52-60 | an unset variable or an unknown word gives the default |
| AppConfig.GetBoolIgnoresCase | config.py:54-58 | the words are matched after lower-casing |
| PyText.SplitJoin | utils/data_processor.py:43 | `str.split` loses nothing: joining the pieces with the separator gives the text back |
| PyText.SplitLast | utils/data_processor.py:43 | the last piece of a split is what follows the last separator |
| PyText.PyIntPadNat | utils/data_processor.py:151 | `int()` of a zero-padded number is that number |
| PyText.RemoveAllTrailing | utils/data_processor.py:45 | `replace('.json', '')` on `<month>.json` gives the month back |
| PyText.SuffixEndsName | config.py:69 | the suffix is the end of the file name |

## Where the design description and the code differ

The model follows the code in each of these cases.

- A Sansan rejection row carries no staff field. `findMatch` therefore compares the staff name with the text `undefined`, so a Bill One reason never attaches to a report whose staff is named (`Join.BillOneReasonNeverAttaches`).
- The design says every counted deal lands in exactly one branch bucket. In the code, a deal whose worker has a known branch with no bucket that month lands in no branch bucket (`Rollup.DealBranchesOk`).
- A month with no deals never gets an approval rate in the monthly summary. The summary's `parseFloat` reads it as NaN, so no approval alert is raised for such a month (`Report.RateValue`, `Report.BelowAlert`).
- The funnel ratios are null exactly when their denominator is not positive, because the code tests `> 0` (`Funnel.RatiosOf`).
- The retention weights and thresholds are read with `||`. A setting configured as 0 takes the code's default instead, and those defaults differ from the shipped configuration (`Retention.ZeroSettingFallsBack`, `Retention.ShippedWeights`).

## Left out

- Spreadsheet, Drive, Logger and file I/O of the batch engine are left out. Sheets arrive as cell sequences and the folders and saved files are not modelled, because they are external services.
- Parsing of date cells (`safeDateConversion`), time zones and the UTC-to-JST conversion of the dashboard are parameters: a partial function from a cell or text to a date. The current year used by `fixOutlierDate` is a parameter too. These are library and clock behaviour.
- Wall-clock fields (`generated_at`, `execution_time`) and the bytes written by `JSON.stringify` / read by `JSON.parse` are left out. `importConfig` receives the parsed value, or the parser's error message.
- `toFixed(2)` is modelled as a half-up rounding of a real to two decimals. The string it renders is not modelled, because floating-point printing is outside the model.
- Cells.Key: `String(v)` of a number that is not an integer is a six-decimal stand-in, not JavaScript's shortest round-trip rendering, because floating-point printing is outside the model.
- Arithmetic is on exact reals, not IEEE doubles. NaN appears only where the model needs it to show a finding, and rounding error is not modelled.
- Retention.ConstantDaysStable: the variance factor is proved non-negative, zero for constant activity and zero for fewer than two months. The exact threshold condition `n·Σx² − (Σx)² > t·n²` is not proved, because the nonlinear real arithmetic is beyond what the solver settles within the resource limit.
- DataProcessor.PrevMonthsIncludingConsecutive is stated only for `n ≤ month + 12`. Beyond that the code writes month `00` and below, which the model reproduces but does not characterise.
- `int()` on text is modelled for ASCII digits with an optional sign. Surrounding whitespace, underscores and non-ASCII digits are not modelled, because the file names and months the dashboard parses never hold them.
- Lower-casing is ASCII-only, because Unicode case folding is outside the model.
- A `call_count` of `None` raises `TypeError` in the dashboard. The model treats it as no calls, because the engine always writes a number.
- Ranking values are exact reals: NaN values and the order among rows equal on both value and name are not modelled. The latter depends on pandas' sort algorithm.
- Rankings.CreateRankingFrame takes the frame's branch column as a per-row optional value, not a frame-level column set.
- An empty `display_columns` makes `display_ranking_with_ties` raise `IndexError`, and that is not modelled. The display text itself (HTML tag, number formatting, `st.markdown`) is left out as presentation.
- `branch_colors=None` is modelled as an empty colour map, which the code treats the same way.
- `pathlib` paths are modelled with POSIX separators, because Windows path rules are outside the model.
- The thin configuration wrappers of the batch engine (`updateAlertThresholds`, `updateRiskScoringWeights`, `resetConfigToDefaults`, `updateTargetDirectory` and the like) only call `updateConfig` and are not modelled separately.
- Tables.Put: a new key always goes to the end of the key order. `Object.keys` lists keys that are array indices (`"0"`, `"42"`) first, in ascending numeric order, and the model does not. The keys here are months, staff, branch and product names, which are not array indices.
- Retention.Setting: a setting that is truthy but not a number (text such as `"5"`, `true`, an object) falls back to the code's default. The code uses such a value as it is, and later arithmetic on it would concatenate text or coerce it. The model's settings are reals, so it cannot carry them.
- Helpers.ValidateMonthFormat and Helpers.ExtractMonth accept ASCII digits only. Python's `\d` also matches every other Unicode decimal digit, such as full-width `２０２４`, and those are not modelled.
- Cells.TextToNumber: hexadecimal, binary and octal literals (`0x1F`), `Infinity` and `-0` are read as NaN or 0 here. JavaScript reads them as 31, infinity and negative zero, which the exact reals cannot hold.
- ConfigTree.JsLess compares two texts by Unicode code points. JavaScript compares UTF-16 code units, and the two orders differ only when a character beyond U+FFFF meets one from U+E000 to U+FFFF.
- JSON arrays and keys inherited through JavaScript prototypes are not part of the configuration tree, because the shipped configuration holds neither.
- All Streamlit, Plotly and Flask UI, Google Drive synchronisation and the pandas multi-month loader are outside the core.

## Findings

| source | as written | input that shows it | evidently intended | confidence | as-written member | corrected member |
|---|---|---|---|---|---|---|
| generateJson.js:1587-1602 | the retention fold reads `record.call_count`, `record.call_hours` and `record.get_appointment`, which the retention records carry only under `main_product`; the totals become NaN, the appointment rate reads as 0 and the low-performance factor fires for every worker | a worker with 100 calls and 5 appointments in a month | read the counts from `record.main_product` | not executed | Retention.LowPerformanceAlwaysFiresAsWritten | Retention.RecordOk |
| generateJson.js:702-712 | a product bucket opened by the activity fold for a main product has no `total_rejected` field, so a rejected deal (line 895) makes it NaN | a main product with one rejected deal in its month | open every product bucket with `total_rejected: 0`, as sub-product buckets are | not executed | Rollup.RejectedFieldAsWrittenIsNaN | Rollup.RejectedCountedFromZero |
| common/helpers.py:19-20 | stepping back 32 days from the first of a month always lands two months back, so every other month is skipped | `get_prev_months("2024-03", 3)` gives `["2023-09", "2023-11", "2024-01"]` | the n months just before the given month | not executed | Helpers.AsWrittenSkipsMonths | Helpers.PrevMonthsBeforeShape |
| config.js:163 | `updateConfig` on a path whose parent is a number, string or boolean reports success but stores nothing | `updateConfig("monthly_summary.top_staff_count.limit", 5)` on the shipped configuration | report the path as invalid instead of succeeding | not executed | ConfigTree.UpdatePrimitiveParentAsWritten | ConfigTree.UpdateOutcome |
| config.js:172-177 | `validateConfig` on a configuration without `alerts` dereferences it and throws; `importConfig` (lines 197-207) has already replaced `CONFIG` and reports `Invalid JSON format` | `importConfig('{}')` | report the missing sections as validation errors | not executed | ConfigTree.ImportEmptyAsWritten | ConfigTree.ConfigStore.Import |
