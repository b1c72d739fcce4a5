# usage-dash, modelled in Dafny

The usage-dash dashboard shows the usage and cost of two cloud services:

- the Gemini inference API, metered through Google Cloud Monitoring;
- a Supabase project, measured against its free tier.

This project models the dashboard's data-shaping core, one module per source file.

- `GoogleCloud` (lib/google-cloud.ts) is the live Gemini usage fold. Nested loops walk the monitoring series and their points. They keep three running totals (requests, tokens, cost) and a per-UTC-day table (`dailyMap`, a `map<int, Acc>`). The table is emitted as an array that an in-place insertion sort orders by date. Then the month's cost is projected and compared with the budget. Any thrown error returns the zeroed fallback.
- `GoogleCloudRoute` (app/api/google-cloud/usage/route.ts) is the synthetic generator. A counting-down loop produces one priced entry per day of the window. The `GET` handler validates the `timeRange` parameter.
- `Supabase` (lib/supabase.ts) is the quota estimator. It counts 1 MiB per listed file (a loop over buckets) and 10 MiB per public table. It gives each resource its percentage of the free-tier limit, and has a zeroed fallback. `formatBytes` is modelled as its choice of unit and its rounded amount.
- `SupabaseRoute` (app/api/supabase/usage/route.ts) is the fixed synthetic summary.
- `SupabaseDashboard` and `GoogleCloudDashboard` (the two `components/*-dashboard.tsx` files) hold the display rules: status tiers, alerts, bar widths, the badge, the overage and the window label.

Helper modules:

- `Types` mirrors types/index.ts.
- `Pricing` holds the shared formulas: 1500 tokens per request and $0.00025 per thousand tokens.
- `JsNumber` covers `Math.round`, `toFixed` and IEEE division by zero.
- `RealOrder` holds small order facts about reals.
- `Wrappers` holds `Option`.

Model conventions:

- Dates are UTC day numbers: `seconds / 86400`, rounded towards minus infinity. Sorting by day number stands for sorting the `YYYY-MM-DD` strings.
- Money, rates and percentages are `real`. `Math.round(x)` is `floor(x + 0.5)`.
- Inputs stand in for the environment:
  - the monitoring client's answer, or `None` when the call throws;
  - the day of the month;
  - the budget and the credential strings;
  - the Supabase listings;
  - the random draws `0.5 + Math.random()`;
  - today's day number.

Four behaviours of `getGeminiUsageMetrics` are easy to miss:

- Valued points without an interval start are still added to the totals; they only miss the day table.
- For the 24-hour window the projection divides by `min(dayOfMonth, parseInt("24h"))`, which is `min(dayOfMonth, 24)`, not 1, although the window holds one day's cost.
- A falsy (zero) value or start is treated like an absent one.
- A start time too far from 1970 makes `toISOString` throw a RangeError, so the whole call ends in the fallback.

## Model

| member | source | states |
|---|---|---|
| `Pricing.Usage` | lib/google-cloud.ts:76-82 | a valued point contributes its value as requests, requests × 1500 tokens and tokens / 1000 × 0.00025 cost |
| `Pricing.PlusKeepsDerived` | lib/google-cloud.ts:76-96 | adding two priced contributions gives a priced contribution, so sums keep the pricing formulas |
| `Pricing.CostPerRequest` | lib/google-cloud.ts:64-82 | one request costs exactly $0.000375 |
| `GoogleCloud.VisitPoint` | lib/google-cloud.ts:75-97 | one inner-loop step adds a valued point to the totals and, when it has a start, to its day's entry; it fails exactly when the date is out of `toISOString`'s range |
| `GoogleCloud.AccumulateSeries` | lib/google-cloud.ts:73-100 | the inner loop continues the fold over one series' points (none when `points` is absent), or fails exactly when one of their dates cannot be formatted |
| `GoogleCloud.AccumulatePoints` | lib/google-cloud.ts:59-101 | the outer loop ends with totals equal to the fold of all valued points and `dailyMap` equal to the per-day buckets, or fail exactly when some point's date cannot be formatted |
| `GoogleCloud.SortByDate` | lib/google-cloud.ts:107 | the in-place sort leaves the rollups strictly ascending by date and a permutation of the input |
| `GoogleCloud.EmitSorted` | lib/google-cloud.ts:103-107 | `dailyCosts` is strictly ascending, has no duplicate dates, and holds one entry per map key, equal to that key's accumulator |
| `GoogleCloud.ProjectionDays` | lib/google-cloud.ts:111-113 | the projection divisor always lies in [1, 30] |
| `GoogleCloud.ProjectionDaysValue` | lib/google-cloud.ts:111-113 | the divisor is min(dayOfMonth, 30) for 30d, min(dayOfMonth, 7) for 7d and min(dayOfMonth, 24) for 24h |
| `GoogleCloud.RangeNumbers` | lib/google-cloud.ts:113 | `parseInt` reads 24 from "24h" and 7 from "7d" |
| `GoogleCloud.MonthlyProjection` | lib/google-cloud.ts:110-114 | projection × divisor = totalCost × 30; the projection is zero or positive exactly when the total cost is |
| `GoogleCloud.GetGeminiUsageMetrics` | lib/google-cloud.ts:4-137 | missing credentials, a failed client call or an unformattable date give the zeroed fallback with the configured budget; otherwise the totals, sorted per-day table, projection, strict over-budget flag and budget of the fold |
| `GoogleCloud.Totals` | lib/google-cloud.ts:75-83 | the running totals of the nested loops; their meaning is stated by `TotalsDerived` and `TotalsSplit` |
| `GoogleCloud.Buckets` | lib/google-cloud.ts:85-97 | the per-day map of the nested loops; its keys and entries are stated by `BucketsAreDayTotals` |
| `GoogleCloud.Fallback` | lib/google-cloud.ts:129-137 | the zeroed summary of the catch block; `FallbackView` and `GetGeminiUsageMetrics` state its use |
| `GoogleCloud.TotalsDerived` | lib/google-cloud.ts:76-83 | the totals, and the dated and undated shares, obey the pricing formulas |
| `GoogleCloud.TotalsSplit` | lib/google-cloud.ts:76-97 | every valued point is counted in exactly one of the dated and undated shares of the totals |
| `GoogleCloud.AllDatedNoUndated` | lib/google-cloud.ts:86 | when every valued point has a start, the undated share is zero |
| `GoogleCloud.BucketsAreDayTotals` | lib/google-cloud.ts:85-97 | the bucket keys are exactly the days seen, and each bucket holds the sum of that day's contributions |
| `GoogleCloud.DayTotalOfUnseen` | lib/google-cloud.ts:91 | a day no valued, dated point falls on has a zero total |
| `GoogleCloud.DaysSeenMeaning` | lib/google-cloud.ts:86-96 | a day is a key exactly when some valued point with a non-zero start falls on it |
| `GoogleCloud.TableSum` | lib/google-cloud.ts:85-107 | the daily rollups add up to the contributions of the dated valued points |
| `GoogleCloud.TableConservation` | lib/google-cloud.ts:76-107 | totals = sum of rollups + undated contributions; equality holds when every valued point is dated; each rollup is priced |
| `GoogleCloud.ReportConservation` | lib/google-cloud.ts:76-123 | the same conservation law, stated for a successful report |
| `GoogleCloud.ReportDerived` | lib/google-cloud.ts:76-119 | reported cost, rounded requests and rounded tokens all follow from the total request count |
| `GoogleCloud.NoSeriesReport` | lib/google-cloud.ts:59-123 | with no series: no rollups, zero totals and a zero projection; over budget only for a negative budget |
| `GoogleCloud.InertPoint` | lib/google-cloud.ts:75 | a point whose value is absent or zero changes neither the totals nor any bucket, wherever it sits |
| `GoogleCloud.BucketsStep` | lib/google-cloud.ts:87-96 | a valued, dated point adds onto its day's entry or creates it; every other day's entry is unchanged |
| `GoogleCloud.EmptyTable` | lib/google-cloud.ts:103-107 | the emitted table is empty exactly when the map is |
| `GoogleCloud.TableUnique` | lib/google-cloud.ts:104-107 | there is only one ascending table of a map, so `dailyCosts` does not depend on the map's iteration order |
| `GoogleCloudRoute.Days` | app/api/google-cloud/usage/route.ts:9-11 | one day for 24h, 7 for 7d, 30 for 30d; `IsMockReport`, which `GenerateMockData` ensures, makes it the number of entries |
| `GoogleCloudRoute.BaseRequests` | app/api/google-cloud/usage/route.ts:25 | 120, 150 or 180 base requests per day for 24h, 7d, 30d; `IsMockReport` prices every entry from it and `MockRequestsInRange` bounds the draws around it |
| `GoogleCloudRoute.MockDay` | app/api/google-cloud/usage/route.ts:24-39 | the loop body prices one day: the entry has the day's date, `round(base × variation)` requests and the tokens and cost derived from them, and contributes exactly those to the totals |
| `GoogleCloudRoute.PricedDay` | app/api/google-cloud/usage/route.ts:24-39 | a day's requests are a non-negative integer, its tokens and cost follow the pricing formulas, and `toFixed(6)` keeps the cost exactly |
| `GoogleCloudRoute.GenerateMockData` | app/api/google-cloud/usage/route.ts:5-55 | one entry per day of the window (1/7/30), each priced from its rounded draw; totals are the sums of the entries; cost and projection are rounded to 4 and 2 decimals; the flag compares the unrounded projection with 100 |
| `GoogleCloudRoute.MockSummary` | app/api/google-cloud/usage/route.ts:42-54 | the record built from the loop's totals is the described summary |
| `GoogleCloudRoute.RequestedRange` | app/api/google-cloud/usage/route.ts:60 | the requested range is never empty: a present, non-empty parameter is kept as it is, anything else becomes "7d" |
| `GoogleCloudRoute.ParseTimeRange` | app/api/google-cloud/usage/route.ts:63 | a range is accepted exactly when it is "24h", "7d" or "30d" |
| `GoogleCloudRoute.ParseLiteral` | app/api/google-cloud/usage/route.ts:63 | each window's own spelling is accepted as that window |
| `GoogleCloudRoute.DefaultRange` | app/api/google-cloud/usage/route.ts:60 | an absent or empty parameter means the 7-day window |
| `GoogleCloudRoute.Get` | app/api/google-cloud/usage/route.ts:57-77 | an invalid range gives status 400 with `success: false` and the message; a valid one gives 200 with the synthetic summary |
| `GoogleCloudRoute.MockDates` | app/api/google-cloud/usage/route.ts:18-21 | the entries are ascending and run from today − (days − 1) to today |
| `GoogleCloudRoute.MockTotalsPriced` | app/api/google-cloud/usage/route.ts:27-32 | total tokens are 1500 × total requests, and the summed cost is the priced total |
| `GoogleCloudRoute.MockRequestsInRange` | app/api/google-cloud/usage/route.ts:24-27 | each day's requests are an integer in [base/2, 3·base/2], and its tokens are requests × 1500 |
| `GoogleCloudRoute.RoundedDraw` | app/api/google-cloud/usage/route.ts:24-26 | rounding base × a draw in [0.5, 1.5) lands in [base/2, 3·base/2] |
| `GoogleCloudRoute.SumCostBound` | app/api/google-cloud/usage/route.ts:30 | a sum of n costs each at most c is at most n·c |
| `GoogleCloudRoute.SumCostNonNegative` | app/api/google-cloud/usage/route.ts:30 | a sum of non-negative costs is non-negative |
| `GoogleCloudRoute.MockCostsBounded` | app/api/google-cloud/usage/route.ts:24-28 | each synthetic day costs between $0 and $0.10125 |
| `GoogleCloudRoute.ProjectionBound` | app/api/google-cloud/usage/route.ts:43-44 | a daily cost of at most $0.10125 projects to at most $3.0375 a month |
| `GoogleCloudRoute.MockNeverOverBudget` | app/api/google-cloud/usage/route.ts:42-53 | the unrounded synthetic projection is at most $3.0375, so the summary is never over the $100 budget |
| `GoogleCloudRoute.MockProjection` | app/api/google-cloud/usage/route.ts:42-53 | the reported (rounded) projection is in [0, 3.0425], the budget is 100 and there is at least one entry |
| `JsNumber.Round` | app/api/google-cloud/usage/route.ts:26 | `Math.round` gives the integer within half a unit, with ties going up |
| `JsNumber.ToFixedNear` | app/api/google-cloud/usage/route.ts:47-50 | `parseFloat(x.toFixed(d))` moves a non-negative value by at most half a unit in the last kept decimal |
| `JsNumber.ToFixedSixOfMicros` | app/api/google-cloud/usage/route.ts:36 | a value with at most six decimals is unchanged by `toFixed(6)` |
| `Supabase.BucketFiles` | lib/supabase.ts:28-34 | the number of files listed over a sequence of buckets, a bucket without data counting 0; `TotalStorageSize` is proved equal to it × 1 MiB and `BucketFilesAppend` splits it over concatenation |
| `Supabase.StoredFiles` | lib/supabase.ts:27-35 | the file count of the bucket list, 0 when the list is absent; the reference sum `TotalStorageSize` meets |
| `Supabase.TotalStorageSize` | lib/supabase.ts:26-35 | the loop over buckets totals 1 MiB per listed file; a bucket without data, or no bucket list, contributes nothing |
| `Supabase.Percentage` | lib/supabase.ts:60-84 | percentage × limit / 100 = used, with no clamp: over 100 exactly when used > limit, 100 exactly when used = limit |
| `Supabase.GetSupabaseUsageMetrics` | lib/supabase.ts:4-97 | missing credentials or a thrown client call give the fallback; otherwise the estimate of the listings |
| `Supabase.Estimate` | lib/supabase.ts:59-85 | the report measures every resource against its free-tier quota, each percentage proportional to the amount |
| `Supabase.EstimateMeaning` | lib/supabase.ts:26-85 | storage is 1 MiB per file, the database 10 MiB per table (0 without a table list), bandwidth and API requests 0 with 0%; every percentage is proportional against the free-tier limits |
| `Supabase.Fallback` | lib/supabase.ts:86-96 | the catch-block record is measured against the free-tier quotas with proportional percentages; `FallbackMeaning` adds that nothing is used |
| `Supabase.FallbackMeaning` | lib/supabase.ts:86-96 | the fallback reports 0 used and 0% everywhere, against the same limits |
| `Supabase.DatabaseOverQuota` | lib/supabase.ts:51-63 | the database reads above 100% exactly past 50 tables |
| `Supabase.StorageOverQuota` | lib/supabase.ts:26-73 | storage reads above 100% exactly past 1024 listed files |
| `Supabase.EstimateExample` | lib/supabase.ts:51-78 | 3 tables give a 31457280-byte database at 6%; 500 users give 1% |
| `Supabase.BucketFilesAppend` | lib/supabase.ts:28-33 | the file count of a bucket list is the sum of the counts of its parts |
| `Supabase.UnlistedBucket` | lib/supabase.ts:30-33 | a bucket whose listing returns no data contributes no files, wherever it sits |
| `Supabase.FormatBytes` | lib/supabase.ts:101-109 | 0 renders as "0 Bytes"; a negative count renders as NaN with no unit; a positive count gets a finite amount |
| `Supabase.UnitIndex` | lib/supabase.ts:106 | `Math.floor(log(bytes) / log(1024))` as the number of whole divisions by 1024; `UnitIndexBounds` and `UnitIndexUnique` prove it is the one index with 1024^i ≤ bytes < 1024^(i+1) |
| `Supabase.UnitIndexBounds` | lib/supabase.ts:106 | the chosen unit index i satisfies 1024^i ≤ bytes < 1024^(i+1) |
| `Supabase.UnitIndexUnique` | lib/supabase.ts:106 | no other index brackets the count |
| `Supabase.FormatBytesUnit` | lib/supabase.ts:104-108 | for 1024^i ≤ bytes < 1024^(i+1) the unit is `sizes[i]` (none past TB) and the amount, rounded to hundredths, lies in [1, 1024] |
| `Supabase.FormatBytesExample` | lib/supabase.ts:101-109 | 1536 bytes render as 1.5 KB |
| `SupabaseRoute.GenerateMockData` | app/api/supabase/usage/route.ts:4-47 | the fixed summary is measured against the free-tier quotas and every used amount lies between 0 and its limit |
| `SupabaseRoute.UsedAmount` | app/api/supabase/usage/route.ts:22 | `round(limit × pct / 100)` is within half a unit of the exact share and never exceeds the limit |
| `SupabaseRoute.Get` | app/api/supabase/usage/route.ts:49-57 | the handler always succeeds, with a summary measured against the free-tier limits |
| `SupabaseRoute.LimitsAgree` | app/api/supabase/usage/route.ts:5-11 | the handler's limit table is the estimator's |
| `SupabaseRoute.MockWithinQuota` | app/api/supabase/usage/route.ts:14-44 | every used amount lies between 0 and its limit, and every percentage is below 100 |
| `SupabaseRoute.MockValues` | app/api/supabase/usage/route.ts:14-44 | the percentages are 15.3, 8.7, 23.4, 2.1 and 12.5, and the used amounts are their rounded shares of the limits |
| `SupabaseDashboard.Alerts` | components/supabase-dashboard.tsx:145-146 | the alert list holds exactly the rows at or above 90%, and no more rows than there are |
| `SupabaseDashboard.AlertsAppend` | components/supabase-dashboard.tsx:145-146 | filtering distributes over concatenation, so the alert list keeps the rows' order |
| `SupabaseDashboard.ShowsAlert` | components/supabase-dashboard.tsx:135 | `usageData.some(item => item.percentage >= 90)`; `AlertShownIffListed` proves it holds exactly when the alert list is non-empty |
| `SupabaseDashboard.AlertShownIffListed` | components/supabase-dashboard.tsx:135-146 | the alert card is shown exactly when its list is non-empty |
| `SupabaseDashboard.AlertsOfSummary` | components/supabase-dashboard.tsx:74-146 | a summary's alert lists its critical rows in the order Database, Bandwidth, Storage, Auth Users, API Requests |
| `SupabaseDashboard.BarWidth` | components/supabase-dashboard.tsx:191 | the width is the percentage when at most 100, else 100; it never exceeds 100 |
| `SupabaseDashboard.StatusBadge` | components/supabase-dashboard.tsx:118-122 | Critical exactly at ≥ 90, Warning exactly in [70, 90), Healthy exactly below 70 (both thresholds inclusive); only Critical is destructive |
| `SupabaseDashboard.StatusColor` | components/supabase-dashboard.tsx:112-116 | the bar colour is the destructive, warning or primary colour exactly when the badge says Critical, Warning or Healthy |
| `SupabaseDashboard.UsageData` | components/supabase-dashboard.tsx:74-110 | the five display rows; what each row holds is stated by `UsageRows` |
| `SupabaseDashboard.UsageRows` | components/supabase-dashboard.tsx:74-110 | five rows, each with its resource's percentage and limit, the amount being size, used, used, count, count |
| `SupabaseDashboard.MockSummaryHealthy` | components/supabase-dashboard.tsx:118-135 | the fixed synthetic summary is Healthy on every row and raises no alert |
| `SupabaseDashboard.FallbackSummaryHealthy` | components/supabase-dashboard.tsx:135 | the estimator's fallback raises no alert |
| `GoogleCloudDashboard.BudgetPercentage` | components/google-cloud-dashboard.tsx:74 | projection / budget × 100; with a zero budget, Infinity, −Infinity or NaN by the sign of the projection |
| `GoogleCloudDashboard.BarWidth` | components/google-cloud-dashboard.tsx:179 | min(percentage, 100): at most 100, equal to a percentage up to 100, 100 for Infinity |
| `GoogleCloudDashboard.BarColor` | components/google-cloud-dashboard.tsx:172-178 | destructive exactly above 100, yellow exactly above 80 up to 100, primary exactly at or below 80 (strict); Infinity is destructive, NaN and −Infinity primary |
| `GoogleCloudDashboard.BadgeVariant` | components/google-cloud-dashboard.tsx:172-182 | the badge is destructive or secondary, and destructive exactly when the bar is |
| `GoogleCloudDashboard.Overage` | components/google-cloud-dashboard.tsx:107 | the amount shown in the alert is positive exactly when the projection exceeds the budget |
| `GoogleCloudDashboard.ShowsAlert` | components/google-cloud-dashboard.tsx:96 | the alert card follows the over-budget flag; `LiveView` and `MockView` state when it appears |
| `GoogleCloudDashboard.ShowsCharts` | components/google-cloud-dashboard.tsx:194-209 | both charts need a daily entry; `LiveView` proves they appear exactly when some valued point was dated |
| `GoogleCloudDashboard.RangeLabel` | components/google-cloud-dashboard.tsx:125 | the caption of each window; `RangeLabelInjective` proves the three differ |
| `GoogleCloudDashboard.BadgeMeansOverBudget` | components/google-cloud-dashboard.tsx:182 | with a positive budget the badge is destructive exactly when the projection exceeds the budget |
| `GoogleCloudDashboard.LiveView` | components/google-cloud-dashboard.tsx:96-209 | on a live report with a positive budget the badge agrees with `isOverBudget`, the alert is shown exactly when the overage is positive, and the charts appear exactly when some valued point was dated |
| `GoogleCloudDashboard.FallbackView` | components/google-cloud-dashboard.tsx:96-209 | the fallback shows no alert, no charts, a secondary badge and a zero-width bar |
| `GoogleCloudDashboard.MockView` | components/google-cloud-dashboard.tsx:96-209 | a synthetic summary draws its charts, never shows the alert and keeps a primary bar and secondary badge |
| `GoogleCloudDashboard.RangeLabelInjective` | components/google-cloud-dashboard.tsx:125 | the three windows get three different captions |

## Left out

- The cloud clients are not modelled (`MetricServiceClient`, `listTimeSeries` and the Supabase client's table, bucket and user listings). Their results are inputs, and a thrown call is `None`.
- The request the monitoring client is sent is not modelled: its time interval, filter and alignment period (lib/google-cloud.ts:26-53).
- Environment parsing is not modelled (`JSON.parse` of the credentials, `parseFloat` of the budget). The credential fields are strings where `""` means unset or falsy, and the budget is a real. A budget that parses to NaN is not modelled.
- Clocks are not modelled. `new Date().getDate()` is the `dayOfMonth` input, and the synthetic generator's current date is the `today` day number.
- GoogleCloudRoute.MockDates and GoogleCloudRoute.GenerateMockData: each entry is dated `today − i` as a UTC day number, so the dates rise strictly and entry k is dated `today − (days − 1 − k)`. The source steps back with `setDate` in the server's local time and then formats the instant in UTC (app/api/google-cloud/usage/route.ts:18-21). A fixed local offset is harmless, but a daylight-saving change inside the window is not: in Europe/Berlin at 2025-04-01 01:30 CEST the 7-day window is dated 03-26, 03-27, 03-28, 03-29, 03-30, 03-30, 03-31, and at the autumn change one date is skipped. The strict ascent and the per-entry dating hold only when the server's zone has no offset change inside the window.
- `Math.random()` is the `variations` input, one draw per day in [0.5, 1.5).
- Floating point is exact real arithmetic. IEEE-754 rounding of sums and products is not modelled. `toFixed` is modelled as rounding half away from zero, and the binary representation's effect on ties is not modelled.
- Dates are modelled as UTC day numbers, not `YYYY-MM-DD` strings, and the sort orders day numbers. For years outside 0000-9999, `toISOString` writes a signed six-digit year, and `localeCompare` on those strings does not follow chronological order. That case is not modelled.
- Supabase.FormatBytes: the decimal text is not modelled, only the amount (a real rounded to hundredths) and the unit name. `Math.log` is taken to give the exact floor of the base-1024 logarithm; floating-point error at exact powers of 1024 is not modelled.
- The `toLocaleString` and `toFixed` text of the dashboards, all JSX rendering, hooks, loading state, fetching and the five-minute refresh are rendering and async plumbing.
- The chart wrappers, the error boundary, the page and layout files and the Next.js configuration are not part of this model.
- The 500 responses of both `GET` handlers' catch blocks are not modelled: nothing the modelled handlers do can throw.
