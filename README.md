# API console core, modelled in Dafny

A model of the core of a mock API-management console. The console is a React
single-page app that shows usage statistics of a synthetic dataset and manages
API keys kept in the browser's local storage. The model covers these parts:

- **Usage-data engine** (`data_utils.dfy`):
  - turns a time-filter label into a number of days;
  - takes the last days of the daily-usage fixture as a window;
  - derives chart points, table rows, window statistics, per-date status-code breakdowns and the dashboard's figures;
  - builds the CSV export text.
- **API-key collection** (`api_keys.dfy`): a class whose fields are the key list, the loading and operating flags, and the storage entry. Its methods load, persist, create, regenerate, revoke and delete keys.
- **Key generator** (`key_generator.dfy`): the `sk_live_` key string built from two base-36 random renderings.
- **Key card** (`api_key_card.dfy`): the masked key, the visibility toggle, and which action buttons a key's status offers.
- **Feature flags** (`feature_flags.dfy`): two boolean flags, a toggle, a reset, and the count of flags that are on.
- **Guest session** (`auth.dfy`): a mock token that expires an hour after issue, stored in local storage. It is restored on mount, written by login and removed by logout.
- **Charts** (`chart_dates.dfy`, `status_code_line_chart.dfy`, `bar_chart.dfy`):
  - the `MM/DD` date label;
  - the status-code line chart's rows and palette;
  - the bar chart's rows and its tooltip breakdown.

`js_builtins.dfy` states the JavaScript string and array semantics the code relies on:
- `slice` with negative indices;
- `substring`, which clamps and swaps its bounds;
- `substr`;
- `split` on one character, which always yields at least one part;
- `join`;
- `trim`;
- decimal `toString`.

Randomness, the clock and the fixture are parameters:
- each `Math.random()` result is a draw passed in;
- `Date.now()` and `new Date().toISOString()` are passed as a number and a text;
- the fixture is a `seq<DailyUsage>`.

Local storage is a field holding what the entry parses to.

Two behaviours of the code around zero-request days are modelled as written:
- **Average error rate.** The code does not guard the window's average error rate against days with zero requests (src/lib/dataUtils.ts:141). Such a day makes the rate NaN or Infinity, which the model represents as `None`.
- **CSV error rate.** The code computes a row's CSV error rate as `(errors / requests) * 100 || 0` (src/lib/dataUtils.ts:190). The `|| 0` only catches NaN. So a row with zero requests shows the fixed-point text of 0 when it also has zero errors, and `Infinity%` when it has errors. `DataUtils.CsvRateOf` and `DataUtils.CsvRateField` state these cases.

## Model

| member | source | states |
|---|---|---|
| DataUtils.DaysFromTimeFilter | src/lib/dataUtils.ts:46-59 | 24h→1, 7d→7, 30d→20, 90d→29, any other label→7; the result is always one of those four |
| DataUtils.Window | src/lib/dataUtils.ts:97 | `dailyUsage.slice(-days)`; its contract is stated by WindowIsSuffix and WindowsNest |
| DataUtils.ChartPoints | src/lib/dataUtils.ts:68-71 | the date and requests of each day, in order; stated by ChartDataWindow and FilteredChartDataIsWindow |
| DataUtils.ChartData | src/lib/dataUtils.ts:64-78 | `getChartData(days)`; stated by ChartDataWindow |
| DataUtils.FilteredChartData | src/lib/dataUtils.ts:83-88 | `getFilteredChartData(timeFilter)`; stated by FilteredChartDataIsWindow and FilteredChartDataBounds |
| DataUtils.WindowIsSuffix | src/lib/dataUtils.ts:97 | `slice(-days)` of a positive count is the last min(days, n) fixture days, in order |
| DataUtils.WindowsNest | src/lib/dataUtils.ts:97 | a shorter window is the tail of a longer one |
| DataUtils.ChartDataWindow | src/lib/dataUtils.ts:64-78 | no count (or 0) keeps every day; a positive count keeps the last min(days, n); each point carries the date and requests of its fixture day |
| DataUtils.FilteredChartDataIsWindow | src/lib/dataUtils.ts:83-88 | the filtered chart is the point view of the filter's window |
| DataUtils.FilteredChartDataBounds | src/lib/__tests__/dataUtils.test.ts:24-30 | the chart never exceeds the filter's day count or the fixture, and 24h is never longer than 7d |
| DataUtils.CodeCount | src/lib/dataUtils.ts:103-105 | the count of a code, zero when it is absent; stated by ErrorCountCodes |
| DataUtils.ErrorCount | src/lib/dataUtils.ts:102-105 | the 400, 401 and 500 counts of a day; stated by ErrorCountCodes |
| DataUtils.ErrorCountCodes | src/lib/dataUtils.ts:102-105 | errors are the 400, 401 and 500 counts: 200 never counts, absent codes count zero, each error code is included |
| DataUtils.Round | src/lib/dataUtils.ts:106 | `Math.round` gives the integer within half of x, halves rounded up |
| DataUtils.LatencyBaseline | src/lib/dataUtils.ts:107 | `50 + Math.floor(requests / 100) * 2`; stated by TableRowsMatchWindow |
| DataUtils.TableRow | src/lib/dataUtils.ts:99-109 | one table row of a day; stated by TableRowsMatchWindow |
| DataUtils.SyntheticTableData | src/lib/dataUtils.ts:94-110 | `getSyntheticTableData(timeFilter)`; stated by TableRowsMatchWindow |
| DataUtils.TableRowsMatchWindow | src/lib/dataUtils.ts:94-110 | one row per window day in order with its date, requests and error count; latency lies between the volume baseline and baseline + 20 |
| DataUtils.SumOfConcat | src/lib/dataUtils.ts:120-132 | the reduce over two stretches of days is the sum of the two reduces |
| DataUtils.ErrorRateSum | src/lib/dataUtils.ts:136-142 | the reduce of per-day error rates; stated by ErrorRateSumFinite |
| DataUtils.ErrorRateSumFinite | src/lib/dataUtils.ts:136-142 | the sum of per-day rates is finite exactly when every day has requests, and it is then non-negative |
| DataUtils.LatencySumAtLeastBase | src/lib/dataUtils.ts:149-154 | with draws in [0, 1) every day adds at least 50 ms |
| DataUtils.LatencySum | src/lib/dataUtils.ts:149-154 | the reduce of simulated latencies; stated by LatencySumAtLeastBase |
| DataUtils.SyntheticStats | src/lib/dataUtils.ts:115-163 | `getSyntheticStats(timeFilter)`; stated by StatsOfEmptyWindow, StatsErrorRateFinite, StatsLatencyAtLeastBase, DayTotalsWithinWeekTotals and TotalRequestsBoundsWindows |
| DataUtils.StatsOfEmptyWindow | src/lib/dataUtils.ts:134-156 | an empty window gives zero totals, a zero error rate and a zero latency |
| DataUtils.StatsErrorRateFinite | src/lib/dataUtils.ts:134-143 | the average error rate is finite exactly when every day of the window has requests, and it is then non-negative |
| DataUtils.StatsLatencyAtLeastBase | src/lib/dataUtils.ts:146-156 | a non-empty window averages at least 50 ms |
| DataUtils.DayTotalsWithinWeekTotals | src/lib/__tests__/dataUtils.test.ts:56-61 | 24h totals of requests and errors never exceed the 7d totals, whatever the draws |
| DataUtils.TotalRequests | src/lib/dataUtils.ts:209-212 | `getTotalRequests()`; stated by TotalRequestsBoundsWindows |
| DataUtils.TotalRequestsBoundsWindows | src/lib/dataUtils.ts:209-212 | every window's request total is at most the fixture total, and equal when the window covers the fixture |
| DataUtils.FirstDayWithDate | src/lib/dataUtils.ts:173 | `find` by date: the index of the first day with that date, none exactly when no day has it |
| DataUtils.StatusCodeBreakdown | src/lib/dataUtils.ts:169-175 | null exactly when no day has the date; otherwise the status codes of the first day with it |
| DataUtils.IsoDate | src/lib/dataUtils.ts:219 | `toISOString().split('T')[0]`; stated by IsoDateOf |
| DataUtils.IsoDateOf | src/lib/dataUtils.ts:219 | `split('T')[0]` of a date followed by `T` and a time is that date |
| DataUtils.CountActive | src/lib/dataUtils.ts:227-229 | the number of active seed keys: at most all, zero iff none active, all iff all active, one key counts iff it is active |
| DataUtils.CountActiveConcat | src/lib/dataUtils.ts:227-229 | the count over a concatenation is the sum of the counts; with the one-key case this fixes the count |
| DataUtils.TodayRecord | src/lib/dataUtils.ts:222-224 | the first day dated today when there is one, otherwise the last day; nothing exactly for an empty fixture |
| DataUtils.GetDashboardMetrics | src/lib/dataUtils.ts:217-255 | active key count; with no days zero calls and errors; the first day dated today supplies calls and errors, otherwise the last day does |
| DataUtils.CsvRateOf | src/lib/dataUtils.ts:190 | the rate is Infinity exactly for errors over zero requests; 0 for no errors over no requests; otherwise errors × 100 / requests, between 0 and 100 when errors do not exceed requests |
| DataUtils.CsvRateField | src/lib/dataUtils.ts:190 | the rate field is the fixed-point text of 0 for an empty row, `Infinity%` for errors over no requests, and the fixed-point text of errors × 100 / requests followed by `%` otherwise |
| DataUtils.RateText | src/lib/dataUtils.ts:190 | the rate's `toFixed(2)` text; stated by CsvRateField |
| DataUtils.CsvFields | src/lib/dataUtils.ts:186-192 | the five fields of a row; stated by CsvLineReadBack and CsvRateField |
| DataUtils.CsvLines | src/lib/dataUtils.ts:184-194 | the header line and one line per row; stated by CsvLayout |
| DataUtils.CsvContent | src/lib/dataUtils.ts:184-195 | the exported CSV text; stated by CsvLayout and CsvLineReadBack |
| DataUtils.CsvLineReadBack | src/lib/dataUtils.ts:184-194 | a row's line has no line break and splits on commas back into its five fields; the requests and errors fields read back as the row's numbers and the latency field ends in `ms` |
| DataUtils.CsvHeaderLine | src/lib/dataUtils.ts:185 | the header line is `Date,Requests,Errors,Error Rate,Avg Latency` |
| DataUtils.CsvLayout | src/lib/dataUtils.ts:184-195 | split on line breaks, the CSV text is the header line followed by one line per row, in order |
| DataUtils.JoinHasNoChar | src/lib/dataUtils.ts:194-195 | joining parts and a separator free of a character yields text free of it |
| JsBuiltins.Trim | src/hooks/useApiKeys.ts:51 | `trim()` removes exactly the leading and trailing whitespace; empty exactly for all-whitespace text |
| JsBuiltins.NatToStringRoundTrip | src/hooks/useApiKeys.ts:61 | the decimal text of `Date.now()` reads back as the same number |
| KeyGenerator.GenerateApiKey | src/lib/utils.ts:8-14 | the key starts with `sk_live_` and is 8 to 34 characters long |
| KeyGenerator.PieceIsBase36 | src/lib/utils.ts:11-12 | `substring(2, 15)` of a base-36 rendering is at most 13 base-36 digits |
| KeyGenerator.GeneratedKeyCharacters | src/lib/__tests__/utils.test.ts:31 | every key character is a lower-case letter, digit or `_`; after the prefix only base-36 digits; the only underscores are the prefix's two |
| FeatureFlags.Toggled | src/contexts/FeatureFlagsContext.tsx:27-32 | the toggled flag is negated and the other flag kept |
| FeatureFlags.ActiveCount | src/components/DevPanel.tsx:25 | at most two flags on; zero exactly for the defaults; two exactly when both are on |
| FeatureFlags.ToggleTwice | src/contexts/FeatureFlagsContext.tsx:27-32 | toggling a flag twice restores the flags |
| FeatureFlags.ToggleMovesCountByOne | src/components/DevPanel.tsx:25 | each toggle moves the count of flags on by exactly one |
| FeatureFlags.FeatureFlagsProvider.constructor | src/contexts/FeatureFlagsContext.tsx:15-25 | the provider starts with both flags off |
| FeatureFlags.FeatureFlagsProvider.ToggleFlag | src/contexts/FeatureFlagsContext.tsx:27-32 | the new flags are the old ones with the named flag toggled |
| FeatureFlags.FeatureFlagsProvider.ResetFlags | src/contexts/FeatureFlagsContext.tsx:34-36 | from any state, both flags off and the count zero |
| ApiKeys.Regenerate | src/hooks/useApiKeys.ts:81-91 | same length; records with the id get the new key text and date and keep the rest; other records unchanged |
| ApiKeys.Revoke | src/hooks/useApiKeys.ts:103-107 | same length; records with the id become revoked, others unchanged |
| ApiKeys.Without | src/hooks/useApiKeys.ts:119 | every record with the id goes, every other record stays with its multiplicity |
| ApiKeys.WithoutConcat | src/hooks/useApiKeys.ts:119 | deleting keeps the remaining records in order |
| ApiKeys.UnknownIdChangesNothing | src/hooks/useApiKeys.ts:81-119 | an id no record has leaves the list unchanged under regenerate, revoke and delete |
| ApiKeys.RevokeIdempotent | src/hooks/useApiKeys.ts:103-107 | revoking twice is revoking once |
| ApiKeys.StatusIsOneWay | src/hooks/useApiKeys.ts:81-107 | a revoked record stays revoked under regenerate and revoke |
| ApiKeys.UpdatesKeepIdsUnique | src/hooks/useApiKeys.ts:60-119 | regenerate, revoke and delete keep ids unique, and so does appending a record with a new id |
| ApiKeys.WithoutKeepsIdsUnique | src/hooks/useApiKeys.ts:119 | deleting keeps ids unique |
| ApiKeys.FirstWithId | src/hooks/useApiKeys.ts:125-127 | `find` by id: none exactly when no record has the id, else a record of the list with that id |
| ApiKeys.WithStatus | src/hooks/useApiKeys.ts:129-135 | the records of one status, each with its multiplicity in the list |
| ApiKeys.WithStatusConcat | src/hooks/useApiKeys.ts:129-135 | filtering works on each stretch separately, so it keeps the list's order |
| ApiKeys.ActiveRevokedPartition | src/hooks/useApiKeys.ts:129-135 | the active and the revoked keys together are the list, as a multiset |
| ApiKeys.ApiKeyStore.constructor | src/hooks/useApiKeys.ts:16-18 | empty list, loading, no operation in progress, storage as found |
| ApiKeys.ApiKeyStore.Persist | src/hooks/useApiKeys.ts:43-47 | once loading is over, the storage entry becomes the list |
| ApiKeys.ApiKeyStore.LoadApiKeys | src/hooks/useApiKeys.ts:20-40 | a stored array is adopted, anything else keeps the list; loading ends and the entry then mirrors the list |
| ApiKeys.ApiKeyStore.CreateApiKey | src/hooks/useApiKeys.ts:50-73 | a blank name fails with nothing changed; otherwise a record with the clock's id, the trimmed name, a generated key, today's date and active status is appended and returned; the storage entry is untouched while loading and the new list afterwards |
| ApiKeys.ApiKeyStore.RegenerateKey | src/hooks/useApiKeys.ts:75-95 | the list becomes its regenerated form with a generated key and today's date; the operation flag ends false; the storage entry is untouched while loading and the new list afterwards |
| ApiKeys.ApiKeyStore.RevokeKey | src/hooks/useApiKeys.ts:97-111 | the list becomes its revoked form; the operation flag ends false; the storage entry is untouched while loading and the new list afterwards |
| ApiKeys.ApiKeyStore.DeleteKey | src/hooks/useApiKeys.ts:113-123 | the list loses every record with the id; the operation flag ends false; the storage entry is untouched while loading and the new list afterwards |
| ApiKeys.ApiKeyStore.GetApiKey | src/hooks/useApiKeys.ts:125-127 | `getApiKey(id)` is FirstWithId on the list; stated by FirstWithId |
| ApiKeys.ApiKeyStore.GetActiveApiKeys | src/hooks/useApiKeys.ts:129-131 | the active keys; stated by WithStatus, WithStatusConcat and ActiveRevokedPartition |
| ApiKeys.ApiKeyStore.GetRevokedApiKeys | src/hooks/useApiKeys.ts:133-135 | the revoked keys; stated by WithStatus, WithStatusConcat and ActiveRevokedPartition |
| ApiKeyCard.MaskKey | src/components/ApiKeyCard.tsx:25-27 | the first eight characters, twenty bullets, the last four characters (all of a shorter key) |
| ApiKeyCard.MaskedLongKey | src/components/ApiKeyCard.tsx:25-27 | a key of 12 or more characters masks to 32 characters keeping the `sk_live_` prefix |
| ApiKeyCard.ShownKey | src/components/ApiKeyCard.tsx:51 | the raw key when visible, the mask otherwise; stated by ShownKeyIsRawIffVisible |
| ApiKeyCard.ShownKeyIsRawIffVisible | src/components/ApiKeyCard.tsx:51 | for a bullet-free key, the raw key is shown iff visible and a bullet is shown iff hidden |
| ApiKeyCard.ActionButtons | src/components/ApiKeyCard.tsx:81-112 | Delete always last; Regenerate and Revoke iff active; every button disabled iff an operation is in progress |
| ApiKeyCard.EnabledActions | src/components/ApiKeyCard.tsx:81-112 | an enabled button means no operation is in progress; a revoked key offers only Delete |
| ApiKeyCard.KeyCard.constructor | src/components/ApiKeyCard.tsx:23 | a card starts hidden |
| ApiKeyCard.KeyCard.ToggleKeyVisibility | src/components/ApiKeyCard.tsx:29-31 | the toggle negates the visibility |
| ApiKeyCard.KeyCard.Shown | src/components/ApiKeyCard.tsx:51 | the card's code text for its visibility; stated by ShownKeyIsRawIffVisible |
| Auth.GenerateMockToken | src/contexts/AuthContext.tsx:31-47 | a Bearer token for the guest user, lifetime 3600 s, expiring 3 600 000 ms after issue |
| Auth.IsTokenValid | src/contexts/AuthContext.tsx:49-51 | `Date.now() < expires_at`; stated by FreshTokenLifetime and Restore |
| Auth.FreshTokenLifetime | src/contexts/AuthContext.tsx:49-51 | a fresh token is valid at issue and at a later instant exactly before the hour is up |
| Auth.Restore | src/contexts/AuthContext.tsx:63-81 | a valid token yields its user and stays; an expired token or unparseable text is removed; no entry or an empty one changes nothing |
| Auth.RestoreAfterLogin | src/contexts/AuthContext.tsx:63-100 | a token stored by a login restores the guest within the hour and is removed afterwards |
| Auth.AuthSession.constructor | src/contexts/AuthContext.tsx:58-59 | no user, loading, storage as found |
| Auth.AuthSession.IsAuthenticated | src/contexts/AuthContext.tsx:110 | `!!user`; stated by Login and Logout |
| Auth.AuthSession.CheckExistingAuth | src/contexts/AuthContext.tsx:63-81 | the storage and user become what restoring gives; loading ends |
| Auth.AuthSession.Login | src/contexts/AuthContext.tsx:86-100 | a fresh token is stored, the guest is signed in, loading ends |
| Auth.AuthSession.Logout | src/contexts/AuthContext.tsx:102-105 | the entry is removed and the user forgotten |
| ChartDates.DisplayDate | src/components/StatusCodeLineChart.tsx:68 | `date.split('-').slice(1).join('/')`; stated by DisplayDateOfParts, IsoDisplayDate and DisplayDateWithoutDash |
| ChartDates.DisplayDateOfParts | src/components/StatusCodeLineChart.tsx:68 | dropping the first dash-separated segment turns `y-m-d` into `m/d` |
| ChartDates.IsoDisplayDate | src/components/BarChart.tsx:52 | a `YYYY-MM-DD` date is labelled `MM/DD`, five characters |
| ChartDates.DisplayDateWithoutDash | src/components/StatusCodeLineChart.tsx:68 | a date without a dash gets an empty label |
| StatusCodeLineChart.Colors | src/components/StatusCodeLineChart.tsx:45-59 | the modern palette exactly when the modern-colours flag is on, the default palette otherwise |
| StatusCodeLineChart.ChartRow | src/components/StatusCodeLineChart.tsx:65-74 | one chart row of a point; stated by ChartRowsFollowWindow and ChartRowCountsAreDayCounts |
| StatusCodeLineChart.ChartRows | src/components/StatusCodeLineChart.tsx:62-75 | the chart's rows for a filter; stated by ChartRowsFollowWindow and ChartRowCountsAreDayCounts |
| StatusCodeLineChart.ChartRowsFollowWindow | src/components/StatusCodeLineChart.tsx:62-75 | one row per window day, in order, with its date, full date and label; every windowed day has a breakdown |
| StatusCodeLineChart.ChartRowCountsAreDayCounts | src/components/StatusCodeLineChart.tsx:65-74 | with unique dates, each row's four counts are its own day's, zero where a code is absent |
| StatusCodeLineChart.BreakdownOfUniqueDate | src/lib/dataUtils.ts:173-174 | with unique dates, the lookup by a day's date yields that day's codes |
| BarChart.SourceData | src/components/BarChart.tsx:45-47 | synthetic window or the given data or nothing; stated by BarsFollowSource |
| BarChart.FormattedData | src/components/BarChart.tsx:50-54 | the labelled bars; stated by BarsFollowSource and BarsAlignWithStatusLines |
| BarChart.BarsFollowSource | src/components/BarChart.tsx:45-54 | bars keep the source rows' count, order, dates and requests; synthetic data means the filter's window, otherwise the given rows or none |
| BarChart.BarsAlignWithStatusLines | src/components/BarChart.tsx:45-54 | with synthetic data the bar rows and the status-code rows have the same days and labels, row by row |
| BarChart.TooltipBreakdown | src/components/BarChart.tsx:59-78 | a breakdown exactly with synthetic data and a fixture day of that date; it shows that day's 200 count as successes, 400 plus 401 as client errors and 500 as server errors |
| BarChart.TooltipAgreesWithTable | src/components/BarChart.tsx:59-78 | with unique dates, the tooltip shows the day's own 200 count, 400 plus 401 and 500 counts, and its client plus server errors equal the table row's error count |

## Left out

- Floating point is not modelled bit by bit.
  - Error rates are exact reals.
  - `averageErrorRate` is `None` where the code's value is NaN or Infinity, that is, when a window day has zero requests.
  - `toFixed(2)` formatting of a finite number is a parameter `fixed2`. The model decides when the rate is finite or Infinity, and appends `%`.
  - The dashboard's `successRate` text is not modelled.
  - Numbers beyond 2^53 are not modelled.
- `Math.random()`, `Date.now()` and `new Date().toISOString()` are parameters.
- The synthetic fixture is a parameter rather than the bundled JSON file.
- `JSON.parse` and `JSON.stringify` are not modelled. The storage entries hold what they parse to: no entry, text that does not parse, a non-array value, or a key list for the key collection; an empty entry, unparseable text or a token for the session. A parsed token lacking `expires_at` is not distinguished from an unparseable one, since the code removes both.
- `setTimeout` delays, promises, React re-rendering and effect scheduling are left out. Each operation runs to completion as one method call, and `isOperating` is false on return. The persistence effect is a separate method that the operations call.
- The browser download in `exportUsageDataToCSV` is left out: the `Blob`, the object URL and the anchor click. Only the CSV text is modelled.
- Rendering, styling, the `cn` class-name helper, clipboard copy and the icons are left out.
- ApiKeys.ApiKeyStore.RegenerateKey: when several records share the id, the code draws a fresh key for each of them. The model gives them all one generated key.
- Strings are sequences of Unicode characters rather than UTF-16 code units. Lengths, slices and masks differ from the code's for characters outside the Basic Multilingual Plane.
- ChartData: a `days` argument that is NaN is not modelled. Days are integers or absent.
- KeyGenerator.GenerateApiKey: the unit test's assertion that a key is longer than 20 characters (src/lib/__tests__/utils.test.ts:14) depends on how many base-36 digits `Math.random()` renders. The model proves only the prefix and the upper bound of 34.
