/** The synthetic usage-data engine: time-window selection over the daily
    usage fixture, chart and table rows, window statistics, the per-day
    status-code lookup, the dashboard headline figures and the CSV text of
    an export. The fixture, the clock and the `Math.random()` draws are
    parameters. */
module DataUtils {
  import opened Wrappers
  import opened JsBuiltins

  /** Count per HTTP status-code label ("200", "400", "401", "500"). */
  type StatusCodes = map<string, nat>

  /** One fixture day. */
  datatype DailyUsage = DailyUsage(
    date: string,
    requests: nat,
    statusCodes: StatusCodes,
    apiKeyUsage: map<string, nat>)

  datatype KeyStatus = Active | Revoked

  /** A seed key of the fixture (not the persisted key collection). */
  datatype ApiKeyInfo = ApiKeyInfo(
    id: string,
    name: string,
    created: string,
    lastUsed: string,
    status: KeyStatus)

  datatype SyntheticDataset = SyntheticDataset(dailyUsage: seq<DailyUsage>, apiKeys: seq<ApiKeyInfo>)

  /** A bar-chart point. */
  datatype ChartPoint = ChartPoint(date: string, requests: nat)

  /** A usage-table row. */
  datatype UsageData = UsageData(date: string, requests: nat, errors: nat, latency: int)

  /** Window statistics. `averageErrorRate` is `None` where the source's
      floating-point arithmetic yields NaN or Infinity. */
  datatype Stats = Stats(
    totalRequests: nat,
    totalErrors: nat,
    averageErrorRate: Option<real>,
    averageLatency: int)

  /** The integer figures of the dashboard (the success-rate text is not
      modelled). */
  datatype DashboardMetrics = DashboardMetrics(totalApiKeys: nat, apiCallsToday: nat, errorsToday: nat)

  // ---------------------------------------------------------------------
  // Time window

  /** Days shown for a time-filter label; any other label means a week. */
  function DaysFromTimeFilter(filter: string): (days: nat)
    ensures days == 1 || days == 7 || days == 20 || days == 29
    ensures filter == "24h" ==> days == 1
    ensures filter == "7d" ==> days == 7
    ensures filter == "30d" ==> days == 20
    ensures filter == "90d" ==> days == 29
    ensures filter != "24h" && filter != "7d" && filter != "30d" && filter != "90d" ==> days == 7
  {
    if filter == "24h" then 1
    else if filter == "7d" then 7
    else if filter == "30d" then 20
    else if filter == "90d" then 29
    else 7
  }

  /** `dailyUsage.slice(-days)`. */
  function Window(fixture: seq<DailyUsage>, days: int): seq<DailyUsage>
  {
    SliceFrom(fixture, -days)
  }

  /** A positive window is the last min(days, n) fixture days, in order. */
  lemma WindowIsSuffix(fixture: seq<DailyUsage>, days: int)
    requires days > 0
    ensures |Window(fixture, days)| == Min(days, |fixture|)
    ensures Window(fixture, days) == fixture[|fixture| - Min(days, |fixture|)..]
  {
    SliceLast(fixture, days);
  }

  /** A shorter window is the tail of a longer one. */
  lemma WindowsNest(fixture: seq<DailyUsage>, shorter: int, longer: int)
    requires 0 < shorter <= longer
    ensures |Window(fixture, shorter)| <= |Window(fixture, longer)|
    ensures Window(fixture, longer) ==
            Window(fixture, longer)[..|Window(fixture, longer)| - |Window(fixture, shorter)|]
            + Window(fixture, shorter)
  {
    WindowIsSuffix(fixture, shorter);
    WindowIsSuffix(fixture, longer);
  }

  // ---------------------------------------------------------------------
  // Chart points

  function ChartPoints(days: seq<DailyUsage>): seq<ChartPoint>
  {
    seq(|days|, i requires 0 <= i < |days| => ChartPoint(days[i].date, days[i].requests))
  }

  /** `getChartData(days)`: a missing or zero day count keeps every point. */
  function ChartData(fixture: seq<DailyUsage>, days: Option<int>): seq<ChartPoint>
  {
    var points := ChartPoints(fixture);
    if days.Some? && days.value != 0 then SliceFrom(points, -days.value) else points
  }

  /** `getFilteredChartData(timeFilter)`. */
  function FilteredChartData(fixture: seq<DailyUsage>, timeFilter: string): seq<ChartPoint>
  {
    ChartData(fixture, Some(DaysFromTimeFilter(timeFilter)))
  }

  /** Without a day count the chart shows every fixture day; with a positive
      one it shows the last min(days, n) days in order, one point per day
      carrying its date and request count. */
  lemma ChartDataWindow(fixture: seq<DailyUsage>, days: Option<int>)
    ensures days.None? || days == Some(0) ==> |ChartData(fixture, days)| == |fixture|
    ensures days.Some? && days.value > 0 ==>
              |ChartData(fixture, days)| == Min(days.value, |fixture|)
    ensures var r := ChartData(fixture, days);
            forall i :: 0 <= i < |r| ==>
              r[i].date == fixture[|fixture| - |r| + i].date
              && r[i].requests == fixture[|fixture| - |r| + i].requests
  {
    var points := ChartPoints(fixture);
    var r := ChartData(fixture, days);
    var from := if days.Some? && days.value != 0 then RelativeIndex(|points|, -days.value) else 0;
    assert r == points[from..];
    if days.Some? && days.value > 0 {
      SliceLast(points, days.value);
    }
    forall i | 0 <= i < |r|
      ensures r[i].date == fixture[|fixture| - |r| + i].date
      ensures r[i].requests == fixture[|fixture| - |r| + i].requests
    {
      assert r[i] == points[from + i];
    }
  }

  /** The chart of a label is the point view of that label's window, the
      window the table and the statistics use. */
  lemma {:induction false} FilteredChartDataIsWindow(fixture: seq<DailyUsage>, timeFilter: string)
    ensures FilteredChartData(fixture, timeFilter)
         == ChartPoints(Window(fixture, DaysFromTimeFilter(timeFilter)))
  {
    var days := DaysFromTimeFilter(timeFilter);
    SliceLast(ChartPoints(fixture), days);
    WindowIsSuffix(fixture, days);
  }

  /** The window never exceeds the label's day count nor the fixture, and
      the 24-hour chart is never longer than the 7-day chart. */
  lemma FilteredChartDataBounds(fixture: seq<DailyUsage>, timeFilter: string)
    ensures |FilteredChartData(fixture, timeFilter)| <= DaysFromTimeFilter(timeFilter)
    ensures |FilteredChartData(fixture, timeFilter)| <= |fixture|
    ensures |FilteredChartData(fixture, "24h")| <= |FilteredChartData(fixture, "7d")|
  {
    ChartDataWindow(fixture, Some(DaysFromTimeFilter(timeFilter)));
    ChartDataWindow(fixture, Some(1));
    ChartDataWindow(fixture, Some(7));
  }

  // ---------------------------------------------------------------------
  // Per-day counts

  /** `status_codes[code] || 0`. */
  function CodeCount(codes: StatusCodes, code: string): nat
  {
    if code in codes then codes[code] else 0
  }

  /** Errors of a day: the 400, 401 and 500 counts. */
  function ErrorCount(day: DailyUsage): nat
  {
    CodeCount(day.statusCodes, "400") + CodeCount(day.statusCodes, "401")
    + CodeCount(day.statusCodes, "500")
  }

  /** Successes never count as errors, absent codes count as zero, and each
      error code counts in full. */
  lemma ErrorCountCodes(day: DailyUsage, n: nat)
    ensures ErrorCount(day.(statusCodes := day.statusCodes["200" := n])) == ErrorCount(day)
    ensures ErrorCount(day.(statusCodes := map[])) == 0
    ensures ErrorCount(day) >= CodeCount(day.statusCodes, "400")
    ensures ErrorCount(day) >= CodeCount(day.statusCodes, "401")
    ensures ErrorCount(day) >= CodeCount(day.statusCodes, "500")
    ensures ("400" !in day.statusCodes && "401" !in day.statusCodes && "500" !in day.statusCodes)
              ==> ErrorCount(day) == 0
  {
  }

  /** `Math.round`: the nearest integer, halves rounded up. */
  function Round(x: real): (r: int)
    ensures x - 0.5 < r as real <= x + 0.5
  {
    (x + 0.5).Floor
  }

  /** The deterministic part of a day's simulated latency. */
  function LatencyBaseline(requests: nat): nat
  {
    50 + (requests / 100) * 2
  }

  /** One table row; `draw` is the `Math.random()` value for it. */
  function TableRow(day: DailyUsage, draw: real): UsageData
  {
    UsageData(day.date, day.requests, ErrorCount(day),
              Round(LatencyBaseline(day.requests) as real + draw * 20.0))
  }

  /** `getSyntheticTableData(timeFilter)`; `random(i)` is the draw for the
      i-th row of the window. */
  function SyntheticTableData(fixture: seq<DailyUsage>, timeFilter: string, random: nat -> real): seq<UsageData>
  {
    var w := Window(fixture, DaysFromTimeFilter(timeFilter));
    seq(|w|, i requires 0 <= i < |w| => TableRow(w[i], random(i)))
  }

  /** One row per window day, in order, copying date and requests, counting
      the day's errors, with a latency within 20 ms above the baseline when
      every draw lies in [0, 1). */
  lemma TableRowsMatchWindow(fixture: seq<DailyUsage>, timeFilter: string, random: nat -> real)
    requires forall i: nat :: 0.0 <= random(i) < 1.0
    ensures var w := Window(fixture, DaysFromTimeFilter(timeFilter));
            var rows := SyntheticTableData(fixture, timeFilter, random);
            |rows| == |w| &&
            forall i :: 0 <= i < |rows| ==>
              rows[i].date == w[i].date && rows[i].requests == w[i].requests
              && rows[i].errors == ErrorCount(w[i])
              && LatencyBaseline(w[i].requests) <= rows[i].latency <= LatencyBaseline(w[i].requests) + 20
  {
    var w := Window(fixture, DaysFromTimeFilter(timeFilter));
    var rows := SyntheticTableData(fixture, timeFilter, random);
    forall i | 0 <= i < |rows|
      ensures LatencyBaseline(w[i].requests) <= rows[i].latency <= LatencyBaseline(w[i].requests) + 20
    {
      var x := LatencyBaseline(w[i].requests) as real + random(i) * 20.0;
      assert 0.0 <= random(i) * 20.0 < 20.0;
      assert rows[i].latency == Round(x);
    }
  }

  // ---------------------------------------------------------------------
  // Statistics

  function RequestsOf(day: DailyUsage): nat { day.requests }

  /** `days.reduce((sum, d) => sum + f(d), 0)`. */
  function SumOf(days: seq<DailyUsage>, f: DailyUsage -> nat): nat
  {
    if days == [] then 0 else f(days[0]) + SumOf(days[1..], f)
  }

  /** A sum over two consecutive stretches of days is the sum of the sums. */
  lemma {:induction false} SumOfConcat(a: seq<DailyUsage>, b: seq<DailyUsage>, f: DailyUsage -> nat)
    ensures SumOf(a + b, f) == SumOf(a, f) + SumOf(b, f)
  {
    if a != [] {
      assert (a + b)[0] == a[0];
      assert (a + b)[1..] == a[1..] + b;
      SumOfConcat(a[1..], b, f);
    } else {
      assert a + b == b;
    }
  }

  /** A day's error rate in percent; defined only for days with requests. */
  function DayErrorRate(day: DailyUsage): real
    requires day.requests > 0
  {
    (ErrorCount(day) as real / day.requests as real) * 100.0
  }

  /** The sum of the per-day error rates; `None` as soon as one day has no
      requests (0/0 is NaN and e/0 is Infinity, and both absorb the sum). */
  function ErrorRateSum(days: seq<DailyUsage>): Option<real>
  {
    if days == [] then Some(0.0)
    else if days[0].requests == 0 then None
    else
      match ErrorRateSum(days[1..])
      case None => None
      case Some(rest) => Some(DayErrorRate(days[0]) + rest)
  }

  /** The sum of the rates is finite exactly when every day has requests,
      and is then non-negative. */
  lemma {:induction false} ErrorRateSumFinite(days: seq<DailyUsage>)
    ensures ErrorRateSum(days).Some? <==> forall i :: 0 <= i < |days| ==> days[i].requests > 0
    ensures ErrorRateSum(days).Some? ==> ErrorRateSum(days).value >= 0.0
  {
    if days != [] {
      ErrorRateSumFinite(days[1..]);
      if days[0].requests > 0 {
        assert forall i :: 1 <= i < |days| ==> days[i] == days[1..][i - 1];
      }
    }
  }

  /** The sum of simulated latencies of days i.. of the window. */
  function LatencySum(w: seq<DailyUsage>, random: nat -> real, i: nat): real
    requires i <= |w|
    decreases |w| - i
  {
    if i == |w| then 0.0
    else LatencyBaseline(w[i].requests) as real + random(i) * 20.0 + LatencySum(w, random, i + 1)
  }

  /** With draws in [0, 1) every day adds at least 50 ms. */
  lemma {:induction false} LatencySumAtLeastBase(w: seq<DailyUsage>, random: nat -> real, i: nat)
    requires i <= |w|
    requires forall k: nat :: 0.0 <= random(k) < 1.0
    ensures LatencySum(w, random, i) >= 50.0 * (|w| - i) as real
    decreases |w| - i
  {
    if i < |w| {
      LatencySumAtLeastBase(w, random, i + 1);
      assert random(i) * 20.0 >= 0.0;
    }
  }

  /** `getSyntheticStats(timeFilter)`; `random(i)` is the latency draw for
      the i-th day of the window. */
  function SyntheticStats(fixture: seq<DailyUsage>, timeFilter: string, random: nat -> real): Stats
  {
    var w := Window(fixture, DaysFromTimeFilter(timeFilter));
    var n := |w|;
    Stats(
      SumOf(w, RequestsOf),
      SumOf(w, ErrorCount),
      if n > 0 then
        match ErrorRateSum(w)
        case None => None
        case Some(total) => Some(total / n as real)
      else Some(0.0),
      if n > 0 then Round(LatencySum(w, random, 0) / n as real) else 0)
  }

  /** An empty fixture gives zero totals, a zero error rate and a zero
      latency. */
  lemma StatsOfEmptyWindow(fixture: seq<DailyUsage>, timeFilter: string, random: nat -> real)
    requires |fixture| == 0
    ensures SyntheticStats(fixture, timeFilter, random)
         == Stats(0, 0, Some(0.0), 0)
  {
  }

  /** The average error rate is a finite, non-negative number exactly when
      every day of the window has requests; the source does not guard the
      division, so one day without requests makes it NaN or Infinity. */
  lemma {:induction false} StatsErrorRateFinite(fixture: seq<DailyUsage>, timeFilter: string, random: nat -> real)
    ensures var w := Window(fixture, DaysFromTimeFilter(timeFilter));
            var s := SyntheticStats(fixture, timeFilter, random);
            (s.averageErrorRate.Some? <==> forall i :: 0 <= i < |w| ==> w[i].requests > 0)
            && (s.averageErrorRate.Some? ==> s.averageErrorRate.value >= 0.0)
  {
    var w := Window(fixture, DaysFromTimeFilter(timeFilter));
    ErrorRateSumFinite(w);
  }

  /** With draws in [0, 1) a non-empty window averages at least 50 ms. */
  lemma {:induction false} StatsLatencyAtLeastBase(fixture: seq<DailyUsage>, timeFilter: string, random: nat -> real)
    requires forall k: nat :: 0.0 <= random(k) < 1.0
    requires |fixture| > 0
    ensures SyntheticStats(fixture, timeFilter, random).averageLatency >= 50
  {
    var w := Window(fixture, DaysFromTimeFilter(timeFilter));
    WindowIsSuffix(fixture, DaysFromTimeFilter(timeFilter));
    LatencySumAtLeastBase(w, random, 0);
    var n := |w| as real;
    assert LatencySum(w, random, 0) / n >= 50.0;
  }

  /** The 24-hour totals never exceed the 7-day totals, whatever the draws. */
  lemma {:induction false} DayTotalsWithinWeekTotals(fixture: seq<DailyUsage>, r1: nat -> real, r2: nat -> real)
    ensures SyntheticStats(fixture, "24h", r1).totalRequests <= SyntheticStats(fixture, "7d", r2).totalRequests
    ensures SyntheticStats(fixture, "24h", r1).totalErrors <= SyntheticStats(fixture, "7d", r2).totalErrors
  {
    var day, week := Window(fixture, 1), Window(fixture, 7);
    WindowsNest(fixture, 1, 7);
    var head := week[..|week| - |day|];
    SumOfConcat(head, day, RequestsOf);
    SumOfConcat(head, day, ErrorCount);
  }

  /** `getTotalRequests()`: requests over the whole fixture. */
  function TotalRequests(fixture: seq<DailyUsage>): nat
  {
    SumOf(fixture, RequestsOf)
  }

  /** Every window's total is at most the fixture total, and equals it when
      the window covers the whole fixture. */
  lemma {:induction false} TotalRequestsBoundsWindows(fixture: seq<DailyUsage>, timeFilter: string, random: nat -> real)
    ensures SyntheticStats(fixture, timeFilter, random).totalRequests <= TotalRequests(fixture)
    ensures (|fixture| <= DaysFromTimeFilter(timeFilter))
              ==> SyntheticStats(fixture, timeFilter, random).totalRequests == TotalRequests(fixture)
  {
    var days := DaysFromTimeFilter(timeFilter);
    var w := Window(fixture, days);
    WindowIsSuffix(fixture, days);
    var head := fixture[..|fixture| - |w|];
    assert fixture == head + w;
    SumOfConcat(head, w, RequestsOf);
  }

  // ---------------------------------------------------------------------
  // Per-day lookup

  /** No two fixture days share a date. */
  predicate UniqueDates(fixture: seq<DailyUsage>)
  {
    forall i, j :: 0 <= i < j < |fixture| ==> fixture[i].date != fixture[j].date
  }

  /** Index of the first day dated exactly `date`. */
  function FirstDayWithDate(days: seq<DailyUsage>, date: string): (r: Option<nat>)
    ensures r.Some? ==> r.value < |days| && days[r.value].date == date
                        && forall j :: 0 <= j < r.value ==> days[j].date != date
    ensures r.None? <==> forall j :: 0 <= j < |days| ==> days[j].date != date
  {
    if days == [] then None
    else if days[0].date == date then Some(0)
    else
      match FirstDayWithDate(days[1..], date)
      case None => None
      case Some(k) => Some(k + 1)
  }

  /** `getStatusCodeBreakdown(date)`: the status codes of the first day with
      exactly that date, or nothing. */
  function StatusCodeBreakdown(fixture: seq<DailyUsage>, date: string): (r: Option<StatusCodes>)
    ensures r.None? <==> forall j :: 0 <= j < |fixture| ==> fixture[j].date != date
    ensures r.Some? ==> exists i :: 0 <= i < |fixture| && fixture[i].date == date
                          && r.value == fixture[i].statusCodes
                          && forall j :: 0 <= j < i ==> fixture[j].date != date
  {
    match FirstDayWithDate(fixture, date)
    case None => None
    case Some(i) => Some(fixture[i].statusCodes)
  }

  // ---------------------------------------------------------------------
  // Dashboard

  /** `new Date().toISOString().split('T')[0]`: the date part of an ISO
      timestamp. */
  function IsoDate(iso: string): string
  {
    Split(iso, 'T')[0]
  }

  /** The date part is everything before the first `T`. */
  lemma IsoDateOf(date: string, time: string)
    requires 'T' !in date
    ensures IsoDate(date + "T" + time) == date
  {
    SplitAtFirstSeparator(date, 'T', time);
  }

  /** Fixture seed keys with status active. */
  function CountActive(keys: seq<ApiKeyInfo>): (n: nat)
    ensures n <= |keys|
    ensures n == 0 <==> forall i :: 0 <= i < |keys| ==> keys[i].status != Active
    ensures n == |keys| <==> forall i :: 0 <= i < |keys| ==> keys[i].status == Active
    ensures |keys| == 1 ==> (n == 1 <==> keys[0].status == Active)
  {
    if keys == [] then 0
    else (if keys[0].status == Active then 1 else 0) + CountActive(keys[1..])
  }

  /** Counting works on each stretch of the list separately; with the
      single-key case of the contract this fixes the count. */
  lemma {:induction false} CountActiveConcat(a: seq<ApiKeyInfo>, b: seq<ApiKeyInfo>)
    ensures CountActive(a + b) == CountActive(a) + CountActive(b)
  {
    if a != [] {
      CountActiveConcat(a[1..], b);
      assert (a + b)[1..] == a[1..] + b;
    } else {
      assert a + b == b;
    }
  }

  /** The day dated today, else the last fixture day, else nothing. */
  function TodayRecord(fixture: seq<DailyUsage>, today: string): (r: Option<DailyUsage>)
    ensures r.None? <==> |fixture| == 0
    ensures r.Some? ==> r.value in fixture
    ensures forall i :: 0 <= i < |fixture| && fixture[i].date == today
              && (forall j :: 0 <= j < i ==> fixture[j].date != today)
              ==> r == Some(fixture[i])
    ensures (|fixture| > 0 && forall j :: 0 <= j < |fixture| ==> fixture[j].date != today)
              ==> r == Some(fixture[|fixture| - 1])
  {
    match FirstDayWithDate(fixture, today)
    case Some(i) => Some(fixture[i])
    case None => if |fixture| > 0 then Some(fixture[|fixture| - 1]) else None
  }

  /** `getDashboardMetrics()` at the instant whose ISO text is `nowIso`:
      active seed keys, and today's calls and errors taken from the first
      day dated today, else from the last day, else zero. */
  function GetDashboardMetrics(data: SyntheticDataset, nowIso: string): (m: DashboardMetrics)
    ensures m.totalApiKeys == CountActive(data.apiKeys)
    ensures |data.dailyUsage| == 0 ==> m.apiCallsToday == 0 && m.errorsToday == 0
    ensures forall i :: 0 <= i < |data.dailyUsage| && data.dailyUsage[i].date == IsoDate(nowIso)
              && (forall j :: 0 <= j < i ==> data.dailyUsage[j].date != IsoDate(nowIso))
              ==> m.apiCallsToday == data.dailyUsage[i].requests
                  && m.errorsToday == ErrorCount(data.dailyUsage[i])
    ensures (|data.dailyUsage| > 0
              && forall j :: 0 <= j < |data.dailyUsage| ==> data.dailyUsage[j].date != IsoDate(nowIso))
              ==> m.apiCallsToday == data.dailyUsage[|data.dailyUsage| - 1].requests
                  && m.errorsToday == ErrorCount(data.dailyUsage[|data.dailyUsage| - 1])
  {
    var record := TodayRecord(data.dailyUsage, IsoDate(nowIso));
    DashboardMetrics(
      CountActive(data.apiKeys),
      if record.Some? then record.value.requests else 0,
      if record.Some? then ErrorCount(record.value) else 0)
  }

  // ---------------------------------------------------------------------
  // CSV export

  const CsvHeader: seq<string> := ["Date", "Requests", "Errors", "Error Rate", "Avg Latency"]

  /** The error rate a CSV row shows, `(errors / requests) * 100 || 0`: a
      finite percentage, or Infinity for errors over zero requests. Zero
      errors over zero requests is NaN, which `|| 0` turns into 0. */
  datatype CsvRate = FiniteRate(percent: real) | InfiniteRate

  function CsvRateOf(row: UsageData): (r: CsvRate)
    ensures r.InfiniteRate? <==> row.requests == 0 && row.errors > 0
    ensures row.requests == 0 && row.errors == 0 ==> r == FiniteRate(0.0)
    ensures r.FiniteRate? ==> r.percent >= 0.0
    ensures r.FiniteRate? && row.errors <= row.requests ==> r.percent <= 100.0
    ensures r.FiniteRate? && row.requests > 0 ==> r.percent * row.requests as real == row.errors as real * 100.0
  {
    if row.requests > 0 then
      var q := row.errors as real / row.requests as real;
      assert q * row.requests as real == row.errors as real;
      assert row.errors <= row.requests ==> q <= 1.0;
      FiniteRate(q * 100.0)
    else if row.errors > 0 then InfiniteRate
    else FiniteRate(0.0)
  }

  /** The rate's `toFixed(2)` text: `fixed2(x)` for a finite `x`, and
      "Infinity" otherwise. */
  function RateText(row: UsageData, fixed2: real -> string): string
  {
    match CsvRateOf(row)
    case FiniteRate(p) => fixed2(p)
    case InfiniteRate => "Infinity"
  }

  /** The five fields of a row; `fixed2(x)` is the `toFixed(2)` text of a
      finite number. */
  function CsvFields(row: UsageData, fixed2: real -> string): seq<string>
  {
    [row.date, NatToString(row.requests), NatToString(row.errors),
     RateText(row, fixed2) + "%", IntToString(row.latency) + "ms"]
  }

  /** The rate field in each case: `0.00`-style text for no requests and no
      errors, `Infinity%` for errors over no requests, and otherwise the
      fixed-point text of the errors as a percentage of the requests. */
  lemma CsvRateField(row: UsageData, fixed2: real -> string)
    ensures row.requests == 0 && row.errors == 0 ==> CsvFields(row, fixed2)[3] == fixed2(0.0) + "%"
    ensures row.requests == 0 && row.errors > 0 ==> CsvFields(row, fixed2)[3] == "Infinity%"
    ensures row.requests > 0 ==>
              CsvFields(row, fixed2)[3] == fixed2(row.errors as real * 100.0 / row.requests as real) + "%"
  {
    if row.requests > 0 {
      var p := CsvRateOf(row).percent;
      assert p * row.requests as real == row.errors as real * 100.0;
      assert p == row.errors as real * 100.0 / row.requests as real;
    }
  }

  /** The header line followed by one line per row. */
  function CsvLines(rows: seq<UsageData>, fixed2: real -> string): seq<string>
  {
    [Join(CsvHeader, ",")]
    + seq(|rows|, i requires 0 <= i < |rows| => Join(CsvFields(rows[i], fixed2), ","))
  }

  /** The text `exportUsageDataToCSV` puts in the downloaded file. */
  function CsvContent(rows: seq<UsageData>, fixed2: real -> string): string
  {
    Join(CsvLines(rows, fixed2), "\n")
  }

  /** A row's line holds no line break and splits back into its fields, the
      counts reading back as the row's numbers, when its date and the
      fixed-point texts hold neither a comma nor a line break. */
  lemma CsvLineReadBack(row: UsageData, fixed2: real -> string)
    requires ',' !in row.date && '\n' !in row.date
    requires forall x: real :: ',' !in fixed2(x) && '\n' !in fixed2(x)
    ensures '\n' !in Join(CsvFields(row, fixed2), ",")
    ensures var fields := Split(Join(CsvFields(row, fixed2), ","), ',');
            fields == CsvFields(row, fixed2)
            && DecimalValue(fields[1]) == row.requests
            && DecimalValue(fields[2]) == row.errors
            && fields[4][|fields[4]| - 2..] == "ms"
  {
    var fields := CsvFields(row, fixed2);
    assert forall k :: 0 <= k < 5 ==> ',' !in fields[k] && '\n' !in fields[k];
    SplitJoin(fields, ',');
    JoinHasNoChar(fields, ",", '\n');
    NatToStringRoundTrip(row.requests);
    NatToStringRoundTrip(row.errors);
  }

  /** The header line is exactly the five column titles joined by commas. */
  lemma CsvHeaderLine()
    ensures Join(CsvHeader, ",") == "Date,Requests,Errors,Error Rate,Avg Latency"
  {
    assert CsvHeader[1..] == ["Requests", "Errors", "Error Rate", "Avg Latency"];
    assert CsvHeader[1..][1..] == ["Errors", "Error Rate", "Avg Latency"];
    assert CsvHeader[1..][1..][1..] == ["Error Rate", "Avg Latency"];
    assert CsvHeader[1..][1..][1..][1..] == ["Avg Latency"];
  }

  /** Read back line by line, the CSV text is the fixed header followed by
      one line per row, in order, when no date or fixed-point text contains
      a comma or a line break. */
  lemma {:induction false} CsvLayout(rows: seq<UsageData>, fixed2: real -> string)
    requires forall i :: 0 <= i < |rows| ==> ',' !in rows[i].date && '\n' !in rows[i].date
    requires forall x: real :: ',' !in fixed2(x) && '\n' !in fixed2(x)
    ensures var lines := Split(CsvContent(rows, fixed2), '\n');
            |lines| == |rows| + 1
            && lines[0] == "Date,Requests,Errors,Error Rate,Avg Latency"
            && forall i :: 0 <= i < |rows| ==> lines[i + 1] == Join(CsvFields(rows[i], fixed2), ",")
  {
    var lines := CsvLines(rows, fixed2);
    CsvHeaderLine();
    assert lines[0] == "Date,Requests,Errors,Error Rate,Avg Latency";
    forall k | 0 <= k < |lines|
      ensures '\n' !in lines[k]
    {
      if k > 0 {
        CsvLineReadBack(rows[k - 1], fixed2);
        assert lines[k] == Join(CsvFields(rows[k - 1], fixed2), ",");
      }
    }
    SplitJoin(lines, '\n');
    assert Split(CsvContent(rows, fixed2), '\n') == lines;
  }

  /** A join of parts and separators free of `c` is free of `c`. */
  lemma {:induction false} JoinHasNoChar(parts: seq<string>, sep: string, c: char)
    requires c !in sep
    requires forall k :: 0 <= k < |parts| ==> c !in parts[k]
    ensures c !in Join(parts, sep)
  {
    if |parts| > 1 {
      JoinHasNoChar(parts[1..], sep, c);
    }
  }
}
