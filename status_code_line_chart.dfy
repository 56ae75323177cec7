/** The status-code line chart: one row per windowed day with the day's
    200, 400, 401 and 500 counts, and the palette the colour flag picks. */
module StatusCodeLineChart {
  import opened Wrappers
  import opened DataUtils
  import opened ChartDates
  import opened FeatureFlags

  datatype StatusCodeChartData = StatusCodeChartData(
    date: string,
    displayDate: string,
    fullDate: string,
    ok: nat,
    badRequest: nat,
    unauthorized: nat,
    serverError: nat)

  /** Line colours for codes 200, 400, 401 and 500. */
  datatype Palette = Palette(ok: string, badRequest: string, unauthorized: string, serverError: string)

  const DefaultPalette: Palette := Palette("#10b981", "#f59e0b", "#f97316", "#ef4444")

  const ModernPalette: Palette := Palette("#06d6a0", "#ffd166", "#f25c54", "#4d194d")

  /** The modern palette exactly when the modern-colours flag is on. */
  function Colors(flags: Flags): (p: Palette)
    ensures p == ModernPalette <==> flags.modernColors
    ensures p == DefaultPalette <==> !flags.modernColors
  {
    if flags.modernColors then ModernPalette else DefaultPalette
  }

  /** The row of one chart point: its status codes are looked up by date,
      an absent breakdown or code counting as zero. */
  function ChartRow(fixture: seq<DailyUsage>, point: ChartPoint): StatusCodeChartData
  {
    var codes := match StatusCodeBreakdown(fixture, point.date)
                 case Some(c) => c
                 case None => map[];
    StatusCodeChartData(point.date, DisplayDate(point.date), point.date,
                        CodeCount(codes, "200"), CodeCount(codes, "400"),
                        CodeCount(codes, "401"), CodeCount(codes, "500"))
  }

  /** The chart's data for a time filter. */
  function ChartRows(fixture: seq<DailyUsage>, timeFilter: string): seq<StatusCodeChartData>
  {
    var base := FilteredChartData(fixture, timeFilter);
    seq(|base|, i requires 0 <= i < |base| => ChartRow(fixture, base[i]))
  }

  /** One row per day of the filter's window, in order, dated and labelled
      by that day; every windowed day has a breakdown to look up. */
  lemma {:induction false} ChartRowsFollowWindow(fixture: seq<DailyUsage>, timeFilter: string)
    ensures var w := Window(fixture, DaysFromTimeFilter(timeFilter));
            var rows := ChartRows(fixture, timeFilter);
            |rows| == |w|
            && forall i :: 0 <= i < |rows| ==>
                 rows[i].date == w[i].date && rows[i].fullDate == w[i].date
                 && rows[i].displayDate == DisplayDate(w[i].date)
                 && StatusCodeBreakdown(fixture, w[i].date).Some?
  {
    var days := DaysFromTimeFilter(timeFilter);
    var w := Window(fixture, days);
    FilteredChartDataIsWindow(fixture, timeFilter);
    WindowIsSuffix(fixture, days);
    forall i | 0 <= i < |w|
      ensures StatusCodeBreakdown(fixture, w[i].date).Some?
    {
      assert w[i] == fixture[|fixture| - |w| + i];
    }
  }

  /** When no two fixture days share a date, each row's counts are its own
      day's 200, 400, 401 and 500 counts, zero where a code is absent. */
  lemma {:induction false} ChartRowCountsAreDayCounts(fixture: seq<DailyUsage>, timeFilter: string)
    requires UniqueDates(fixture)
    ensures var w := Window(fixture, DaysFromTimeFilter(timeFilter));
            var rows := ChartRows(fixture, timeFilter);
            |rows| == |w|
            && forall i :: 0 <= i < |rows| ==>
                 rows[i].ok == CodeCount(w[i].statusCodes, "200")
                 && rows[i].badRequest == CodeCount(w[i].statusCodes, "400")
                 && rows[i].unauthorized == CodeCount(w[i].statusCodes, "401")
                 && rows[i].serverError == CodeCount(w[i].statusCodes, "500")
  {
    var days := DaysFromTimeFilter(timeFilter);
    var w := Window(fixture, days);
    FilteredChartDataIsWindow(fixture, timeFilter);
    WindowIsSuffix(fixture, days);
    forall i | 0 <= i < |w|
      ensures StatusCodeBreakdown(fixture, w[i].date) == Some(w[i].statusCodes)
    {
      var k := |fixture| - |w| + i;
      assert w[i] == fixture[k];
      BreakdownOfUniqueDate(fixture, k);
    }
  }

  /** With unique dates the lookup by a day's date finds that day. */
  lemma BreakdownOfUniqueDate(fixture: seq<DailyUsage>, k: nat)
    requires UniqueDates(fixture) && k < |fixture|
    ensures StatusCodeBreakdown(fixture, fixture[k].date) == Some(fixture[k].statusCodes)
  {
    var r := StatusCodeBreakdown(fixture, fixture[k].date);
    var i :| 0 <= i < |fixture| && fixture[i].date == fixture[k].date
             && r.value == fixture[i].statusCodes
             && forall j :: 0 <= j < i ==> fixture[j].date != fixture[k].date;
    assert i == k;
  }
}
