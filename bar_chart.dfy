/** The request bar chart: its source rows, their labels, and the status
    breakdown its tooltip shows. */
module BarChart {
  import opened Wrappers
  import opened DataUtils
  import opened ChartDates
  import StatusCodeLineChart

  datatype FormattedChartData = FormattedChartData(
    date: string,
    requests: nat,
    displayDate: string,
    fullDate: string)

  /** `useSyntheticData ? getFilteredChartData(timeFilter) : data || []`. */
  function SourceData(fixture: seq<DailyUsage>, useSyntheticData: bool, timeFilter: string,
                      data: Option<seq<ChartPoint>>): seq<ChartPoint>
  {
    if useSyntheticData then FilteredChartData(fixture, timeFilter)
    else if data.Some? then data.value
    else []
  }

  /** `chartData.map(item => ({ ...item, displayDate, fullDate: item.date }))`. */
  function FormattedData(points: seq<ChartPoint>): seq<FormattedChartData>
  {
    seq(|points|, i requires 0 <= i < |points| =>
      FormattedChartData(points[i].date, points[i].requests, DisplayDate(points[i].date), points[i].date))
  }

  /** The bars keep the source rows' number, order, dates and request
      counts; with synthetic data they are the filter's window, otherwise
      the given rows, or none. */
  lemma {:induction false} BarsFollowSource(fixture: seq<DailyUsage>, useSyntheticData: bool,
                                            timeFilter: string, data: Option<seq<ChartPoint>>)
    ensures var src := SourceData(fixture, useSyntheticData, timeFilter, data);
            var bars := FormattedData(src);
            |bars| == |src|
            && forall i :: 0 <= i < |bars| ==>
                 bars[i].date == src[i].date && bars[i].requests == src[i].requests
                 && bars[i].fullDate == src[i].date && bars[i].displayDate == DisplayDate(src[i].date)
    ensures useSyntheticData ==>
              FormattedData(SourceData(fixture, useSyntheticData, timeFilter, data))
              == FormattedData(ChartPoints(Window(fixture, DaysFromTimeFilter(timeFilter))))
    ensures !useSyntheticData && data.None? ==> SourceData(fixture, useSyntheticData, timeFilter, data) == []
    ensures !useSyntheticData && data.Some? ==> SourceData(fixture, useSyntheticData, timeFilter, data) == data.value
  {
    FilteredChartDataIsWindow(fixture, timeFilter);
  }

  /** With synthetic data the bar chart and the status-code line chart have
      the same days, row by row, with the same labels. */
  lemma {:induction false} BarsAlignWithStatusLines(fixture: seq<DailyUsage>, timeFilter: string)
    ensures var bars := FormattedData(SourceData(fixture, true, timeFilter, None));
            var lines := StatusCodeLineChart.ChartRows(fixture, timeFilter);
            |bars| == |lines|
            && forall i :: 0 <= i < |bars| ==>
                 bars[i].date == lines[i].date && bars[i].fullDate == lines[i].fullDate
                 && bars[i].displayDate == lines[i].displayDate
  {
  }

  /** The tooltip's breakdown: successes, client errors (400 and 401) and
      server errors (500). */
  datatype TooltipCounts = TooltipCounts(success: nat, clientErrors: nat, serverErrors: nat)

  /** The breakdown shown for the bar dated `fullDate`: only with synthetic
      data, and only when some fixture day has that date. */
  function TooltipBreakdown(fixture: seq<DailyUsage>, useSyntheticData: bool, fullDate: string): (r: Option<TooltipCounts>)
    ensures r.Some? <==> useSyntheticData && exists i :: 0 <= i < |fixture| && fixture[i].date == fullDate
    ensures r.Some? ==>
              exists i :: 0 <= i < |fixture| && fixture[i].date == fullDate
                && r.value.success == CodeCount(fixture[i].statusCodes, "200")
                && r.value.clientErrors == CodeCount(fixture[i].statusCodes, "400") + CodeCount(fixture[i].statusCodes, "401")
                && r.value.serverErrors == CodeCount(fixture[i].statusCodes, "500")
                && r.value.clientErrors + r.value.serverErrors == ErrorCount(fixture[i])
  {
    if !useSyntheticData then None
    else
      match StatusCodeBreakdown(fixture, fullDate)
      case None => None
      case Some(codes) =>
        Some(TooltipCounts(CodeCount(codes, "200"),
                           CodeCount(codes, "400") + CodeCount(codes, "401"),
                           CodeCount(codes, "500")))
  }

  /** With unique dates, a day's tooltip shows its own counts: successes
      (200), client errors (400 and 401) and server errors (500), the last
      two adding up to the error count of its table row. */
  lemma TooltipAgreesWithTable(fixture: seq<DailyUsage>, k: nat)
    requires UniqueDates(fixture) && k < |fixture|
    ensures var r := TooltipBreakdown(fixture, true, fixture[k].date);
            var c := fixture[k].statusCodes;
            r.Some?
            && r.value.success == CodeCount(c, "200")
            && r.value.clientErrors == CodeCount(c, "400") + CodeCount(c, "401")
            && r.value.serverErrors == CodeCount(c, "500")
            && r.value.clientErrors + r.value.serverErrors == ErrorCount(fixture[k])
  {
    StatusCodeLineChart.BreakdownOfUniqueDate(fixture, k);
  }
}
