/**
 * The one-page analytics view (apps/analytics/onepage.py): the `days`
 * query parameter, the daily traffic report and its totals, and the choice
 * between the chart, an error card and a bad request.
 */
module OnePage {
  import opened Wrappers
  import opened Text
  import opened Reporting

  datatype Summary = Summary(sessions: int, activeUsers: int, pageviews: int)

  /** The payload: totals, the compact dates and the daily sessions. */
  datatype Traffic = Traffic(summary: Summary, labels: seq<string>, data: seq<int>)

  datatype Page = BadRequestPage | ErrorPage(message: string) | ChartPage(days: int, traffic: Traffic)

  const AllowedDays: set<int> := {7, 14, 30}

  /** The report behind the page: sessions, active users and views per date over the last `days` days. */
  function TrafficRequest(pid: string, days: int): ReportRequest {
    ReportRequest(PropertyName(pid), ["date"], ["sessions", "activeUsers", "screenPageViews"],
                  IntText(days) + "daysAgo", None, None)
  }

  /** Rows of that report: one date and three counts each. */
  predicate TrafficRows(rows: seq<Row>) {
    forall i :: 0 <= i < |rows| ==> |rows[i].dimensions| == 1 && |rows[i].metrics| == 3
  }

  function Column(rows: seq<Row>, k: nat): (c: seq<int>)
    requires k < 3 && TrafficRows(rows)
    ensures |c| == |rows| && forall i :: 0 <= i < |rows| ==> c[i] == rows[i].metrics[k]
  {
    seq(|rows|, i requires 0 <= i < |rows| => rows[i].metrics[k])
  }

  function Dates(rows: seq<Row>): (d: seq<string>)
    requires TrafficRows(rows)
    ensures |d| == |rows| && forall i :: 0 <= i < |rows| ==> d[i] == rows[i].dimensions[0]
  {
    seq(|rows|, i requires 0 <= i < |rows| => rows[i].dimensions[0])
  }

  function Sum(xs: seq<int>): int {
    if xs == [] then 0 else Sum(xs[..|xs| - 1]) + xs[|xs| - 1]
  }

  /** What `_fetch_timeseries` returns for the rows of a successful report. */
  function TrafficOf(rows: seq<Row>): (r: Traffic)
    requires TrafficRows(rows)
    ensures |r.labels| == |rows| && |r.data| == |rows|
    ensures forall i :: 0 <= i < |rows| ==> r.labels[i] == rows[i].dimensions[0] && r.data[i] == rows[i].metrics[0]
    ensures r.summary.sessions == Sum(r.data)
  {
    Traffic(Summary(Sum(Column(rows, 0)), Sum(Column(rows, 1)), Sum(Column(rows, 2))), Dates(rows), Column(rows, 0))
  }

  /**
   * The days the page shows: "7" when the parameter is missing, `None`
   * (a bad request) when it is not an integer, and 7 for any integer
   * other than 7, 14 or 30.
   */
  function NormalizeDays(raw: Option<string>): (r: Option<int>)
    ensures raw.None? ==> r == Some(7)
    ensures r.None? <==> raw.Some? && ParseInt(raw.value).None?
    ensures r.Some? ==> r.value in AllowedDays
    ensures raw.Some? && ParseInt(raw.value).Some? ==>
              r == Some(if ParseInt(raw.value).value in AllowedDays then ParseInt(raw.value).value else 7)
  {
    var text := raw.GetOr("7");
    assert raw.None? ==> ParseInt(text) == Some(7) by {
      if raw.None? {
        assert text[..0] == [];
      }
    }
    match ParseInt(text)
    case None => None
    case Some(d) => Some(if d in AllowedDays then d else 7)
  }

  lemma SumAppend(xs: seq<int>, x: int)
    ensures Sum(xs + [x]) == Sum(xs) + x
  {
    assert (xs + [x])[..|xs|] == xs;
  }

  /** Taking one more row extends each column, the dates and the sums by that row. */
  lemma NextRow(rows: seq<Row>, i: nat)
    requires TrafficRows(rows) && i < |rows|
    ensures Dates(rows[..i + 1]) == Dates(rows[..i]) + [rows[i].dimensions[0]]
    ensures forall k :: 0 <= k < 3 ==> Column(rows[..i + 1], k) == Column(rows[..i], k) + [rows[i].metrics[k]]
    ensures forall k :: 0 <= k < 3 ==> Sum(Column(rows[..i + 1], k)) == Sum(Column(rows[..i], k)) + rows[i].metrics[k]
  {
    forall k | 0 <= k < 3
      ensures Sum(Column(rows[..i + 1], k)) == Sum(Column(rows[..i], k)) + rows[i].metrics[k]
    {
      assert Column(rows[..i + 1], k) == Column(rows[..i], k) + [rows[i].metrics[k]];
      SumAppend(Column(rows[..i], k), rows[i].metrics[k]);
    }
  }

  /** One more row appends its date and sessions to the series and adds its counts to the totals. */
  lemma NextTraffic(rows: seq<Row>, i: nat)
    requires TrafficRows(rows) && i < |rows|
    ensures TrafficRows(rows[..i]) && TrafficRows(rows[..i + 1])
    ensures var t := TrafficOf(rows[..i]);
            TrafficOf(rows[..i + 1]) == Traffic(
              Summary(t.summary.sessions + rows[i].metrics[0],
                      t.summary.activeUsers + rows[i].metrics[1],
                      t.summary.pageviews + rows[i].metrics[2]),
              t.labels + [rows[i].dimensions[0]],
              t.data + [rows[i].metrics[0]])
  {
    NextRow(rows, i);
  }

  /**
   * `_fetch_timeseries`: raises without a property id or when the report
   * call raises; otherwise one label and one session count per row, in row
   * order, and the totals of the three counts.
   */
  method FetchTimeseries(pid: string, days: int, run: Runner) returns (r: Result<Traffic, string>)
    requires WellShaped(run)
    ensures pid == "" ==> r.Failure?
    ensures pid != "" && run(TrafficRequest(pid, days)).None? ==> r.Failure?
    ensures pid != "" && run(TrafficRequest(pid, days)).Some? ==>
              TrafficRows(run(TrafficRequest(pid, days)).value)
              && r == Success(TrafficOf(run(TrafficRequest(pid, days)).value))
  {
    if pid == "" {
      return Failure("GA4_PROPERTY_ID is not set in the environment.");
    }
    var resp := run(TrafficRequest(pid, days));
    if resp.None? {
      return Failure("GA4 API error");
    }
    var rows := resp.value;
    assert Shaped(TrafficRequest(pid, days), rows);
    var t := Tally(rows);
    r := Success(t);
  }

  /** The loop of `_fetch_timeseries`: one label and one count per row, and running totals. */
  method Tally(rows: seq<Row>) returns (t: Traffic)
    requires TrafficRows(rows)
    ensures t == TrafficOf(rows)
  {
    var labels: seq<string> := [];
    var sessions: seq<int> := [];
    var totalSessions, totalUsers, totalViews := 0, 0, 0;
    var i := 0;
    while i < |rows|
      invariant 0 <= i <= |rows| && TrafficRows(rows[..i])
      invariant Traffic(Summary(totalSessions, totalUsers, totalViews), labels, sessions) == TrafficOf(rows[..i])
    {
      NextTraffic(rows, i);
      var row := rows[i];
      labels := labels + [row.dimensions[0]];
      sessions := sessions + [row.metrics[0]];
      totalSessions := totalSessions + row.metrics[0];
      totalUsers := totalUsers + row.metrics[1];
      totalViews := totalViews + row.metrics[2];
      i := i + 1;
    }
    assert rows[..i] == rows;
    t := Traffic(Summary(totalSessions, totalUsers, totalViews), labels, sessions);
  }

  /** The total sessions shown above the chart are the sum of the chart's points, and 0 without rows. */
  lemma SummaryMatchesChart(rows: seq<Row>)
    requires TrafficRows(rows)
    ensures TrafficOf(rows).summary.sessions == Sum(TrafficOf(rows).data)
    ensures |TrafficOf(rows).labels| == |TrafficOf(rows).data| == |rows|
    ensures rows == [] ==> TrafficOf(rows).summary == Summary(0, 0, 0)
  {
  }

  /** Sums of non-negative counts bound each count. */
  lemma {:induction false} SumBoundsEach(xs: seq<int>, i: nat)
    requires forall k :: 0 <= k < |xs| ==> 0 <= xs[k]
    requires i < |xs|
    ensures 0 <= xs[i] <= Sum(xs)
  {
    var n := |xs| - 1;
    SumNonNegative(xs[..n]);
    if i < n {
      SumBoundsEach(xs[..n], i);
    }
  }

  lemma {:induction false} SumNonNegative(xs: seq<int>)
    requires forall k :: 0 <= k < |xs| ==> 0 <= xs[k]
    ensures 0 <= Sum(xs)
  {
    if xs != [] {
      SumNonNegative(xs[..|xs| - 1]);
    }
  }

  /** With non-negative counts, no day's sessions exceed the total shown. */
  lemma DailySessionsWithinTotal(rows: seq<Row>, i: nat)
    requires TrafficRows(rows) && i < |rows|
    requires forall k :: 0 <= k < |rows| ==> 0 <= rows[k].metrics[0]
    ensures 0 <= TrafficOf(rows).data[i] <= TrafficOf(rows).summary.sessions
  {
    SumBoundsEach(Column(rows, 0), i);
  }

  /**
   * `analytics_page`: a bad request for a non-integer `days`; the error card
   * when the fetch raises; otherwise the chart for the normalised days.
   */
  method AnalyticsPage(rawDays: Option<string>, pid: string, run: Runner) returns (p: Page)
    requires WellShaped(run)
    ensures NormalizeDays(rawDays).None? <==> p == BadRequestPage
    ensures NormalizeDays(rawDays).Some? ==>
              var d := NormalizeDays(rawDays).value;
              (pid == "" || run(TrafficRequest(pid, d)).None? ==> p.ErrorPage?)
              && (pid != "" && run(TrafficRequest(pid, d)).Some? ==>
                    TrafficRows(run(TrafficRequest(pid, d)).value)
                    && p == ChartPage(d, TrafficOf(run(TrafficRequest(pid, d)).value)))
  {
    var days := NormalizeDays(rawDays);
    if days.None? {
      return BadRequestPage;
    }
    var payload := FetchTimeseries(pid, days.value, run);
    match payload
    case Failure(e) => p := ErrorPage(e);
    case Success(t) => p := ChartPage(days.value, t);
  }
}
