/**
 * The traffic JSON endpoint (apps/analytics/views.py): which `days` value
 * it uses, and how a failure of the backend becomes a server error.
 */
module AnalyticsViews {
  import opened Wrappers
  import opened Text
  import opened Http
  import opened AnalyticsStub

  const DefaultDays: int := 7

  /**
   * `request.GET.get("days") or days or 7`, then `int(raw)` with 7 on
   * failure: a non-empty query value wins, then a non-zero path value.
   */
  function SelectDays(query: Option<string>, path: Option<nat>): (d: int)
    ensures query.Some? && query.value != "" ==>
              d == (if ParseInt(query.value).Some? then ParseInt(query.value).value else DefaultDays)
    ensures (query.None? || query.value == "") && path.Some? && path.value != 0 ==> d == path.value
    ensures (query.None? || query.value == "") && (path.None? || path.value == 0) ==> d == DefaultDays
  {
    if query.Some? && query.value != "" then
      match ParseInt(query.value)
      case Some(n) => n
      case None => DefaultDays
    else if path.Some? && path.value != 0 then path.value
    else DefaultDays
  }

  datatype TrafficResponse =
    | TrafficOk(summary: StubSummary, timeseries: Series)
    | TrafficError(message: string)
  {
    function Status(): HttpStatus {
      if TrafficOk? then Ok else InternalError
    }
  }

  /**
   * `traffic_api`: the summary and the series for the same days, or a
   * server error when the backend raises.
   */
  method TrafficApi(query: Option<string>, path: Option<nat>, today: int) returns (resp: TrafficResponse)
    requires MinOrdinal <= today <= MaxOrdinal
    ensures resp.Status() == InternalError <==> Underflows(SelectDays(query, path), today)
    ensures resp.TrafficOk? ==>
              var d := SelectDays(query, path);
              resp.summary == GetSummary(d)
              && |resp.timeseries.labels| == (if d > 0 then d else 0)
              && |resp.timeseries.data| == |resp.timeseries.labels|
              && (forall i :: 0 <= i < d ==>
                    resp.timeseries.labels[i] == today - (d - 1 - i) && resp.timeseries.data[i] == 10 + i)
              && (d > 0 ==> resp.timeseries.labels[d - 1] == today)
  {
    var d := SelectDays(query, path);
    var summary := GetSummary(d);
    var series := GetTimeseries(d, today);
    match series
    case Failure(e) => resp := TrafficError("Input Error = " + e);
    case Success(s) => resp := TrafficOk(summary, s);
  }
}
