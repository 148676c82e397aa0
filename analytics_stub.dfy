/**
 * The stand-in analytics backend (apps/analytics/ga.py): fixed summary
 * counts and a series of consecutive dates ending today.
 */
module AnalyticsStub {
  import opened Wrappers

  /** `date.min` and `date.max` as day numbers (0001-01-01 is day 1). */
  const MinOrdinal: int := 1
  const MaxOrdinal: int := 3652059

  datatype StubSummary = StubSummary(sessions: int, activeUsers: int, pageviews: int, days: int)

  /** Labels are dates (as day numbers), oldest first. */
  datatype Series = Series(labels: seq<int>, data: seq<int>)

  /** `get_summary`: fixed counts, and the requested days echoed back. */
  function GetSummary(days: int): (s: StubSummary)
    ensures s.days == days
    ensures s.sessions == 123 && s.activeUsers == 45 && s.pageviews == 678
  {
    StubSummary(123, 45, 678, days)
  }

  /** The first label would fall before the first representable date. */
  predicate Underflows(days: int, today: int) {
    days >= 1 && today - (days - 1) < MinOrdinal
  }

  /**
   * `get_timeseries`: `days` consecutive dates ending today (none for
   * `days <= 0`), with `10 + i` as the i-th value; the date arithmetic raises
   * `OverflowError` when the first date is out of range.
   */
  method GetTimeseries(days: int, today: int) returns (r: Result<Series, string>)
    requires MinOrdinal <= today <= MaxOrdinal
    ensures r.Failure? <==> Underflows(days, today)
    ensures r.Success? ==>
              var n := if days > 0 then days else 0;
              |r.value.labels| == n && |r.value.data| == n
              && (forall i :: 0 <= i < n ==>
                    r.value.labels[i] == today - (days - 1 - i) && r.value.data[i] == 10 + i
                    && MinOrdinal <= r.value.labels[i] <= today)
              && (forall i :: 0 <= i < n - 1 ==> r.value.labels[i + 1] == r.value.labels[i] + 1)
              && (n > 0 ==> r.value.labels[n - 1] == today)
  {
    var labels: seq<int> := [];
    var data: seq<int> := [];
    var i := 0;
    while i < days
      invariant 0 <= i <= (if days > 0 then days else 0)
      invariant i > 0 ==> !Underflows(days, today)
      invariant |labels| == i && |data| == i
      invariant forall j :: 0 <= j < i ==>
                  labels[j] == today - (days - 1 - j) && data[j] == 10 + j && MinOrdinal <= labels[j] <= today
    {
      var d := today - (days - 1 - i);
      if d < MinOrdinal {
        return Failure("date value out of range");
      }
      labels := labels + [d];
      data := data + [10 + i];
      i := i + 1;
    }
    r := Success(Series(labels, data));
  }
}
