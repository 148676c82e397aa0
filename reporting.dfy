/**
 * The shape of a Google Analytics 4 Data API report as the dashboard uses
 * it: a request names dimensions and metrics, a response is a sequence of
 * rows carrying one value per requested dimension and metric, in request
 * order. The remote call itself is an oracle.
 */
module Reporting {
  import opened Wrappers

  /** One row of a report: dimension values, then metric values. */
  datatype Row = Row(dimensions: seq<string>, metrics: seq<int>)

  /** A `RunReportRequest`; every range the dashboard asks for ends "today". */
  datatype ReportRequest = ReportRequest(
    property: string,
    dimensions: seq<string>,
    metrics: seq<string>,
    startDate: string,
    limit: Option<int>,
    orderByDesc: Option<string>)

  /** `run_report` as an oracle: the rows of the response, or `None` when the call raises. */
  type Runner = ReportRequest -> Option<seq<Row>>

  /** `f"properties/{PROPERTY_ID}"`. */
  function PropertyName(pid: string): string {
    "properties/" + pid
  }

  /** Every row carries exactly the requested number of values. */
  predicate Shaped(req: ReportRequest, rows: seq<Row>) {
    forall i :: 0 <= i < |rows| ==>
      |rows[i].dimensions| == |req.dimensions| && |rows[i].metrics| == |req.metrics|
  }

  /** The service answers every request with rows of the requested shape. */
  ghost predicate WellShaped(run: Runner) {
    forall req :: run(req).Some? ==> Shaped(req, run(req).value)
  }

  /** `not res or not res.rows`: a failed call and an empty response both give no rows. */
  function RowsOf(res: Option<seq<Row>>): (r: seq<Row>)
    ensures r != [] <==> res.Some? && res.value != []
    ensures r != [] ==> res == Some(r)
  {
    res.GetOr([])
  }
}
