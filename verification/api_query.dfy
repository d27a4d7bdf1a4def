/** `ga_api_caller` of google_api_query.py: one `batchGet` with no
    request-count check, a `rows` check on the first report, then the
    guarded pivot and metric frames and their merge. */
module ApiQuery {
  import opened Results
  import opened Responses
  import opened Tables
  import opened Reshaper

  /** `ga_api_caller`: `response` is what `run_report` returns. */
  function Caller(query: Query, response: Response): (run: Run)
    requires ResponseFits(response)
    ensures run.sent == [query] && run.query == query
    ensures |response.reports| == 0 ==> run.outcome == Failure(IndexOutOfRange("reports"))
    ensures |response.reports| > 0 && response.reports[0].data.None? ==>
              run.outcome == Failure(MissingKey("data"))
    ensures |response.reports| > 0 && response.reports[0].data.Some?
            && response.reports[0].data.value.rows.None? ==>
              run.outcome == Success(Empty)
    ensures |response.reports| > 0 && ReportRows(response.reports[0]).Some? ==>
              run.outcome == ReshapeRows(response.reports[0].columnHeader, ReportRows(response.reports[0]).value)
  {
    var outcome :=
      if |response.reports| == 0 then Failure(IndexOutOfRange("reports"))
      else
        var report := response.reports[0];
        if report.data.None? then Failure(MissingKey("data"))
        else if report.data.value.rows.None? then Success(Empty)
        else ReshapeRows(report.columnHeader, report.data.value.rows.value);
    Run(outcome, [query], query)
  }

  /** Only the first report is reshaped: the reports after it never change the call. */
  lemma OnlyFirstReportReshaped(query: Query, response: Response)
    requires ResponseFits(response) && |response.reports| > 0
    ensures ResponseFits(Response(response.reports[..1]))
    ensures Caller(query, response) == Caller(query, Response(response.reports[..1]))
  {
    assert Response(response.reports[..1]).reports[0] == response.reports[0];
  }

  /** There is no request-count check: a query of several report requests
      is sent as is, and the call never raises the `TypeError` the other
      two copies raise for it. */
  lemma NoRequestCountCheck(query: Query, response: Response)
    requires ResponseFits(response) && |query.requests| > 1
    ensures Caller(query, response).sent == [query]
    ensures Caller(query, response).outcome != Failure(NotSingleRequest(|query.requests|))
  {
  }
}
