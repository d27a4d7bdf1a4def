/** `ga_api_caller` of google_analytics_api_query.py: the single-request
    guard, the no-data return, a pagination attempt that raises, then the
    shared reshaping step. `response` is what the first `batchGet` returns;
    what a second one returns is never read. */
module AnalyticsApiQuery {
  import opened Results
  import opened Responses
  import opened Tables
  import opened Reshaper

  /** `ga_api_caller` as written: a truthy `nextPageToken` sends the query
      again with that token, then raises on `extend` of the `data` dictionary. */
  function Caller(query: Query, response: Response): (run: Run)
    requires ResponseFits(response)
    ensures |query.requests| != 1 ==> run == Run(Failure(NotSingleRequest(|query.requests|)), [], query)
    ensures |query.requests| == 1 ==> |run.sent| >= 1 && run.sent[0] == query
    ensures |query.requests| == 1 && |response.reports| == 0 ==>
              run == Run(Failure(IndexOutOfRange("reports")), [query], query)
    ensures |query.requests| == 1 && |response.reports| > 0 && DataIsFalsy(response.reports[0].data) ==>
              run == Run(Success(Empty), [query], query)
    ensures |query.requests| == 1 && |response.reports| > 0 && !DataIsFalsy(response.reports[0].data)
            && !Truthy(response.reports[0].nextPageToken) ==>
              && run.sent == [query] && run.query == query
              && run.outcome == ReshapeData(response.reports[0].columnHeader, response.reports[0].data.value)
    ensures |query.requests| == 1 && |response.reports| > 0 && !DataIsFalsy(response.reports[0].data)
            && Truthy(response.reports[0].nextPageToken) ==>
              var q := WithPageToken(query, response.reports[0].nextPageToken.value);
              run == Run(Failure(NoExtendOnDict), [query, q], q)
  {
    if |query.requests| != 1 then Run(Failure(NotSingleRequest(|query.requests|)), [], query)
    else if |response.reports| == 0 then Run(Failure(IndexOutOfRange("reports")), [query], query)
    else
      var report := response.reports[0];
      if DataIsFalsy(report.data) then Run(Success(Empty), [query], query)
      else if Truthy(report.nextPageToken) then
        var q := WithPageToken(query, report.nextPageToken.value);
        Run(Failure(NoExtendOnDict), [query, q], q)
      else
        Run(ReshapeData(report.columnHeader, report.data.value), [query], query)
  }

  /** The pagination attempt never accumulates anything: every response
      that gets past the no-data return and carries a truthy token makes
      the call send one more request and then raise. This is a corollary
      of `Caller`'s last ensures, restated on its own as the as-written
      half of the paging finding. */
  lemma PagedResponseRaises(query: Query, response: Response)
    requires ResponseFits(response)
    requires |query.requests| == 1 && |response.reports| > 0
    requires !DataIsFalsy(response.reports[0].data) && Truthy(response.reports[0].nextPageToken)
    ensures Caller(query, response).outcome == Failure(NoExtendOnDict)
    ensures |Caller(query, response).sent| == 2
    ensures Caller(query, response).sent[1].requests[0].pageToken == response.reports[0].nextPageToken
  {
  }
}
