/** `GoogleAnalyticsService.ga_api_caller` (google_analytics_service.py):
    the single-request guard, the no-data return, the pagination loop that
    accumulates every page's rows, then the shared reshaping step.

    The service is an abstract sequence of responses: `pages[k]` is what the
    (k+1)-th `batchGet` returns, whatever body it is sent. */
module AnalyticsService {
  import opened Results
  import opened Responses
  import opened Tables
  import opened Reshaper
  import ReshaperLaws

  /** The loop stops after this response: it has no first report (reading it
      raises) or no truthy `nextPageToken`. */
  predicate Stops(page: Response) {
    |page.reports| == 0 || !Truthy(page.reports[0].nextPageToken)
  }

  /** The service eventually answers a response after which the loop stops. */
  predicate Ends(pages: seq<Response>) {
    |pages| > 0 && (Stops(pages[0]) || Ends(pages[1..]))
  }

  /** A follow-up response whose rows the loop can read: it has a first report with `data`. */
  predicate Readable(page: Response) {
    |page.reports| > 0 && page.reports[0].data.Some?
  }

  /** `page['reports'][0]['data'].get('rows', [])`. */
  function PageRows(page: Response): (r: seq<Row>)
    requires Readable(page)
    ensures ReportRows(page.reports[0]).Some? ==> r == ReportRows(page.reports[0]).value
    ensures ReportRows(page.reports[0]).None? ==> r == []
  {
    page.reports[0].data.value.rows.GetOr([])
  }

  /** The token a readable response hands to the next request. */
  function PageToken(page: Response): Option<string>
    requires |page.reports| > 0
  {
    page.reports[0].nextPageToken
  }

  /** The rows of several readable responses, in fetch order. */
  function ConcatRows(pages: seq<Response>): seq<Row>
    requires forall k :: 0 <= k < |pages| ==> Readable(pages[k])
  {
    if |pages| == 0 then [] else PageRows(pages[0]) + ConcatRows(pages[1..])
  }

  /** The state of the loop once it ends: the accumulated rows (or the
      exception a follow-up response raised), the bodies sent by the loop,
      and the query as the loop left it. */
  datatype Paging = Paging(rows: Result<seq<Row>>, sent: seq<Query>, query: Query)

  /** The pagination loop as a recursive definition: while `token` is truthy,
      write it into the query, send the query, and append the response's rows. */
  function FollowPages(query: Query, acc: seq<Row>, token: Option<string>, rest: seq<Response>): (p: Paging)
    requires |query.requests| == 1
    requires Truthy(token) ==> Ends(rest)
    decreases |rest|
    ensures |p.sent| <= |rest|
    ensures !Truthy(token) <==> |p.sent| == 0
    ensures !Truthy(token) ==> p.rows == Success(acc) && p.query == query
  {
    if !Truthy(token) then Paging(Success(acc), [], query)
    else
      var q := WithPageToken(query, token.value);
      var page := rest[0];
      if |page.reports| == 0 then Paging(Failure(IndexOutOfRange("reports")), [q], q)
      else if page.reports[0].data.None? then Paging(Failure(MissingKey("data")), [q], q)
      else
        var next := FollowPages(q, acc + PageRows(page), PageToken(page), rest[1..]);
        Paging(next.rows, [q] + next.sent, next.query)
  }

  /** Writing a second token into a single-request query overwrites the first. */
  lemma WithPageTokenTwice(query: Query, t1: string, t2: string)
    requires |query.requests| == 1
    ensures WithPageToken(WithPageToken(query, t1), t2) == WithPageToken(query, t2)
  {
  }

  /** Every request in `p.sent` carries the token of the response just before
      it (the first carries `token`), is otherwise the caller's query, and the
      query ends up as the last request sent. */
  predicate RequestsChained(p: Paging, query: Query, token: Option<string>, rest: seq<Response>)
    requires |query.requests| == 1
    requires |p.sent| <= |rest|
  {
    && (Truthy(token) && |p.sent| > 0 ==> p.sent[0] == WithPageToken(query, token.value))
    && (forall k :: 0 <= k < |p.sent| - 1 ==>
          && Readable(rest[k]) && Truthy(PageToken(rest[k]))
          && p.sent[k + 1] == WithPageToken(query, PageToken(rest[k]).value))
    && (|p.sent| > 0 ==> p.query == p.sent[|p.sent| - 1])
  }

  /** The requests the loop sends are chained through the responses' tokens. */
  lemma {:induction false} FollowPagesRequests(query: Query, acc: seq<Row>, token: Option<string>, rest: seq<Response>)
    requires |query.requests| == 1
    requires Truthy(token) ==> Ends(rest)
    ensures RequestsChained(FollowPages(query, acc, token, rest), query, token, rest)
    decreases |rest|
  {
    var p := FollowPages(query, acc, token, rest);
    if Truthy(token) && Readable(rest[0]) {
      var q := WithPageToken(query, token.value);
      var page := rest[0];
      var next := FollowPages(q, acc + PageRows(page), PageToken(page), rest[1..]);
      FollowPagesRequests(q, acc + PageRows(page), PageToken(page), rest[1..]);
      assert p.sent == [q] + next.sent;
      forall k | 0 <= k < |p.sent| - 1
        ensures Readable(rest[k]) && Truthy(PageToken(rest[k]))
        ensures p.sent[k + 1] == WithPageToken(query, PageToken(rest[k]).value)
      {
        if k == 0 {
          assert Truthy(PageToken(page));
          WithPageTokenTwice(query, token.value, PageToken(page).value);
        } else {
          assert rest[1..][k - 1] == rest[k];
          assert next.sent[k] == WithPageToken(q, PageToken(rest[1..][k - 1]).value);
          WithPageTokenTwice(query, token.value, PageToken(rest[k]).value);
        }
      }
    }
  }

  /** When the loop ends without an exception, every fetched response was
      readable, the last one stops the loop, and the rows are `acc` followed
      by each fetched response's rows in fetch order. When it ends with one,
      the last fetched response had no first report or no `data`. */
  lemma FollowPagesRows(query: Query, acc: seq<Row>, token: Option<string>, rest: seq<Response>)
    requires |query.requests| == 1
    requires Truthy(token) ==> Ends(rest)
    ensures var p := FollowPages(query, acc, token, rest);
            && (p.rows.Success? ==>
                  && (forall k :: 0 <= k < |p.sent| ==> Readable(rest[k]))
                  && (|p.sent| > 0 ==> Stops(rest[|p.sent| - 1]))
                  && (forall k :: 0 <= k < |p.sent| - 1 ==> !Stops(rest[k]))
                  && p.rows.value == acc + ConcatRows(rest[..|p.sent|]))
            && (p.rows.Failure? ==>
                  && |p.sent| > 0 && !Readable(rest[|p.sent| - 1])
                  && p.rows.error == (if |rest[|p.sent| - 1].reports| == 0
                                      then IndexOutOfRange("reports") else MissingKey("data")))
  {
    FollowPagesSucceeds(query, acc, token, rest);
    FollowPagesStops(query, acc, token, rest);
    FollowPagesFails(query, acc, token, rest);
  }

  /** The success half of `FollowPagesRows`: what the loop appended. */
  lemma {:induction false} FollowPagesSucceeds(query: Query, acc: seq<Row>, token: Option<string>, rest: seq<Response>)
    requires |query.requests| == 1
    requires Truthy(token) ==> Ends(rest)
    ensures var p := FollowPages(query, acc, token, rest);
            p.rows.Success? ==>
              && (forall k :: 0 <= k < |p.sent| ==> Readable(rest[k]))
              && p.rows.value == acc + ConcatRows(rest[..|p.sent|])
    decreases |rest|
  {
    var p := FollowPages(query, acc, token, rest);
    if Truthy(token) && Readable(rest[0]) && p.rows.Success? {
      var q := WithPageToken(query, token.value);
      var page := rest[0];
      var acc' := acc + PageRows(page);
      var next := FollowPages(q, acc', PageToken(page), rest[1..]);
      FollowPagesSucceeds(q, acc', PageToken(page), rest[1..]);
      var n := |next.sent|;
      assert |p.sent| == n + 1;
      assert forall k :: 0 <= k < n ==> rest[1..][k] == rest[k + 1];
      assert rest[..n + 1][1..] == rest[1..][..n];
      assert ConcatRows(rest[..n + 1]) == PageRows(page) + ConcatRows(rest[1..][..n]);
    }
  }

  /** The success half of `FollowPagesRows`: where the loop stopped. */
  lemma {:induction false} FollowPagesStops(query: Query, acc: seq<Row>, token: Option<string>, rest: seq<Response>)
    requires |query.requests| == 1
    requires Truthy(token) ==> Ends(rest)
    ensures var p := FollowPages(query, acc, token, rest);
            p.rows.Success? ==>
              && (|p.sent| > 0 ==> Stops(rest[|p.sent| - 1]))
              && (forall k :: 0 <= k < |p.sent| - 1 ==> !Stops(rest[k]))
    decreases |rest|
  {
    var p := FollowPages(query, acc, token, rest);
    if Truthy(token) && Readable(rest[0]) && p.rows.Success? {
      var q := WithPageToken(query, token.value);
      var page := rest[0];
      var acc' := acc + PageRows(page);
      var next := FollowPages(q, acc', PageToken(page), rest[1..]);
      FollowPagesStops(q, acc', PageToken(page), rest[1..]);
      var n := |next.sent|;
      assert |p.sent| == n + 1;
      assert forall k :: 0 <= k < n ==> rest[1..][k] == rest[k + 1];
      if n == 0 {
        assert !Truthy(PageToken(page));
      }
    }
  }

  /** The failure half of `FollowPagesRows`. */
  lemma {:induction false} FollowPagesFails(query: Query, acc: seq<Row>, token: Option<string>, rest: seq<Response>)
    requires |query.requests| == 1
    requires Truthy(token) ==> Ends(rest)
    ensures var p := FollowPages(query, acc, token, rest);
            p.rows.Failure? ==>
              && |p.sent| > 0 && !Readable(rest[|p.sent| - 1])
              && p.rows.error == (if |rest[|p.sent| - 1].reports| == 0
                                  then IndexOutOfRange("reports") else MissingKey("data"))
    decreases |rest|
  {
    var p := FollowPages(query, acc, token, rest);
    if Truthy(token) && Readable(rest[0]) && p.rows.Failure? {
      var q := WithPageToken(query, token.value);
      var page := rest[0];
      var acc' := acc + PageRows(page);
      var next := FollowPages(q, acc', PageToken(page), rest[1..]);
      FollowPagesFails(q, acc', PageToken(page), rest[1..]);
      assert |p.sent| == |next.sent| + 1;
      assert rest[|p.sent| - 1] == rest[1..][|next.sent| - 1];
    }
  }

  /** The same loop as the source writes it, `while next_page_token:`. */
  method FetchPages(query: Query, firstRows: seq<Row>, firstToken: Option<string>, rest: seq<Response>)
    returns (p: Paging)
    requires |query.requests| == 1
    requires Truthy(firstToken) ==> Ends(rest)
    ensures p == FollowPages(query, firstRows, firstToken, rest)
  {
    var q := query;
    var rows := firstRows;
    var token := firstToken;
    var sent: seq<Query> := [];
    var i := 0;
    while Truthy(token)
      invariant 0 <= i <= |rest|
      invariant |q.requests| == 1
      invariant Truthy(token) ==> Ends(rest[i..])
      invariant var tail := FollowPages(q, rows, token, rest[i..]);
                FollowPages(query, firstRows, firstToken, rest) == Paging(tail.rows, sent + tail.sent, tail.query)
      decreases |rest| - i
    {
      q := WithPageToken(q, token.value);
      sent := sent + [q];
      var page := rest[i];
      if |page.reports| == 0 {
        return Paging(Failure(IndexOutOfRange("reports")), sent, q);
      }
      if page.reports[0].data.None? {
        return Paging(Failure(MissingKey("data")), sent, q);
      }
      assert rest[i..][1..] == rest[i + 1..];
      rows := rows + page.reports[0].data.value.rows.GetOr([]);
      token := page.reports[0].nextPageToken;
      i := i + 1;
    }
    return Paging(Success(rows), sent, q);
  }

  /** The rows the loop accumulates from `acc` on satisfy the shape demands
      of header `h` whenever the loop ends without an exception, which is
      exactly when the reshaper gets to see them. Each response is not held
      to the demands on its own. */
  predicate LoopFits(h: ColumnHeader, acc: seq<Row>, token: Option<string>, rest: seq<Response>)
    decreases |rest|
  {
    if !Truthy(token) then Fits(h, acc)
    else |rest| > 0 && Readable(rest[0]) ==>
           LoopFits(h, acc + PageRows(rest[0]), PageToken(rest[0]), rest[1..])
  }

  /** The rows the caller reshapes fit the first response's column header:
      the first response's rows followed by every later response's rows the
      loop appends. */
  predicate PagesFit(pages: seq<Response>) {
    |pages| > 0 && |pages[0].reports| > 0 && ReportRows(pages[0].reports[0]).Some? ==>
      LoopFits(pages[0].reports[0].columnHeader, ReportRows(pages[0].reports[0]).value, PageToken(pages[0]), pages[1..])
  }

  /** The rows the loop accumulates keep the shape demands of the header. */
  lemma {:induction false} AccumulatedRowsFit(h: ColumnHeader, query: Query, acc: seq<Row>, token: Option<string>, rest: seq<Response>)
    requires |query.requests| == 1
    requires Truthy(token) ==> Ends(rest)
    requires LoopFits(h, acc, token, rest)
    ensures FollowPages(query, acc, token, rest).rows.Success? ==>
              Fits(h, FollowPages(query, acc, token, rest).rows.value)
    decreases |rest|
  {
    if Truthy(token) && Readable(rest[0]) {
      var page := rest[0];
      AccumulatedRowsFit(h, WithPageToken(query, token.value), acc + PageRows(page), PageToken(page), rest[1..]);
    }
  }

  /** `GoogleAnalyticsService.ga_api_caller`. */
  function Caller(query: Query, pages: seq<Response>): (run: Run)
    requires Ends(pages)
    requires PagesFit(pages)
    ensures |query.requests| != 1 ==> run == Run(Failure(NotSingleRequest(|query.requests|)), [], query)
    ensures |query.requests| == 1 ==> 1 <= |run.sent| <= |pages| && run.sent[0] == query
    ensures |query.requests| == 1 && |pages[0].reports| == 0 ==>
              run == Run(Failure(IndexOutOfRange("reports")), [query], query)
    ensures |query.requests| == 1 && |pages[0].reports| > 0 && DataIsFalsy(pages[0].reports[0].data) ==>
              run == Run(Success(Empty), [query], query)
    ensures |query.requests| == 1 && |pages[0].reports| > 0 && !DataIsFalsy(pages[0].reports[0].data)
            && ReportRows(pages[0].reports[0]).None? ==>
              && run.outcome == Failure(MissingKey("rows"))
              && run.sent == [query] + (if Truthy(PageToken(pages[0]))
                                        then [WithPageToken(query, PageToken(pages[0]).value)] else [])
              && run.query == run.sent[|run.sent| - 1]
  {
    if |query.requests| != 1 then Run(Failure(NotSingleRequest(|query.requests|)), [], query)
    else if |pages[0].reports| == 0 then Run(Failure(IndexOutOfRange("reports")), [query], query)
    else
      var first := pages[0].reports[0];
      if DataIsFalsy(first.data) then Run(Success(Empty), [query], query)
      else
        var data := first.data.value;
        if data.rows.None? then
          if Truthy(first.nextPageToken) then
            var q := WithPageToken(query, first.nextPageToken.value);
            assert Ends(pages[1..]);
            Run(Failure(MissingKey("rows")), [query, q], q)
          else Run(Failure(MissingKey("rows")), [query], query)
        else
          var h := first.columnHeader;
          var paged := FollowPages(query, data.rows.value, first.nextPageToken, pages[1..]);
          match paged.rows
          case Failure(e) => Run(Failure(e), [query] + paged.sent, paged.query)
          case Success(rows) =>
            AccumulatedRowsFit(h, query, data.rows.value, first.nextPageToken, pages[1..]);
            Run(ReshapeRows(h, rows), [query] + paged.sent, paged.query)
  }

  /** The loop a call runs once it gets past the no-data return, started
      from the first response's rows and token on the later responses. */
  function FirstLoop(query: Query, pages: seq<Response>): Paging
    requires Ends(pages)
    requires |query.requests| == 1
    requires |pages[0].reports| > 0 && ReportRows(pages[0].reports[0]).Some?
  {
    FollowPages(query, ReportRows(pages[0].reports[0]).value, PageToken(pages[0]), pages[1..])
  }

  /** A call past the no-data return sends the query, then the loop's requests. */
  lemma CallerRunsLoop(query: Query, pages: seq<Response>)
    requires Ends(pages) && PagesFit(pages)
    requires |query.requests| == 1
    requires |pages[0].reports| > 0 && ReportRows(pages[0].reports[0]).Some?
    ensures Caller(query, pages).sent == [query] + FirstLoop(query, pages).sent
    ensures Caller(query, pages).query == FirstLoop(query, pages).query
    ensures FirstLoop(query, pages).rows.Failure? ==> Caller(query, pages).outcome.Failure?
    ensures FirstLoop(query, pages).rows.Success? ==>
              && Fits(pages[0].reports[0].columnHeader, FirstLoop(query, pages).rows.value)
              && Caller(query, pages).outcome
                   == ReshapeRows(pages[0].reports[0].columnHeader, FirstLoop(query, pages).rows.value)
  {
    var first := pages[0].reports[0];
    assert !DataIsFalsy(first.data);
    AccumulatedRowsFit(first.columnHeader, query, ReportRows(first).value, first.nextPageToken, pages[1..]);
  }

  /** A call that gets past the no-data return pages through the service:
      request j+1 carries response j's token, and the caller's query ends up
      as the last request sent. */
  lemma CallerChainsTokens(query: Query, pages: seq<Response>)
    requires Ends(pages) && PagesFit(pages)
    requires |query.requests| == 1
    requires |pages[0].reports| > 0 && ReportRows(pages[0].reports[0]).Some?
    ensures var run := Caller(query, pages);
            && 1 <= |run.sent| <= |pages|
            && run.sent[0] == query
            && run.query == run.sent[|run.sent| - 1]
            && (forall j :: 0 <= j < |run.sent| - 1 ==>
                  && |pages[j].reports| > 0 && Truthy(PageToken(pages[j]))
                  && run.sent[j + 1] == WithPageToken(query, PageToken(pages[j]).value))
  {
    var p := FirstLoop(query, pages);
    CallerRunsLoop(query, pages);
    FirstLoopChainsTokens(query, pages);
    var run := Caller(query, pages);
    assert run.sent == [query] + p.sent && run.query == p.query;
    assert forall j :: 0 <= j < |p.sent| ==> run.sent[j + 1] == p.sent[j];
  }

  /** The loop of a call sends request j with response j's token. */
  lemma FirstLoopChainsTokens(query: Query, pages: seq<Response>)
    requires Ends(pages)
    requires |query.requests| == 1
    requires |pages[0].reports| > 0 && ReportRows(pages[0].reports[0]).Some?
    ensures var p := FirstLoop(query, pages);
            && |p.sent| < |pages|
            && (|p.sent| == 0 ==> p.query == query)
            && (|p.sent| > 0 ==> p.query == p.sent[|p.sent| - 1])
            && (forall j :: 0 <= j < |p.sent| ==>
                  && |pages[j].reports| > 0 && Truthy(PageToken(pages[j]))
                  && p.sent[j] == WithPageToken(query, PageToken(pages[j]).value))
  {
    var rest := pages[1..];
    var p := FirstLoop(query, pages);
    FollowPagesRequests(query, ReportRows(pages[0].reports[0]).value, PageToken(pages[0]), rest);
    forall j | 0 <= j < |p.sent|
      ensures |pages[j].reports| > 0 && Truthy(PageToken(pages[j]))
      ensures p.sent[j] == WithPageToken(query, PageToken(pages[j]).value)
    {
      if j > 0 {
        assert rest[j - 1] == pages[j];
      }
    }
  }

  /** The loop of a call, stated over the whole response sequence: it
      succeeds exactly when every later response it fetches is readable, and
      then it stops at the first response without a token, having appended
      each later response's rows in fetch order. */
  lemma FirstLoopAccumulates(query: Query, pages: seq<Response>)
    requires Ends(pages)
    requires |query.requests| == 1
    requires |pages[0].reports| > 0 && ReportRows(pages[0].reports[0]).Some?
    ensures var p := FirstLoop(query, pages);
            var k := |p.sent|;
            && k < |pages|
            && (p.rows.Success? <==> forall j :: 1 <= j <= k ==> Readable(pages[j]))
            && (p.rows.Success? ==>
                  && Stops(pages[k])
                  && (forall j :: 0 <= j < k ==> !Stops(pages[j]))
                  && p.rows.value == ReportRows(pages[0].reports[0]).value + ConcatRows(pages[1..k + 1]))
  {
    FirstLoopSucceeds(query, pages);
    FirstLoopFails(query, pages);
  }

  /** The success half of `FirstLoopAccumulates`. */
  lemma FirstLoopSucceeds(query: Query, pages: seq<Response>)
    requires Ends(pages)
    requires |query.requests| == 1
    requires |pages[0].reports| > 0 && ReportRows(pages[0].reports[0]).Some?
    ensures var p := FirstLoop(query, pages);
            var k := |p.sent|;
            && k < |pages|
            && (p.rows.Success? ==>
                  && (forall j :: 1 <= j <= k ==> Readable(pages[j]))
                  && Stops(pages[k])
                  && (forall j :: 0 <= j < k ==> !Stops(pages[j]))
                  && p.rows.value == ReportRows(pages[0].reports[0]).value + ConcatRows(pages[1..k + 1]))
  {
    var rest := pages[1..];
    var p := FirstLoop(query, pages);
    var k := |p.sent|;
    if p.rows.Success? {
      FollowPagesSucceeds(query, ReportRows(pages[0].reports[0]).value, PageToken(pages[0]), rest);
      FollowPagesStops(query, ReportRows(pages[0].reports[0]).value, PageToken(pages[0]), rest);
      assert forall j :: 0 <= j < k ==> rest[j] == pages[j + 1];
      assert rest[..k] == pages[1..k + 1];
      forall j | 0 <= j < k ensures !Stops(pages[j]) {
        if j > 0 { assert pages[j] == rest[j - 1]; }
      }
      if k > 0 { assert pages[k] == rest[k - 1]; }
    }
  }

  /** The failure half of `FirstLoopAccumulates`: the last response fetched was unreadable. */
  lemma FirstLoopFails(query: Query, pages: seq<Response>)
    requires Ends(pages)
    requires |query.requests| == 1
    requires |pages[0].reports| > 0 && ReportRows(pages[0].reports[0]).Some?
    ensures var p := FirstLoop(query, pages);
            p.rows.Failure? ==> 1 <= |p.sent| < |pages| && !Readable(pages[|p.sent|])
  {
    var rest := pages[1..];
    var p := FirstLoop(query, pages);
    if p.rows.Failure? {
      FollowPagesFails(query, ReportRows(pages[0].reports[0]).value, PageToken(pages[0]), rest);
      assert pages[|p.sent|] == rest[|p.sent| - 1];
    }
  }

  /** A call that gets past the no-data return and reads every later
      response it fetches stops at the first response without a token, and
      its table is the reshaped concatenation of the first response's rows
      with every later response's rows, in fetch order. A later response
      without a first report or `data` makes the call raise instead. */
  lemma CallerAccumulatesPages(query: Query, pages: seq<Response>)
    requires Ends(pages) && PagesFit(pages)
    requires |query.requests| == 1
    requires |pages[0].reports| > 0 && ReportRows(pages[0].reports[0]).Some?
    ensures var run := Caller(query, pages);
            var k := |run.sent| - 1;
            0 <= k < |pages| &&
            ((forall j :: 1 <= j <= k ==> Readable(pages[j])) ==>
              && Stops(pages[k])
              && (forall j :: 0 <= j < k ==> !Stops(pages[j]))
              && Fits(pages[0].reports[0].columnHeader,
                      ReportRows(pages[0].reports[0]).value + ConcatRows(pages[1..k + 1]))
              && run.outcome == ReshapeRows(pages[0].reports[0].columnHeader,
                                            ReportRows(pages[0].reports[0]).value + ConcatRows(pages[1..k + 1])))
    ensures var run := Caller(query, pages);
            var k := |run.sent| - 1;
            0 <= k < |pages| &&
            (!(forall j :: 1 <= j <= k ==> Readable(pages[j])) ==> run.outcome.Failure?)
  {
    CallerRunsLoop(query, pages);
    FirstLoopAccumulates(query, pages);
  }
}
