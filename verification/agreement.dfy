/** How the three copies of `ga_api_caller` relate: where they agree, how
    the paging copy relates to single pages, and the two inputs on which the
    copies part ways. */
module Agreement {
  import opened Results
  import opened Responses
  import opened Tables
  import opened Reshaper
  import ReshaperLaws
  import AnalyticsApiQuery
  import AnalyticsService
  import ApiQuery

  /** On a single-request query whose first response carries rows and no
      page token, the three copies send the same single request, leave the
      query alone, and return the same reshaped table. */
  lemma CallersAgreeOnSinglePage(query: Query, response: Response)
    requires |query.requests| == 1
    requires ResponseFits(response)
    requires |response.reports| > 0 && ReportRows(response.reports[0]).Some?
    requires !Truthy(response.reports[0].nextPageToken)
    ensures AnalyticsService.Ends([response]) && AnalyticsService.PagesFit([response])
    ensures AnalyticsApiQuery.Caller(query, response) == ApiQuery.Caller(query, response)
    ensures AnalyticsService.Caller(query, [response]) == ApiQuery.Caller(query, response)
    ensures ApiQuery.Caller(query, response)
              == Run(ReshapeRows(response.reports[0].columnHeader, ReportRows(response.reports[0]).value), [query], query)
  {
    var pages := [response];
    assert AnalyticsService.Stops(pages[0]);
  }

  /** Two pages whose second one stops the loop end it, and fit the first
      page's header when each page's rows do. */
  lemma TwoPagesEnd(first: Response, second: Response)
    requires |first.reports| > 0 && |second.reports| > 0
    requires ReportRows(first.reports[0]).Some? && ReportRows(second.reports[0]).Some?
    requires !Truthy(second.reports[0].nextPageToken)
    requires var h := first.reports[0].columnHeader;
             Fits(h, ReportRows(first.reports[0]).value) && Fits(h, ReportRows(second.reports[0]).value)
    ensures AnalyticsService.Ends([first, second]) && AnalyticsService.PagesFit([first, second])
  {
    var pages := [first, second];
    var h := first.reports[0].columnHeader;
    var a := ReportRows(first.reports[0]).value;
    var b := ReportRows(second.reports[0]).value;
    assert pages[1..] == [second];
    assert AnalyticsService.Stops(pages[1]);
    assert AnalyticsService.Ends(pages[1..]);
    ReshaperLaws.FitsConcat(h, a, b);
    assert AnalyticsService.LoopFits(h, a + b, AnalyticsService.PageToken(second), pages[1..][1..]);
  }

  /** A report fetched in two pages by the paging copy is reshaped from the
      first page's rows followed by the second page's, under the first
      page's column header. The second request carries the first page's token. */
  lemma TwoPagesConcatenate(query: Query, first: Response, second: Response)
    requires |query.requests| == 1
    requires |first.reports| > 0 && |second.reports| > 0
    requires ReportRows(first.reports[0]).Some? && ReportRows(second.reports[0]).Some?
    requires Truthy(first.reports[0].nextPageToken) && !Truthy(second.reports[0].nextPageToken)
    requires var h := first.reports[0].columnHeader;
             Fits(h, ReportRows(first.reports[0]).value) && Fits(h, ReportRows(second.reports[0]).value)
    ensures AnalyticsService.Ends([first, second]) && AnalyticsService.PagesFit([first, second])
    ensures var h := first.reports[0].columnHeader;
            var ab := ReportRows(first.reports[0]).value + ReportRows(second.reports[0]).value;
            && Fits(h, ab)
            && AnalyticsService.Caller(query, [first, second])
               == Run(ReshapeRows(h, ab), [query, WithPageToken(query, first.reports[0].nextPageToken.value)],
                      WithPageToken(query, first.reports[0].nextPageToken.value))
  {
    var pages := [first, second];
    var h := first.reports[0].columnHeader;
    var a := ReportRows(first.reports[0]).value;
    var b := ReportRows(second.reports[0]).value;
    TwoPagesEnd(first, second);
    var run := AnalyticsService.Caller(query, pages);
    assert |run.sent| == 2 by {
      AnalyticsService.CallerChainsTokens(query, pages);
    }
    assert run.outcome == ReshapeRows(h, a + b) by {
      AnalyticsService.CallerAccumulatesPages(query, pages);
      assert AnalyticsService.Readable(pages[1]);
      assert pages[1..2] == [second];
      assert AnalyticsService.ConcatRows([second]) == b;
    }
    AnalyticsService.CallerChainsTokens(query, pages);
    ReshaperLaws.FitsConcat(h, a, b);
  }

  /** A report fetched in two pages by the paging copy is the two pages'
      tables stacked, provided both pages' first rows carry a first metric
      and agree on whether a pivot is requested. The second request carries
      the first page's token. */
  lemma TwoPagesStack(query: Query, first: Response, second: Response)
    requires |query.requests| == 1
    requires |first.reports| > 0 && |second.reports| > 0
    requires ReportRows(first.reports[0]).Some? && ReportRows(second.reports[0]).Some?
    requires Truthy(first.reports[0].nextPageToken) && !Truthy(second.reports[0].nextPageToken)
    requires var h := first.reports[0].columnHeader;
             var a := ReportRows(first.reports[0]).value;
             var b := ReportRows(second.reports[0]).value;
             && |a| > 0 && |b| > 0 && Fits(h, a) && Fits(h, b)
             && |a[0].metrics| > 0 && |b[0].metrics| > 0
             && (PivotRequested(a) <==> PivotRequested(b))
    ensures AnalyticsService.Ends([first, second]) && AnalyticsService.PagesFit([first, second])
    ensures AnalyticsService.Caller(query, [first, second]).sent
              == [query, WithPageToken(query, first.reports[0].nextPageToken.value)]
    ensures var h := first.reports[0].columnHeader;
            var a := ReportRows(first.reports[0]).value;
            var b := ReportRows(second.reports[0]).value;
            var run := AnalyticsService.Caller(query, [first, second]);
            && (run.outcome.Success? <==> ReshapeRows(h, a).Success? && ReshapeRows(h, b).Success?)
            && (run.outcome.Success? ==>
                  && Stackable(ReshapeRows(h, a).value, ReshapeRows(h, b).value)
                  && run.outcome.value == Stack(ReshapeRows(h, a).value, ReshapeRows(h, b).value))
  {
    TwoPagesConcatenate(query, first, second);
    ReshaperLaws.ReshapeRowsStacks(first.reports[0].columnHeader, ReportRows(first.reports[0]).value,
                                   ReportRows(second.reports[0]).value);
  }

  /** One report with one dimension and one metric, served in two pages. */
  const browserHeader := ColumnHeader(Some(["ga:browser"]), Some(MetricHeader(["ga:sessions"], None)))
  const chromeRow := Row(["Chrome"], [DateRangeValues(["3"], None)])
  const safariRow := Row(["Safari"], [DateRangeValues(["5"], None)])
  const firstPage := Response([Report(browserHeader, Some(ReportData(Some([chromeRow]), 0)), Some("1"))])
  const lastPage := Response([Report(browserHeader, Some(ReportData(Some([safariRow]), 0)), None)])
  const browserQuery := Query([ReportRequest("12345", None)])

  /** A one-row page of the browser report reshapes to a one-row table. */
  lemma SingleRowTable(rows: seq<Row>)
    requires |rows| == 1 && rows[0] in {chromeRow, safariRow}
    ensures Fits(browserHeader, rows)
    ensures ReshapeRows(browserHeader, rows)
              == Success(Table(Some(RowIndex(["ga:browser"], [rows[0].dimensions])),
                               [["ga:sessions"]], [rows[0].metrics[0].values]))
  {
    var r := ReshapeRows(browserHeader, rows);
    assert r.Success?;
    var t := r.value;
    assert |t.columns| == 1 && t.columns[0] == ["ga:sessions"];
    assert t.columns == [["ga:sessions"]];
    assert |t.cells| == 1 && t.cells[0] == rows[0].metrics[0].values;
    assert t.cells == [rows[0].metrics[0].values];
    var index := DimensionIndex(browserHeader, rows).value;
    assert |index.tuples| == 1 && index.tuples[0] == rows[0].dimensions;
    assert index.tuples == [rows[0].dimensions];
  }

  /** A paged report: the unguarded copy raises after its second request,
      where the paging copy returns both pages' rows. */
  lemma PagedReportRaisesWhereServiceAccumulates()
    ensures ResponseFits(firstPage)
    ensures AnalyticsService.Ends([firstPage, lastPage]) && AnalyticsService.PagesFit([firstPage, lastPage])
    ensures AnalyticsApiQuery.Caller(browserQuery, firstPage).outcome == Failure(NoExtendOnDict)
    ensures AnalyticsService.Caller(browserQuery, [firstPage, lastPage]).outcome
              == Success(Table(Some(RowIndex(["ga:browser"], [["Chrome"], ["Safari"]])),
                               [["ga:sessions"]], [["3"], ["5"]]))
  {
    var pages := [firstPage, lastPage];
    var a := [chromeRow];
    var b := [safariRow];
    assert Fits(browserHeader, a) && Fits(browserHeader, b);
    TwoPagesStack(browserQuery, firstPage, lastPage);
    SingleRowTable(a);
    SingleRowTable(b);
    var ta := ReshapeRows(browserHeader, a).value;
    var tb := ReshapeRows(browserHeader, b).value;
    assert [["Chrome"]] + [["Safari"]] == [["Chrome"], ["Safari"]];
    assert [["3"]] + [["5"]] == [["3"], ["5"]];
    assert Stack(ta, tb) == Table(Some(RowIndex(["ga:browser"], [["Chrome"], ["Safari"]])),
                                  [["ga:sessions"]], [["3"], ["5"]]);
  }

  /** A report whose `data` holds `totals` but no `rows`, the shape the
      Reporting API is expected to return for a query that matches nothing. */
  const noRowsPage := Response([Report(browserHeader, Some(ReportData(None, 1)), None)])

  /** The two unguarded copies raise `KeyError` on a report without rows;
      the guarded copy returns the empty table. */
  lemma NoRowsRaisesWhereGuardedCopyIsEmpty()
    ensures ResponseFits(noRowsPage)
    ensures AnalyticsService.Ends([noRowsPage]) && AnalyticsService.PagesFit([noRowsPage])
    ensures AnalyticsApiQuery.Caller(browserQuery, noRowsPage).outcome == Failure(MissingKey("rows"))
    ensures AnalyticsService.Caller(browserQuery, [noRowsPage]).outcome == Failure(MissingKey("rows"))
    ensures ApiQuery.Caller(browserQuery, noRowsPage).outcome == Success(Empty)
  {
    assert AnalyticsService.Stops(noRowsPage);
  }

  /** A column header whose first pivot header has two entries, `desktop` and `mobile`. */
  const devicePivotHeader := ColumnHeader(Some(["ga:browser"]), Some(MetricHeader(["ga:sessions"],
    Some([PivotHeader([PivotHeaderEntry(["desktop"], "ga:sessions"), PivotHeaderEntry(["mobile"], "ga:sessions")])]))))

  /** A first page whose row carries no `pivotValueRegions`, with a token. */
  const plainFirstPage := Response([Report(devicePivotHeader,
    Some(ReportData(Some([Row(["Safari"], [DateRangeValues(["5"], None)])]), 0)), Some("t"))])

  /** A last page whose row carries a region shorter than the pivot header. */
  const regionLastPage := Response([Report(devicePivotHeader,
    Some(ReportData(Some([Row(["Chrome"], [DateRangeValues(["3"], Some([PivotValueRegion(["1"])]))])]), 0)), None)])

  /** The rows of `plainFirstPage` and `regionLastPage` together. */
  const twoBrowserRows := [Row(["Safari"], [DateRangeValues(["5"], None)]),
                           Row(["Chrome"], [DateRangeValues(["3"], Some([PivotValueRegion(["1"])]))])]

  /** Reshaping the two rows under `devicePivotHeader` ignores the second
      row's region: the first row has none, so no pivot frame is built. */
  lemma FlatFrameOverBrowserRows()
    ensures Fits(devicePivotHeader, twoBrowserRows)
    ensures ReshapeRows(devicePivotHeader, twoBrowserRows)
              == Success(Table(Some(RowIndex(["ga:browser"], [["Safari"], ["Chrome"]])),
                               [["ga:sessions"]], [["5"], ["3"]]))
  {
    var h := devicePivotHeader;
    var rows := twoBrowserRows;
    assert !PivotReady(h, rows) by { assert !HasFirstRegion(rows[0]); }
    assert !PivotRequested(rows);
    var t := ReshapeRows(h, rows).value;
    assert t.columns == [["ga:sessions"]];
    assert t.cells == [["5"], ["3"]] by {
      assert |t.cells| == 2 && t.cells[0] == ["5"] && t.cells[1] == ["3"];
    }
    assert t.index == Some(RowIndex(["ga:browser"], [["Safari"], ["Chrome"]])) by {
      var index := DimensionIndex(h, rows).value;
      assert |index.tuples| == 2 && index.tuples[0] == ["Safari"] && index.tuples[1] == ["Chrome"];
      assert index.tuples == [["Safari"], ["Chrome"]];
      assert index.names == ["ga:browser"];
      assert t.index == DimensionIndex(h, rows);
    }
  }

  /** The paging copy decides on the pivot frame from the first page's
      first row alone: when that row carries no `pivotValueRegions`, a later
      page's regions are never read, whatever their length, and the call
      returns the flat metric frame over both pages. */
  lemma LaterRegionsNeverRead()
    ensures AnalyticsService.Ends([plainFirstPage, regionLastPage])
    ensures AnalyticsService.PagesFit([plainFirstPage, regionLastPage])
    ensures AnalyticsService.Caller(browserQuery, [plainFirstPage, regionLastPage]).outcome
              == Success(Table(Some(RowIndex(["ga:browser"], [["Safari"], ["Chrome"]])),
                               [["ga:sessions"]], [["5"], ["3"]]))
  {
    var pages := [plainFirstPage, regionLastPage];
    var h := devicePivotHeader;
    var a := [twoBrowserRows[0]];
    var b := [twoBrowserRows[1]];
    assert a + b == twoBrowserRows;
    assert pages[1..] == [regionLastPage];
    assert AnalyticsService.Stops(pages[1]);
    assert AnalyticsService.Ends(pages[1..]);
    FlatFrameOverBrowserRows();
    assert AnalyticsService.LoopFits(h, twoBrowserRows, None, pages[1..][1..]);
    AnalyticsService.CallerRunsLoop(browserQuery, pages);
    var loop := AnalyticsService.FirstLoop(browserQuery, pages);
    assert loop.rows == Success(twoBrowserRows);
  }
}
