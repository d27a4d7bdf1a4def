/** The Google Analytics Reporting API v4 `batchGet` request body and
    response, reduced to the fields the reshaper reads.

    A field the source tests with `in` or reads with `.get` is an `Option`;
    a list the source indexes with `[0]` is a `seq` that may be empty. */
module Responses {
  import opened Results

  /** One entry of `pivotHeaders[k].pivotHeaderEntries`. */
  datatype PivotHeaderEntry = PivotHeaderEntry(dimensionValues: seq<string>, metricName: string)

  datatype PivotHeader = PivotHeader(entries: seq<PivotHeaderEntry>)

  /** `columnHeader.metricHeader`: the names of `metricHeaderEntries`, and
      the optional `pivotHeaders` list (absent when the request asks for no pivot). */
  datatype MetricHeader = MetricHeader(entryNames: seq<string>, pivotHeaders: Option<seq<PivotHeader>>)

  /** `columnHeader`: the optional `dimensions` name list and the optional `metricHeader`. */
  datatype ColumnHeader = ColumnHeader(dimensions: Option<seq<string>>, metricHeader: Option<MetricHeader>)

  datatype PivotValueRegion = PivotValueRegion(values: seq<string>)

  /** One element of a row's `metrics` list (one per date range). */
  datatype DateRangeValues = DateRangeValues(values: seq<string>, pivotValueRegions: Option<seq<PivotValueRegion>>)

  datatype Row = Row(dimensions: seq<string>, metrics: seq<DateRangeValues>)

  /** `report.data`: the optional `rows` list, and how many other keys
      (`totals`, `rowCount`, `minimums`, ...) the dictionary holds. */
  datatype ReportData = ReportData(rows: Option<seq<Row>>, otherKeys: nat)

  datatype Report = Report(columnHeader: ColumnHeader, data: Option<ReportData>, nextPageToken: Option<string>)

  datatype Response = Response(reports: seq<Report>)

  /** One element of the body's `reportRequests`; fields the reshaper never
      reads (date ranges, dimensions, metrics, pivots) are left abstract. */
  datatype ReportRequest = ReportRequest(viewId: string, pageToken: Option<string>)

  datatype Query = Query(requests: seq<ReportRequest>)

  /** Python truthiness of `report.get('nextPageToken', False)`. */
  predicate Truthy(token: Option<string>) {
    token.Some? && token.value != ""
  }

  /** Python falsiness of `report.get('data', [])`: absent, or an empty dictionary. */
  predicate DataIsFalsy(data: Option<ReportData>) {
    data.None? || (data.value.rows.None? && data.value.otherKeys == 0)
  }

  /** `query['reportRequests'][0]['pageToken'] = token`. */
  function WithPageToken(query: Query, token: string): (q: Query)
    requires |query.requests| > 0
    ensures |q.requests| == |query.requests|
    ensures q.requests[0].pageToken == Some(token)
    ensures q.requests[0].viewId == query.requests[0].viewId
    ensures q.requests[1..] == query.requests[1..]
  {
    query.(requests := [query.requests[0].(pageToken := Some(token))] + query.requests[1..])
  }

  /** The first region of a row's first metric, when `pivotValueRegions[0]` exists. */
  predicate HasFirstRegion(row: Row) {
    |row.metrics| > 0 && row.metrics[0].pivotValueRegions.Some? && |row.metrics[0].pivotValueRegions.value| > 0
  }

  function FirstRegion(row: Row): PivotValueRegion
    requires HasFirstRegion(row)
  {
    row.metrics[0].pivotValueRegions.value[0]
  }

  /** The pivot header the reshaper labels its columns from, `pivotHeaders[0]`, when present. */
  predicate HasFirstPivotHeader(h: ColumnHeader) {
    h.metricHeader.Some? && h.metricHeader.value.pivotHeaders.Some? && |h.metricHeader.value.pivotHeaders.value| > 0
  }

  function FirstPivotEntries(h: ColumnHeader): seq<PivotHeaderEntry>
    requires HasFirstPivotHeader(h)
  {
    h.metricHeader.value.pivotHeaders.value[0].entries
  }

  /** numpy and pandas build the named row index only from at least one
      dimension name and rows holding one value per name. */
  predicate IndexFits(h: ColumnHeader, rows: seq<Row>) {
    h.dimensions.Some? ==>
      && |h.dimensions.value| > 0
      && forall i :: 0 <= i < |rows| ==> |rows[i].dimensions| == |h.dimensions.value|
  }

  /** pandas builds the flat metric frame only when every row's first
      metric holds one value per metric name. */
  predicate MetricsFit(h: ColumnHeader, rows: seq<Row>) {
    h.metricHeader.Some? ==>
      forall i :: 0 <= i < |rows| && |rows[i].metrics| > 0 ==>
        |rows[i].metrics[0].values| == |h.metricHeader.value.entryNames|
  }

  /** The pivot frame can be built once requested: every row has a first
      region and the header has a first pivot header. */
  predicate PivotReady(h: ColumnHeader, rows: seq<Row>) {
    (forall i :: 0 <= i < |rows| ==> HasFirstRegion(rows[i])) && HasFirstPivotHeader(h)
  }

  /** numpy and pandas see the pivot values only when the pivot frame is
      built from at least one row; they then demand a non-empty, rectangular
      first pivot header and rows whose first region holds one value per
      header entry. */
  predicate PivotFits(h: ColumnHeader, rows: seq<Row>) {
    |rows| > 0 && PivotReady(h, rows) ==>
      var entries := FirstPivotEntries(h);
      && |entries| > 0
      && (forall j :: 0 <= j < |entries| ==> |entries[j].dimensionValues| == |entries[0].dimensionValues|)
      && (forall i :: 0 <= i < |rows| ==> |FirstRegion(rows[i]).values| == |entries|)
  }

  /** Every shape demand numpy and pandas make of a report's rows. */
  predicate Fits(h: ColumnHeader, rows: seq<Row>) {
    IndexFits(h, rows) && MetricsFit(h, rows) && PivotFits(h, rows)
  }

  /** The rows a report's `data` carries, when both exist. */
  function ReportRows(report: Report): Option<seq<Row>> {
    if report.data.Some? then report.data.value.rows else None
  }

  /** The first report of a single response is shaped as numpy and pandas demand. */
  predicate ResponseFits(response: Response) {
    |response.reports| > 0 && ReportRows(response.reports[0]).Some? ==>
      Fits(response.reports[0].columnHeader, ReportRows(response.reports[0]).value)
  }
}
