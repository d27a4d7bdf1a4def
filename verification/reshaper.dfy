/** The response reshaper shared by the three caller modules: the row
    index, the flat metric frame, the pivot frame, their guards and their
    merge into one labelled table. */
module Reshaper {
  import opened Results
  import opened Responses
  import opened Tables

  /** `get_dimension_row_names`: the named row index, or the default index
      when the column header has no `dimensions`. */
  function DimensionIndex(h: ColumnHeader, rows: seq<Row>): (r: Option<RowIndex>)
    requires IndexFits(h, rows)
    ensures r.None? <==> h.dimensions.None?
    ensures r.Some? ==> r.value.names == h.dimensions.value && |r.value.tuples| == |rows|
    ensures r.Some? ==> forall i :: 0 <= i < |rows| ==>
              r.value.tuples[i] == rows[i].dimensions && |r.value.tuples[i]| == |r.value.names|
  {
    if h.dimensions.Some?
    then Some(RowIndex(h.dimensions.value, seq(|rows|, i requires 0 <= i < |rows| => rows[i].dimensions)))
    else None
  }

  /** `[element['metrics'][0]['values'] for element in rows]`. */
  function MetricValues(rows: seq<Row>): (r: Result<seq<seq<string>>>)
    ensures r.Success? <==> forall i :: 0 <= i < |rows| ==> |rows[i].metrics| > 0
    ensures r.Failure? ==> r.error == IndexOutOfRange("metrics")
    ensures r.Success? ==> |r.value| == |rows|
    ensures r.Success? ==> forall i :: 0 <= i < |rows| ==> r.value[i] == rows[i].metrics[0].values
  {
    if |rows| == 0 then Success([])
    else if |rows[0].metrics| == 0 then Failure(IndexOutOfRange("metrics"))
    else
      var rest :- MetricValues(rows[1..]);
      Success([rows[0].metrics[0].values] + rest)
  }

  /** The exception `row['metrics'][0]['pivotValueRegions'][0]` raises, if any. */
  function RegionError(row: Row): (r: Option<Error>)
    ensures r.None? <==> HasFirstRegion(row)
  {
    if |row.metrics| == 0 then Some(IndexOutOfRange("metrics"))
    else if row.metrics[0].pivotValueRegions.None? then Some(MissingKey("pivotValueRegions"))
    else if |row.metrics[0].pivotValueRegions.value| == 0 then Some(IndexOutOfRange("pivotValueRegions"))
    else None
  }

  /** `[item['metrics'][0]['pivotValueRegions'][0]['values'] for item in rows]`:
      the first row without a first region raises. */
  function PivotValues(rows: seq<Row>): (r: Result<seq<seq<string>>>)
    ensures r.Success? <==> forall i :: 0 <= i < |rows| ==> HasFirstRegion(rows[i])
    ensures r.Success? ==> |r.value| == |rows|
    ensures r.Success? ==> forall i :: 0 <= i < |rows| ==> r.value[i] == FirstRegion(rows[i]).values
    ensures r.Failure? ==>
              exists i :: 0 <= i < |rows| && RegionError(rows[i]) == Some(r.error)
                          && forall k :: 0 <= k < i ==> HasFirstRegion(rows[k])
  {
    if |rows| == 0 then Success([])
    else match RegionError(rows[0])
      case Some(e) => Failure(e)
      case None =>
        var rest := PivotValues(rows[1..]);
        if rest.Failure? then
          ghost var i :| 0 <= i < |rows[1..]| && RegionError(rows[1..][i]) == Some(rest.error)
                         && forall k :: 0 <= k < i ==> HasFirstRegion(rows[1..][k]);
          assert RegionError(rows[i + 1]) == Some(rest.error);
          assert forall k :: 0 <= k < i + 1 ==> HasFirstRegion(rows[k]) by {
            forall k | 0 <= k < i + 1 ensures HasFirstRegion(rows[k]) {
              if k > 0 { assert rows[k] == rows[1..][k - 1]; }
            }
          }
          Failure(rest.error)
        else
          Success([FirstRegion(rows[0]).values] + rest.value)
  }

  /** The label of one pivot column: its dimension values, then its metric name. */
  function PivotLabel(entry: PivotHeaderEntry): Label {
    entry.dimensionValues + [entry.metricName]
  }

  /** `metric_report_df` as the unguarded modules write it: one column per
      metric header entry, row i holding row i's first-metric values. */
  function MetricTable(h: ColumnHeader, rows: seq<Row>): (r: Result<Table>)
    requires h.metricHeader.Some? && |rows| > 0
    requires IndexFits(h, rows) && MetricsFit(h, rows)
    ensures r.Success? <==> forall i :: 0 <= i < |rows| ==> |rows[i].metrics| > 0
    ensures r.Failure? ==> r.error == IndexOutOfRange("metrics")
    ensures r.Success? ==>
              var names := h.metricHeader.value.entryNames;
              && r.value.index == DimensionIndex(h, rows)
              && |r.value.columns| == |names|
              && (forall j :: 0 <= j < |names| ==> r.value.columns[j] == [names[j]])
              && |r.value.cells| == |rows|
              && (forall i :: 0 <= i < |rows| ==>
                    r.value.cells[i] == rows[i].metrics[0].values && |r.value.cells[i]| == |names|)
  {
    var names := h.metricHeader.value.entryNames;
    var values :- MetricValues(rows);
    Success(Table(DimensionIndex(h, rows), seq(|names|, j requires 0 <= j < |names| => [names[j]]), values))
  }

  /** `pivot_report_df` as the unguarded modules write it: only
      `pivotHeaders[0]` labels the columns and only `pivotValueRegions[0]`
      fills them. */
  function PivotTable(h: ColumnHeader, rows: seq<Row>): (r: Result<Table>)
    requires |rows| > 0
    requires IndexFits(h, rows) && PivotFits(h, rows)
    ensures r.Success? <==>
              (forall i :: 0 <= i < |rows| ==> HasFirstRegion(rows[i])) && HasFirstPivotHeader(h)
    ensures (forall i :: 0 <= i < |rows| ==> HasFirstRegion(rows[i])) && h.metricHeader.None? ==>
              r == Failure(MissingKey("metricHeader"))
    ensures (forall i :: 0 <= i < |rows| ==> HasFirstRegion(rows[i])) && h.metricHeader.Some?
            && h.metricHeader.value.pivotHeaders.None? ==>
              r == Failure(MissingKey("pivotHeaders"))
    ensures (forall i :: 0 <= i < |rows| ==> HasFirstRegion(rows[i])) && h.metricHeader.Some?
            && h.metricHeader.value.pivotHeaders == Some([]) ==>
              r == Failure(IndexOutOfRange("pivotHeaders"))
    ensures r.Failure? && !(forall i :: 0 <= i < |rows| ==> HasFirstRegion(rows[i])) ==>
              r.error == PivotValues(rows).error
    ensures r.Success? ==>
              var entries := FirstPivotEntries(h);
              && r.value.index == DimensionIndex(h, rows)
              && |r.value.columns| == |entries|
              && (forall j :: 0 <= j < |entries| ==> r.value.columns[j] == PivotLabel(entries[j]))
              && Levels(r.value) == |entries[0].dimensionValues| + 1
              && |r.value.cells| == |rows|
              && (forall i :: 0 <= i < |rows| ==>
                    r.value.cells[i] == FirstRegion(rows[i]).values && |r.value.cells[i]| == |entries|)
  {
    var values :- PivotValues(rows);
    if h.metricHeader.None? then Failure(MissingKey("metricHeader"))
    else if h.metricHeader.value.pivotHeaders.None? then Failure(MissingKey("pivotHeaders"))
    else if |h.metricHeader.value.pivotHeaders.value| == 0 then Failure(IndexOutOfRange("pivotHeaders"))
    else
      var entries := FirstPivotEntries(h);
      Success(Table(DimensionIndex(h, rows),
                    seq(|entries|, j requires 0 <= j < |entries| => PivotLabel(entries[j])),
                    values))
  }

  /** The pivot guard: the first row's first metric carries `pivotValueRegions`. */
  predicate PivotRequested(rows: seq<Row>) {
    |rows| > 0 && |rows[0].metrics| > 0 && rows[0].metrics[0].pivotValueRegions.Some?
  }

  /** The pivot frame behind its guard: `pivot_report_df` in the guarded
      module, the `if` before it in the unguarded ones. Reading the guard
      itself raises when there is no first row or no first metric. */
  function GuardedPivotTable(h: ColumnHeader, rows: seq<Row>): (r: Result<Table>)
    requires IndexFits(h, rows) && PivotFits(h, rows)
    ensures |rows| == 0 ==> r == Failure(IndexOutOfRange("rows"))
    ensures |rows| > 0 && |rows[0].metrics| == 0 ==> r == Failure(IndexOutOfRange("metrics"))
    ensures |rows| > 0 && |rows[0].metrics| > 0 && !PivotRequested(rows) ==> r == Success(Empty)
    ensures PivotRequested(rows) ==> r == PivotTable(h, rows)
    ensures r.Success? ==> (IsEmpty(r.value) <==> !PivotRequested(rows))
  {
    if |rows| == 0 then Failure(IndexOutOfRange("rows"))
    else if |rows[0].metrics| == 0 then Failure(IndexOutOfRange("metrics"))
    else if rows[0].metrics[0].pivotValueRegions.Some? then PivotTable(h, rows)
    else Success(Empty)
  }

  /** The flat metric frame behind its guard: built only when the column
      header carries a `metricHeader`. */
  function GuardedMetricTable(h: ColumnHeader, rows: seq<Row>): (r: Result<Table>)
    requires |rows| > 0
    requires IndexFits(h, rows) && MetricsFit(h, rows)
    ensures h.metricHeader.None? ==> r == Success(Empty)
    ensures h.metricHeader.Some? ==> r == MetricTable(h, rows)
    ensures r.Success? ==> (IsEmpty(r.value) <==> h.metricHeader.None?)
  {
    if h.metricHeader.Some? then MetricTable(h, rows) else Success(Empty)
  }

  /** The number of flat metric columns the merged table holds. */
  function MetricColumnCount(h: ColumnHeader): nat {
    if h.metricHeader.Some? then |h.metricHeader.value.entryNames| else 0
  }

  /** The number of pivot columns the merged table holds. */
  function PivotColumnCount(h: ColumnHeader, rows: seq<Row>): nat {
    if PivotRequested(rows) && HasFirstPivotHeader(h) then |FirstPivotEntries(h)| else 0
  }

  /** The metric labels are promoted to two levels exactly when the pivot
      frame is built with one pivot dimension. */
  predicate PromotesMetricLabels(h: ColumnHeader, rows: seq<Row>)
    requires PivotFits(h, rows)
  {
    PivotRequested(rows) && PivotReady(h, rows) && |FirstPivotEntries(h)[0].dimensionValues| == 1
  }

  /** The merged row of a report row: its flat metric values (if the metric
      frame is built) followed by its first region's values (if the pivot
      frame is built). */
  function ExpectedRow(h: ColumnHeader, rows: seq<Row>, row: Row): seq<string> {
    (if h.metricHeader.Some? && |row.metrics| > 0 then row.metrics[0].values else [])
    + (if PivotRequested(rows) && HasFirstRegion(row) then FirstRegion(row).values else [])
  }

  /** The reshaping step of `ga_api_caller`: the guarded pivot frame, the
      guarded metric frame, then their merge. */
  function ReshapeRows(h: ColumnHeader, rows: seq<Row>): (r: Result<Table>)
    requires Fits(h, rows)
    ensures r.Success? <==>
              && |rows| > 0 && |rows[0].metrics| > 0
              && (PivotRequested(rows) ==> PivotReady(h, rows))
              && (h.metricHeader.Some? ==> forall i :: 0 <= i < |rows| ==> |rows[i].metrics| > 0)
    ensures r.Success? && h.metricHeader.None? && !PivotRequested(rows) ==> r.value == Empty
    ensures r.Success? ==> |r.value.columns| == MetricColumnCount(h) + PivotColumnCount(h, rows)
    ensures r.Success? && h.metricHeader.Some? ==>
              var names := h.metricHeader.value.entryNames;
              forall j :: 0 <= j < |names| ==>
                r.value.columns[j] == if PromotesMetricLabels(h, rows) then ["", names[j]] else [names[j]]
    ensures r.Success? && PivotRequested(rows) ==>
              var entries := FirstPivotEntries(h);
              forall j :: 0 <= j < |entries| ==>
                r.value.columns[MetricColumnCount(h) + j] == PivotLabel(entries[j])
    ensures r.Success? && (h.metricHeader.Some? || PivotRequested(rows)) ==>
              && r.value.index == DimensionIndex(h, rows)
              && |r.value.cells| == |rows|
              && forall i :: 0 <= i < |rows| ==> r.value.cells[i] == ExpectedRow(h, rows, rows[i])
  {
    var pivot :- GuardedPivotTable(h, rows);
    var metric :- GuardedMetricTable(h, rows);
    Success(Merge(metric, pivot))
  }

  /** The first report's `data` once it reaches the reshaper: without a
      `rows` key, `data['rows'][0]` raises. */
  function ReshapeData(h: ColumnHeader, data: ReportData): (r: Result<Table>)
    requires data.rows.Some? ==> Fits(h, data.rows.value)
    ensures data.rows.None? ==> r == Failure(MissingKey("rows"))
    ensures data.rows.Some? ==> r == ReshapeRows(h, data.rows.value)
  {
    match data.rows
    case None => Failure(MissingKey("rows"))
    case Some(rows) => ReshapeRows(h, rows)
  }

  /** What one call of `ga_api_caller` did: its outcome (a table, or the
      exception it raised), the request bodies it sent to `batchGet` in
      order, and the caller's query as the call left it. */
  datatype Run = Run(outcome: Result<Table>, sent: seq<Query>, query: Query)
}
