/** The labelled table a reshaper returns: a pandas `DataFrame` whose cells
    are kept as the response's strings. */
module Tables {
  import opened Results

  /** A column label: one string per column level. */
  type Label = seq<string>

  /** A named `MultiIndex` over the rows: one tuple per row, one name per level. */
  datatype RowIndex = RowIndex(names: seq<string>, tuples: seq<seq<string>>)

  /** `index` is `None` for pandas' default positional index. */
  datatype Table = Table(index: Option<RowIndex>, columns: seq<Label>, cells: seq<seq<string>>)

  /** `pd.DataFrame()`. */
  const Empty: Table := Table(None, [], [])

  /** No rows and no columns, as `pd.DataFrame()` and whatever `concat` keeps of it. */
  predicate IsEmpty(t: Table) {
    t.cells == [] && t.columns == []
  }

  /** `columns.nlevels`: one for a frame without columns, else the label length. */
  function Levels(t: Table): nat {
    if |t.columns| == 0 then 1 else |t.columns[0]|
  }

  /** `df.columns = [[''] * len(df.columns), df.columns]`. */
  function Promote(t: Table): (r: Table)
    ensures r.index == t.index && r.cells == t.cells
    ensures |r.columns| == |t.columns|
    ensures forall j :: 0 <= j < |r.columns| ==> r.columns[j] == [""] + t.columns[j]
  {
    t.(columns := seq(|t.columns|, j requires 0 <= j < |t.columns| => [""] + t.columns[j]))
  }

  /** Row-wise juxtaposition of two equally long cell blocks. */
  function JoinRows(left: seq<seq<string>>, right: seq<seq<string>>): (r: seq<seq<string>>)
    requires |left| == |right|
    ensures |r| == |left|
    ensures forall i :: 0 <= i < |r| ==> r[i] == left[i] + right[i]
  {
    seq(|left|, i requires 0 <= i < |left| => left[i] + right[i])
  }

  /** `pd.concat([metric, pivot], axis=1)` after the metric columns have been
      promoted to two levels when the pivot columns have two. Both frames
      are built over the same rows, so they share one row index. */
  function Merge(metric: Table, pivot: Table): (r: Table)
    requires !IsEmpty(metric) && !IsEmpty(pivot) ==>
               metric.index == pivot.index && |metric.cells| == |pivot.cells|
    ensures |r.columns| == |metric.columns| + |pivot.columns|
    ensures forall j :: 0 <= j < |metric.columns| ==>
              r.columns[j] == if Levels(pivot) == 2 then [""] + metric.columns[j] else metric.columns[j]
    ensures r.columns[|metric.columns|..] == pivot.columns
    ensures IsEmpty(metric) ==> r == pivot
    ensures !IsEmpty(metric) && IsEmpty(pivot) ==> r.index == metric.index && r.cells == metric.cells
    ensures !IsEmpty(metric) && !IsEmpty(pivot) ==>
              && r.index == metric.index
              && |r.cells| == |metric.cells|
              && forall i :: 0 <= i < |r.cells| ==> r.cells[i] == metric.cells[i] + pivot.cells[i]
  {
    var m := if Levels(pivot) == 2 then Promote(metric) else metric;
    if IsEmpty(m) then pivot
    else if IsEmpty(pivot) then m
    else Table(m.index, m.columns + pivot.columns, JoinRows(m.cells, pivot.cells))
  }

  /** Two tables over the same columns and the same kind of row index: the
      rows of `top` followed by the rows of `bottom`. */
  predicate Stackable(top: Table, bottom: Table) {
    && top.columns == bottom.columns
    && top.index.Some? == bottom.index.Some?
    && (top.index.Some? ==> top.index.value.names == bottom.index.value.names)
  }

  function Stack(top: Table, bottom: Table): (r: Table)
    requires Stackable(top, bottom)
    ensures r.columns == top.columns
    ensures |r.cells| == |top.cells| + |bottom.cells|
    ensures r.cells[..|top.cells|] == top.cells && r.cells[|top.cells|..] == bottom.cells
  {
    var index := if top.index.Some?
                 then Some(RowIndex(top.index.value.names, top.index.value.tuples + bottom.index.value.tuples))
                 else None;
    Table(index, top.columns, top.cells + bottom.cells)
  }
}
