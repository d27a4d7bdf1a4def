/** Properties of the reshaper that relate several calls: reshaping rows
    fetched in two pages yields the two pages' tables stacked, and the
    promotion of the metric labels keeps the merged labels apart. */
module ReshaperLaws {
  import opened Results
  import opened Responses
  import opened Tables
  import opened Reshaper

  /** The shape demands of two row blocks carry over to their concatenation. */
  lemma FitsConcat(h: ColumnHeader, a: seq<Row>, b: seq<Row>)
    requires Fits(h, a) && Fits(h, b)
    ensures Fits(h, a + b)
  {
    var ab := a + b;
    assert forall i :: 0 <= i < |a| ==> ab[i] == a[i];
    assert forall i :: 0 <= i < |b| ==> ab[|a| + i] == b[i];
    if |ab| > 0 && PivotReady(h, ab) {
      assert |a| > 0 ==> PivotReady(h, a);
      assert |b| > 0 ==> PivotReady(h, b);
    }
  }

  /** The row index of two blocks is the first block's tuples followed by the second's. */
  lemma DimensionIndexConcat(h: ColumnHeader, a: seq<Row>, b: seq<Row>)
    requires IndexFits(h, a) && IndexFits(h, b) && IndexFits(h, a + b)
    ensures DimensionIndex(h, a + b).Some? ==>
              DimensionIndex(h, a + b).value.tuples
                == DimensionIndex(h, a).value.tuples + DimensionIndex(h, b).value.tuples
  {
    if h.dimensions.Some? {
      var ab := DimensionIndex(h, a + b).value.tuples;
      var ta := DimensionIndex(h, a).value.tuples;
      var tb := DimensionIndex(h, b).value.tuples;
      assert |ab| == |ta + tb|;
      forall i | 0 <= i < |ab| ensures ab[i] == (ta + tb)[i] {
        if i < |a| { assert (a + b)[i] == a[i]; } else { assert (a + b)[i] == b[i - |a|]; }
      }
    }
  }

  /** Two tables built over consecutive row blocks by the same builder stack
      into the table built over the whole block. */
  lemma StackOfBlocks(whole: Table, top: Table, bottom: Table, h: ColumnHeader, a: seq<Row>, b: seq<Row>)
    requires IndexFits(h, a) && IndexFits(h, b) && IndexFits(h, a + b)
    requires whole.index == DimensionIndex(h, a + b)
    requires top.index == DimensionIndex(h, a) && bottom.index == DimensionIndex(h, b)
    requires whole.columns == top.columns == bottom.columns
    requires whole.cells == top.cells + bottom.cells
    ensures Stackable(top, bottom) && whole == Stack(top, bottom)
  {
    DimensionIndexConcat(h, a, b);
  }

  /** Paging leaves the flat metric frame unchanged: built over two pages'
      rows it is the two pages' frames stacked, and it fails exactly when
      one of them does. */
  lemma MetricTableStacks(h: ColumnHeader, a: seq<Row>, b: seq<Row>)
    requires h.metricHeader.Some? && |a| > 0 && |b| > 0
    requires Fits(h, a) && Fits(h, b)
    ensures Fits(h, a + b)
    ensures MetricTable(h, a + b).Success? <==> MetricTable(h, a).Success? && MetricTable(h, b).Success?
    ensures MetricTable(h, a + b).Success? ==>
              && Stackable(MetricTable(h, a).value, MetricTable(h, b).value)
              && MetricTable(h, a + b).value == Stack(MetricTable(h, a).value, MetricTable(h, b).value)
  {
    FitsConcat(h, a, b);
    MetricsConcat(a, b);
    var ab := a + b;
    if MetricTable(h, ab).Success? {
      var w := MetricTable(h, ab).value;
      var t := MetricTable(h, a).value;
      var u := MetricTable(h, b).value;
      MetricCellsConcat(w.cells, t.cells, u.cells, a, b);
      StackOfBlocks(w, t, u, h, a, b);
    }
  }

  /** The flat metric cells over two blocks are the first block's cells followed by the second's. */
  lemma MetricCellsConcat(w: seq<seq<string>>, t: seq<seq<string>>, u: seq<seq<string>>, a: seq<Row>, b: seq<Row>)
    requires forall i :: 0 <= i < |a + b| ==> |(a + b)[i].metrics| > 0
    requires |w| == |a + b| && forall i :: 0 <= i < |a + b| ==> w[i] == (a + b)[i].metrics[0].values
    requires forall i :: 0 <= i < |a| ==> |a[i].metrics| > 0
    requires |t| == |a| && forall i :: 0 <= i < |a| ==> t[i] == a[i].metrics[0].values
    requires forall i :: 0 <= i < |b| ==> |b[i].metrics| > 0
    requires |u| == |b| && forall i :: 0 <= i < |b| ==> u[i] == b[i].metrics[0].values
    ensures w == t + u
  {
    forall i | 0 <= i < |w| ensures w[i] == (t + u)[i] {
      if i < |a| { assert (a + b)[i] == a[i]; } else { assert (a + b)[i] == b[i - |a|]; }
    }
  }

  /** Every row of two blocks has a first region exactly when every row of their concatenation does. */
  lemma RegionsConcat(a: seq<Row>, b: seq<Row>)
    ensures (forall i :: 0 <= i < |a + b| ==> HasFirstRegion((a + b)[i]))
            <==> (forall i :: 0 <= i < |a| ==> HasFirstRegion(a[i])) && (forall i :: 0 <= i < |b| ==> HasFirstRegion(b[i]))
  {
    var ab := a + b;
    assert forall i :: 0 <= i < |a| ==> ab[i] == a[i];
    assert forall i :: 0 <= i < |b| ==> ab[|a| + i] == b[i];
    if forall i :: 0 <= i < |a| ==> HasFirstRegion(a[i]) {
      if forall i :: 0 <= i < |b| ==> HasFirstRegion(b[i]) {
        forall i | 0 <= i < |ab| ensures HasFirstRegion(ab[i]) {
          if i >= |a| { assert ab[i] == b[i - |a|]; }
        }
      }
    }
  }

  /** Every row of two blocks has a first metric exactly when every row of their concatenation does. */
  lemma MetricsConcat(a: seq<Row>, b: seq<Row>)
    ensures (forall i :: 0 <= i < |a + b| ==> |(a + b)[i].metrics| > 0)
            <==> (forall i :: 0 <= i < |a| ==> |a[i].metrics| > 0) && (forall i :: 0 <= i < |b| ==> |b[i].metrics| > 0)
  {
    var ab := a + b;
    assert forall i :: 0 <= i < |a| ==> ab[i] == a[i];
    assert forall i :: 0 <= i < |b| ==> ab[|a| + i] == b[i];
    if forall i :: 0 <= i < |a| ==> |a[i].metrics| > 0 {
      if forall i :: 0 <= i < |b| ==> |b[i].metrics| > 0 {
        forall i | 0 <= i < |ab| ensures |ab[i].metrics| > 0 {
          if i >= |a| { assert ab[i] == b[i - |a|]; }
        }
      }
    }
  }

  /** The pivot cells over two blocks are the first block's cells followed by the second's. */
  lemma PivotCellsConcat(w: seq<seq<string>>, t: seq<seq<string>>, u: seq<seq<string>>, a: seq<Row>, b: seq<Row>)
    requires forall i :: 0 <= i < |a + b| ==> HasFirstRegion((a + b)[i])
    requires |w| == |a + b| && forall i :: 0 <= i < |a + b| ==> w[i] == FirstRegion((a + b)[i]).values
    requires forall i :: 0 <= i < |a| ==> HasFirstRegion(a[i])
    requires |t| == |a| && forall i :: 0 <= i < |a| ==> t[i] == FirstRegion(a[i]).values
    requires forall i :: 0 <= i < |b| ==> HasFirstRegion(b[i])
    requires |u| == |b| && forall i :: 0 <= i < |b| ==> u[i] == FirstRegion(b[i]).values
    ensures w == t + u
  {
    forall i | 0 <= i < |w| ensures w[i] == (t + u)[i] {
      if i < |a| { assert (a + b)[i] == a[i]; } else { assert (a + b)[i] == b[i - |a|]; }
    }
  }

  /** Paging leaves the pivot frame unchanged: built over two pages' rows it
      is the two pages' frames stacked, and it fails exactly when one of them
      does. */
  lemma PivotTableStacks(h: ColumnHeader, a: seq<Row>, b: seq<Row>)
    requires |a| > 0 && |b| > 0
    requires Fits(h, a) && Fits(h, b)
    ensures Fits(h, a + b)
    ensures PivotTable(h, a + b).Success? <==> PivotTable(h, a).Success? && PivotTable(h, b).Success?
    ensures PivotTable(h, a + b).Success? ==>
              && Stackable(PivotTable(h, a).value, PivotTable(h, b).value)
              && PivotTable(h, a + b).value == Stack(PivotTable(h, a).value, PivotTable(h, b).value)
  {
    FitsConcat(h, a, b);
    RegionsConcat(a, b);
    var ab := a + b;
    if PivotTable(h, a).Success? && PivotTable(h, b).Success? {
      var w := PivotTable(h, ab).value;
      var t := PivotTable(h, a).value;
      var u := PivotTable(h, b).value;
      PivotCellsConcat(w.cells, t.cells, u.cells, a, b);
      StackOfBlocks(w, t, u, h, a, b);
    }
  }

  /** Merging commutes with stacking, for two pages whose frames agree on
      which of them are empty. */
  lemma MergeStacks(m1: Table, m2: Table, p1: Table, p2: Table)
    requires IsEmpty(m1) == IsEmpty(m2) && IsEmpty(p1) == IsEmpty(p2)
    requires !IsEmpty(m1) && !IsEmpty(p1) ==> m1.index == p1.index && |m1.cells| == |p1.cells|
    requires !IsEmpty(m2) && !IsEmpty(p2) ==> m2.index == p2.index && |m2.cells| == |p2.cells|
    requires Stackable(m1, m2) && Stackable(p1, p2)
    ensures Stackable(Merge(m1, p1), Merge(m2, p2))
    ensures Merge(Stack(m1, m2), Stack(p1, p2)) == Stack(Merge(m1, p1), Merge(m2, p2))
  {
    var top := Merge(m1, p1);
    var bottom := Merge(m2, p2);
    var whole := Merge(Stack(m1, m2), Stack(p1, p2));
    assert Levels(Stack(p1, p2)) == Levels(p1) == Levels(p2);
    if !IsEmpty(m1) && !IsEmpty(p1) {
      assert top.columns == bottom.columns;
      assert whole.columns == top.columns;
      var s := Stack(top, bottom);
      assert whole.cells == s.cells by {
        forall i | 0 <= i < |whole.cells| ensures whole.cells[i] == s.cells[i] {
          if i >= |m1.cells| {
            assert Stack(m1, m2).cells[i] == m2.cells[i - |m1.cells|];
            assert Stack(p1, p2).cells[i] == p2.cells[i - |m1.cells|];
          }
        }
      }
    } else if !IsEmpty(m1) {
      assert Levels(p1) == 1;
      assert !IsEmpty(Stack(m1, m2));
    }
  }

  /** Paging leaves the guarded pivot frame unchanged, when both pages'
      first rows agree on whether a pivot is requested. */
  lemma GuardedPivotStacks(h: ColumnHeader, a: seq<Row>, b: seq<Row>)
    requires |a| > 0 && |b| > 0
    requires Fits(h, a) && Fits(h, b) && Fits(h, a + b)
    requires |a[0].metrics| > 0 && |b[0].metrics| > 0
    requires PivotRequested(a) <==> PivotRequested(b)
    ensures GuardedPivotTable(h, a + b).Success? <==>
              GuardedPivotTable(h, a).Success? && GuardedPivotTable(h, b).Success?
    ensures GuardedPivotTable(h, a + b).Success? ==>
              && Stackable(GuardedPivotTable(h, a).value, GuardedPivotTable(h, b).value)
              && GuardedPivotTable(h, a + b).value
                 == Stack(GuardedPivotTable(h, a).value, GuardedPivotTable(h, b).value)
  {
    assert (a + b)[0] == a[0];
    if PivotRequested(a) {
      PivotTableStacks(h, a, b);
    } else {
      assert Stack(Empty, Empty) == Empty;
    }
  }

  /** Paging leaves the guarded metric frame unchanged. */
  lemma GuardedMetricStacks(h: ColumnHeader, a: seq<Row>, b: seq<Row>)
    requires |a| > 0 && |b| > 0
    requires Fits(h, a) && Fits(h, b) && Fits(h, a + b)
    ensures GuardedMetricTable(h, a + b).Success? <==>
              GuardedMetricTable(h, a).Success? && GuardedMetricTable(h, b).Success?
    ensures GuardedMetricTable(h, a + b).Success? ==>
              && Stackable(GuardedMetricTable(h, a).value, GuardedMetricTable(h, b).value)
              && GuardedMetricTable(h, a + b).value
                 == Stack(GuardedMetricTable(h, a).value, GuardedMetricTable(h, b).value)
  {
    if h.metricHeader.Some? {
      MetricTableStacks(h, a, b);
    } else {
      assert Stack(Empty, Empty) == Empty;
    }
  }

  /** Paging leaves the reshaped report unchanged: when both pages' first
      rows agree on whether a pivot is requested, reshaping their rows
      together gives the two pages' tables stacked, and it fails exactly
      when one of them does. */
  lemma ReshapeRowsStacks(h: ColumnHeader, a: seq<Row>, b: seq<Row>)
    requires |a| > 0 && |b| > 0
    requires Fits(h, a) && Fits(h, b)
    requires |a[0].metrics| > 0 && |b[0].metrics| > 0
    requires PivotRequested(a) <==> PivotRequested(b)
    ensures Fits(h, a + b)
    ensures ReshapeRows(h, a + b).Success? <==> ReshapeRows(h, a).Success? && ReshapeRows(h, b).Success?
    ensures ReshapeRows(h, a + b).Success? ==>
              && Stackable(ReshapeRows(h, a).value, ReshapeRows(h, b).value)
              && ReshapeRows(h, a + b).value == Stack(ReshapeRows(h, a).value, ReshapeRows(h, b).value)
  {
    FitsConcat(h, a, b);
    GuardedPivotStacks(h, a, b);
    GuardedMetricStacks(h, a, b);
    var ab := a + b;
    if GuardedPivotTable(h, ab).Success? && GuardedMetricTable(h, ab).Success? {
      var pa := GuardedPivotTable(h, a).value;
      var pb := GuardedPivotTable(h, b).value;
      var ma := GuardedMetricTable(h, a).value;
      var mb := GuardedMetricTable(h, b).value;
      MergeStacks(ma, mb, pa, pb);
    }
  }

  /** No two labels of a sequence coincide. */
  predicate Distinct(labels: seq<Label>) {
    forall j, k :: 0 <= j < k < |labels| ==> labels[j] != labels[k]
  }

  /** The pairwise argument behind `MergedLabelsDistinct`, over the merged
      labels alone. */
  lemma LabelsDistinct(cols: seq<Label>, names: seq<string>, entries: seq<PivotHeaderEntry>, promote: bool)
    requires |cols| == |names| + |entries|
    requires forall j :: 0 <= j < |names| ==> cols[j] == if promote then ["", names[j]] else [names[j]]
    requires forall j :: 0 <= j < |entries| ==> cols[|names| + j] == PivotLabel(entries[j])
    requires forall j, k :: 0 <= j < k < |names| ==> names[j] != names[k]
    requires forall j, k :: 0 <= j < k < |entries| ==> PivotLabel(entries[j]) != PivotLabel(entries[k])
    requires forall j :: 0 <= j < |entries| ==> |entries[j].dimensionValues| >= 1
    requires promote ==> forall j :: 0 <= j < |entries| ==> entries[j].dimensionValues[0] != ""
    requires !promote ==> forall j :: 0 <= j < |entries| ==> |entries[j].dimensionValues| != 1
    ensures Distinct(cols)
  {
    var n := |names|;
    forall j, k | 0 <= j < k < |cols| ensures cols[j] != cols[k] {
      if k < n {
        assert cols[j][|cols[j]| - 1] == names[j];
        assert cols[k][|cols[k]| - 1] == names[k];
      } else if j >= n {
        assert cols[j] == PivotLabel(entries[j - n]);
        assert cols[k] == PivotLabel(entries[k - n]);
      } else {
        var e := entries[k - n];
        assert cols[k] == e.dimensionValues + [e.metricName];
        if promote {
          assert cols[j][0] == "";
          assert cols[k][0] == e.dimensionValues[0];
        } else {
          assert |cols[j]| == 1;
          assert |cols[k]| >= 3;
        }
      }
    }
  }

  /** Promoting the metric labels keeps the merged columns free of
      collisions: when metric names are distinct, pivot labels are distinct,
      the pivot has at least one dimension, and (for exactly one) no pivot
      dimension value is empty, no two merged labels coincide. */
  lemma MergedLabelsDistinct(h: ColumnHeader, rows: seq<Row>)
    requires Fits(h, rows)
    requires ReshapeRows(h, rows).Success?
    requires h.metricHeader.Some? && PivotRequested(rows)
    requires forall j, k :: 0 <= j < k < |h.metricHeader.value.entryNames| ==>
               h.metricHeader.value.entryNames[j] != h.metricHeader.value.entryNames[k]
    requires forall j, k :: 0 <= j < k < |FirstPivotEntries(h)| ==>
               PivotLabel(FirstPivotEntries(h)[j]) != PivotLabel(FirstPivotEntries(h)[k])
    requires |FirstPivotEntries(h)[0].dimensionValues| >= 1
    requires |FirstPivotEntries(h)[0].dimensionValues| == 1 ==>
               forall j :: 0 <= j < |FirstPivotEntries(h)| ==> FirstPivotEntries(h)[j].dimensionValues[0] != ""
    ensures Distinct(ReshapeRows(h, rows).value.columns)
  {
    var r := ReshapeRows(h, rows).value;
    var names := h.metricHeader.value.entryNames;
    var entries := FirstPivotEntries(h);
    var promote := PromotesMetricLabels(h, rows);
    assert |r.columns| == |names| + |entries|;
    assert forall j :: 0 <= j < |names| ==> r.columns[j] == if promote then ["", names[j]] else [names[j]];
    assert forall j :: 0 <= j < |entries| ==> r.columns[|names| + j] == PivotLabel(entries[j]);
    assert forall j :: 0 <= j < |entries| ==> |entries[j].dimensionValues| == |entries[0].dimensionValues|;
    LabelsDistinct(r.columns, names, entries, promote);
  }
}
