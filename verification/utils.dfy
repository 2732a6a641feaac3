/** The plot-specification getters and table helpers of petabvis/utils.py.
    A plot specification is one row of the visualization table. */
module Utils {
  import opened Tables

  /** The legend entry of a line: legendEntry, else datasetId, else "". */
  function LegendName(spec: Row): (name: Value)
    ensures "legendEntry" in spec ==> name == spec["legendEntry"]
    ensures "legendEntry" !in spec && "datasetId" in spec ==> name == spec["datasetId"]
    ensures "legendEntry" !in spec && "datasetId" !in spec ==> name == Str("")
  {
    var name := if "datasetId" in spec then spec["datasetId"] else Str("");
    if "legendEntry" in spec then spec["legendEntry"] else name
  }

  /** The independent variable; "time" unless xValues names a condition column. */
  function XVar(spec: Row): (x: Value)
    ensures "xValues" !in spec ==> x == Str("time")
    ensures "xValues" in spec ==> x == spec["xValues"]
  {
    if "xValues" in spec then spec["xValues"] else Str("time")
  }

  /** The observable plotted on the y-axis; "" when not given. */
  function YVar(spec: Row): (y: Value)
    ensures "yValues" !in spec ==> y == Str("")
    ensures "yValues" in spec ==> y == spec["yValues"]
  {
    if "yValues" in spec then spec["yValues"] else Str("")
  }

  /** `float(cell)` is only modelled for numeric cells. */
  predicate NumericField(spec: Row, col: string)
  {
    col in spec ==> spec[col].Num?
  }

  function XOffset(spec: Row): (offset: real)
    requires NumericField(spec, "xOffset")
    ensures "xOffset" !in spec ==> offset == 0.0
    ensures "xOffset" in spec ==> offset == spec["xOffset"].r
  {
    if "xOffset" in spec then spec["xOffset"].r else 0.0
  }

  function YOffset(spec: Row): (offset: real)
    requires NumericField(spec, "yOffset")
    ensures "yOffset" !in spec ==> offset == 0.0
    ensures "yOffset" in spec ==> offset == spec["yOffset"].r
  {
    if "yOffset" in spec then spec["yOffset"].r else 0.0
  }

  function XScale(spec: Row): (scale: Value)
    ensures "xScale" !in spec ==> scale == Str("lin")
    ensures "xScale" in spec ==> scale == spec["xScale"]
  {
    if "xScale" in spec then spec["xScale"] else Str("lin")
  }

  function YScale(spec: Row): (scale: Value)
    ensures "yScale" !in spec ==> scale == Str("lin")
    ensures "yScale" in spec ==> scale == spec["yScale"]
  {
    if "yScale" in spec then spec["yScale"] else Str("lin")
  }

  /** The x-axis label falls back to the x variable, not to a fixed text. */
  function XLabel(spec: Row): (text: Value)
    ensures "xLabel" in spec ==> text == spec["xLabel"]
    ensures "xLabel" !in spec ==> text == XVar(spec)
    ensures "xLabel" !in spec && "xValues" !in spec ==> text == Str("time")
  {
    if "xLabel" in spec then spec["xLabel"] else XVar(spec)
  }

  function YLabel(spec: Row): (text: Value)
    ensures "yLabel" !in spec ==> text == Str("measurement")
    ensures "yLabel" in spec ==> text == spec["yLabel"]
  {
    if "yLabel" in spec then spec["yLabel"] else Str("measurement")
  }

  function DatasetId(spec: Row): (id: Value)
    ensures "datasetId" !in spec ==> id == Str("")
    ensures "datasetId" in spec ==> id == spec["datasetId"]
  {
    if "datasetId" in spec then spec["datasetId"] else Str("")
  }

  function PlotTypeData(spec: Row): (kind: Value)
    ensures "plotTypeData" !in spec ==> kind == Str("MeanAndSD")
    ensures "plotTypeData" in spec ==> kind == spec["plotTypeData"]
  {
    if "plotTypeData" in spec then spec["plotTypeData"] else Str("MeanAndSD")
  }

  /** `iloc[0]` of an empty table raises, so a titled table needs a first row. */
  predicate TitleReadable(vis: Option<Frame>)
  {
    (vis.Some? && ("plotName" in vis.value.columns || "plotId" in vis.value.columns)) ==>
      |vis.value.rows| > 0
  }

  /** The plot title: plotName of the first row, else its plotId, else "". */
  function PlotTitle(vis: Option<Frame>): (title: Value)
    requires TitleReadable(vis)
    ensures vis.None? ==> title == Str("")
    ensures vis.Some? && "plotName" in vis.value.columns ==> title == Cell(vis.value.rows[0], "plotName")
    ensures vis.Some? && "plotName" !in vis.value.columns && "plotId" in vis.value.columns
      ==> title == Cell(vis.value.rows[0], "plotId")
    ensures vis.Some? && "plotName" !in vis.value.columns && "plotId" !in vis.value.columns
      ==> title == Str("")
  {
    match vis
    case None => Str("")
    case Some(f) =>
      if "plotName" in f.columns then Cell(f.rows[0], "plotName")
      else if "plotId" in f.columns then Cell(f.rows[0], "plotId")
      else Str("")
  }

  /** The condition table's index (its conditionId labels) is modelled as
      the column "conditionId". */
  function ConditionIndex(row: Row): Value
  {
    Cell(row, "conditionId")
  }

  /** Keeps the condition rows used by the measurement rows of one line. */
  function ReduceConditionDf(lineData: Frame, conditionDf: Frame): (reduced: Frame)
    requires "simulationConditionId" in lineData.columns
    ensures reduced.columns == conditionDf.columns
    ensures forall row :: row in reduced.rows <==>
      row in conditionDf.rows && ConditionIndex(row) in Column(lineData, "simulationConditionId")
    ensures Subsequence(reduced.rows, conditionDf.rows)
    ensures forall row ::
              multiset(reduced.rows)[row] ==
              if ConditionIndex(row) in Column(lineData, "simulationConditionId") then multiset(conditionDf.rows)[row] else 0
  {
    var used := Distinct(Column(lineData, "simulationConditionId"));
    var isUsed := (row: Row) => ConditionIndex(row) in used;
    KeepSubsequence(conditionDf.rows, isUsed);
    KeepCount(conditionDf.rows, isUsed);
    Frame(conditionDf.columns, Keep(conditionDf.rows, isUsed))
  }

  // ---- replicates ----

  /** One table per id in `ids`, holding the rows with that replicateId. */
  function Groups(lineData: Frame, ids: seq<Value>): (groups: seq<Frame>)
    ensures |groups| == |ids|
    ensures forall i, row :: 0 <= i < |ids| && row in groups[i].rows ==>
      row in lineData.rows && Same(Cell(row, "replicateId"), ids[i])
  {
    if |ids| == 0 then []
    else Groups(lineData, ids[..|ids| - 1]) + [Where(lineData, "replicateId", ids[|ids| - 1])]
  }

  /** What split_replicates returns, stated as a function of its input. */
  function ReplicateGroups(lineData: Frame): seq<Frame>
  {
    if "replicateId" in lineData.columns
    then Groups(lineData, Unique(Column(lineData, "replicateId")))
    else [lineData]
  }

  method SplitReplicates(lineData: Frame) returns (replicates: seq<Frame>)
    ensures replicates == ReplicateGroups(lineData)
  {
    replicates := [];
    if "replicateId" in lineData.columns {
      var ids := Unique(Column(lineData, "replicateId"));
      for i := 0 to |ids|
        invariant replicates == Groups(lineData, ids[..i])
      {
        assert ids[..i + 1][..i] == ids[..i];
        replicates := replicates + [Where(lineData, "replicateId", ids[i])];
      }
      assert ids[..|ids|] == ids;
    } else {
      replicates := replicates + [lineData];
    }
  }

  /** With a replicateId column there is one group per distinct id, in
      ascending id order, and each group holds exactly the rows with its id. */
  lemma ReplicateGroupsById(lineData: Frame, i: nat)
    requires "replicateId" in lineData.columns
    requires i < |ReplicateGroups(lineData)|
    ensures var ids := Unique(Column(lineData, "replicateId"));
      |ReplicateGroups(lineData)| == |ids| &&
      forall row :: row in ReplicateGroups(lineData)[i].rows <==>
        row in lineData.rows && Same(Cell(row, "replicateId"), ids[i])
  {
    var ids := Unique(Column(lineData, "replicateId"));
    GroupsAt(lineData, ids, i);
  }

  lemma {:induction false} GroupsAt(lineData: Frame, ids: seq<Value>, i: nat)
    requires i < |ids|
    ensures Groups(lineData, ids)[i] == Where(lineData, "replicateId", ids[i])
  {
    if i < |ids| - 1 {
      GroupsAt(lineData, ids[..|ids| - 1], i);
    }
  }

  /** The rows of all groups, one group after the other (`pd.concat`). */
  function Flatten(groups: seq<Frame>): seq<Row>
  {
    if |groups| == 0 then [] else Flatten(groups[..|groups| - 1]) + groups[|groups| - 1].rows
  }

  /** The replicate groups partition the measurement rows, provided no
      replicateId is missing (a NaN id matches no group, so its row is dropped). */
  lemma SplitReplicatesPartition(lineData: Frame)
    requires forall i :: 0 <= i < |lineData.rows| ==> !Cell(lineData.rows[i], "replicateId").Null?
    ensures multiset(Flatten(ReplicateGroups(lineData))) == multiset(lineData.rows)
  {
    if "replicateId" in lineData.columns {
      var ids := Unique(Column(lineData, "replicateId"));
      assert ReplicateGroups(lineData) == Groups(lineData, ids);
      GroupsPartition(lineData, ids);
    } else {
      assert Flatten([lineData]) == Flatten([lineData][..0]) + lineData.rows;
    }
  }

  lemma GroupsPartition(lineData: Frame, ids: seq<Value>)
    requires "replicateId" in lineData.columns && ids == Unique(Column(lineData, "replicateId"))
    requires forall i :: 0 <= i < |lineData.rows| ==> !Cell(lineData.rows[i], "replicateId").Null?
    ensures multiset(Flatten(Groups(lineData, ids))) == multiset(lineData.rows)
  {
    StrictlySortedNoDuplicates(ids);
    GroupsMultiset(lineData, ids);
    EveryIdListed(lineData, ids);
    KeepAll(lineData.rows, IdMask(ids));
  }

  /** Every row with a replicateId has one of the distinct ids. */
  lemma EveryIdListed(lineData: Frame, ids: seq<Value>)
    requires "replicateId" in lineData.columns && ids == Unique(Column(lineData, "replicateId"))
    requires forall i :: 0 <= i < |lineData.rows| ==> !Cell(lineData.rows[i], "replicateId").Null?
    ensures forall k :: 0 <= k < |lineData.rows| ==> IdMask(ids)(lineData.rows[k])
  {
    var col := Column(lineData, "replicateId");
    forall k | 0 <= k < |lineData.rows| ensures IdMask(ids)(lineData.rows[k]) {
      assert col[k] == Cell(lineData.rows[k], "replicateId");
    }
  }

  /** Selects the rows whose replicateId is one of `ids` (and not missing). */
  function IdMask(ids: seq<Value>): Row -> bool
  {
    (row: Row) => Cell(row, "replicateId") in ids && !Cell(row, "replicateId").Null?
  }

  lemma {:induction false} GroupsMultiset(lineData: Frame, ids: seq<Value>)
    requires NoDuplicates(ids)
    ensures multiset(Flatten(Groups(lineData, ids))) == multiset(Keep(lineData.rows, IdMask(ids)))
  {
    var inIds := IdMask(ids);
    if |ids| == 0 {
      KeepNone(lineData.rows, inIds);
    } else {
      var n := |ids| - 1;
      var front := ids[..n];
      var inFront := IdMask(front);
      var isLast := Matches("replicateId", ids[n]);
      GroupsMultiset(lineData, front);
      assert Groups(lineData, ids)[..n] == Groups(lineData, front);
      IdMaskSplit(ids, front, ids[n]);
      KeepDisjointUnion(lineData.rows, inFront, isLast, inIds);
    }
  }

  /** The last id's rows and the other ids' rows are disjoint and together
      make up the rows of all ids. */
  lemma IdMaskSplit(ids: seq<Value>, front: seq<Value>, last: Value)
    requires NoDuplicates(ids) && |ids| > 0
    requires front == ids[..|ids| - 1] && last == ids[|ids| - 1]
    ensures forall row :: IdMask(ids)(row) == (IdMask(front)(row) || Matches("replicateId", last)(row))
    ensures forall row :: IdMask(front)(row) ==> !Matches("replicateId", last)(row)
  {
    assert ids == front + [last];
  }

  lemma {:induction false} KeepNone<T(!new)>(rows: seq<T>, p: T -> bool)
    requires forall x :: !p(x)
    ensures Keep(rows, p) == []
  {
    if |rows| > 0 {
      KeepNone(rows[1..], p);
    }
  }

  /** Selecting by two disjoint masks selects, together, the rows of their union. */
  lemma {:induction false} KeepDisjointUnion<T(!new)>(rows: seq<T>, p: T -> bool, q: T -> bool, pq: T -> bool)
    requires forall x :: pq(x) == (p(x) || q(x))
    requires forall x :: !(p(x) && q(x))
    ensures multiset(Keep(rows, p)) + multiset(Keep(rows, q)) == multiset(Keep(rows, pq))
  {
    if |rows| > 0 {
      KeepDisjointUnion(rows[1..], p, q, pq);
    }
  }

  // ---- the plot list ----

  const PlotNameCountWarning := "The number of plot ids should be the same as the number of plot names"

  /** The entries of the plot drop-down, in the order they are added, and
      the warning issued when plot ids and plot names do not match up. */
  method CboxItems(expData: Frame, vis: Option<Frame>) returns (items: seq<Value>, warning: Option<string>)
    requires vis.Some? ==> "plotId" in vis.value.columns
    requires vis.None? ==> "observableId" in expData.columns
    ensures vis.None? ==> items == Distinct(Column(expData, "observableId")) && warning.None?
    ensures vis.Some? && "plotName" in vis.value.columns ==>
      items == Distinct(Column(vis.value, "plotName")) &&
      (warning.Some? <==> |Unique(Column(vis.value, "plotId"))| != |items|)
    ensures vis.Some? && "plotName" !in vis.value.columns ==>
      items == Unique(Column(vis.value, "plotId")) && warning.None?
    ensures warning.Some? ==> warning.value == PlotNameCountWarning
  {
    var names: seq<Value>;
    warning := None;
    match vis {
      case Some(f) =>
        var plotIds := Unique(Column(f, "plotId"));
        if "plotName" in f.columns {
          names := Distinct(Column(f, "plotName"));
          if |plotIds| != |names| {
            warning := Some(PlotNameCountWarning);
          }
        } else {
          names := plotIds;
        }
      case None =>
        names := Distinct(Column(expData, "observableId"));
    }
    items := [];
    for i := 0 to |names|
      invariant items == names[..i]
    {
      items := items + [names[i]];
    }
    assert names[..|names|] == names;
  }

  /** The coefficient of determination of the correlation plot; `rValue` is
      the correlation coefficient the linear regression would report. */
  function RSquared(measurements: seq<real>, simulations: seq<real>, rValue: real): (r2: real)
    ensures |measurements| == 0 || |simulations| == 0 ==> r2 == 0.0
    ensures r2 >= 0.0
  {
    if |measurements| == 0 || |simulations| == 0 then 0.0 else rValue * rValue
  }
}
