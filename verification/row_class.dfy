/** What a visualization row selects from the data table (RowClass). */
module RowClass {
  import opened Tables
  import opened Utils

  /** The fields a RowClass computes once at construction. */
  datatype RowInfo = RowInfo(
    datasetId: Value,
    xVar: Value,
    yVar: Value,
    xOffset: real,
    xLabel: Value,
    yLabel: Value,
    xScale: Value,
    yOffset: real,
    yScale: Value,
    legendName: Value,
    plotTypeData: Value,
    isSimulation: bool,
    lineData: Frame,
    conditionDf: Option<Frame>)

  /** Whether a data row passes the dataset filter and the observable filter
      of a plot specification. */
  predicate Selected(spec: Row, columns: set<string>, row: Row)
  {
    (Truthy(DatasetId(spec)) && "datasetId" in columns ==> Same(Cell(row, "datasetId"), DatasetId(spec))) &&
    (Truthy(YVar(spec)) ==> Same(Cell(row, "observableId"), YVar(spec)))
  }

  function DatasetRows(expData: Frame, spec: Row): (f: Frame)
    ensures f.columns == expData.columns
    ensures Subsequence(f.rows, expData.rows)
    ensures forall r ::
              multiset(f.rows)[r] ==
              if Truthy(DatasetId(spec)) && "datasetId" in expData.columns ==> Same(Cell(r, "datasetId"), DatasetId(spec))
              then multiset(expData.rows)[r] else 0
  {
    var d := DatasetId(spec);
    if Truthy(d) && "datasetId" in expData.columns then
      KeepSubsequence(expData.rows, (r: Row) => Same(Cell(r, "datasetId"), d));
      KeepCount(expData.rows, (r: Row) => Same(Cell(r, "datasetId"), d));
      Where(expData, "datasetId", d)
    else
      assert Subsequence(expData.rows, expData.rows) by { SubsequenceReflexive(expData.rows); }
      expData
  }

  /** The data rows of one line: first filtered by dataset id (when one is
      given and the table has that column), then by observable id (when one is
      given). The result is exactly the data rows passing both filters, in
      their original order. */
  function LineData(expData: Frame, spec: Row): (lineData: Frame)
    requires Truthy(YVar(spec)) ==> "observableId" in expData.columns
    ensures lineData.columns == expData.columns
    ensures forall r :: r in lineData.rows <==> r in expData.rows && Selected(spec, expData.columns, r)
    ensures Subsequence(lineData.rows, expData.rows)
    ensures forall r ::
              multiset(lineData.rows)[r] == if Selected(spec, expData.columns, r) then multiset(expData.rows)[r] else 0
    ensures !(Truthy(DatasetId(spec)) && "datasetId" in expData.columns) && !Truthy(YVar(spec))
      ==> lineData == expData
  {
    var byDataset := DatasetRows(expData, spec);
    var y := YVar(spec);
    if Truthy(y) then
      KeepSubsequence(byDataset.rows, (r: Row) => Same(Cell(r, "observableId"), y));
      KeepCount(byDataset.rows, (r: Row) => Same(Cell(r, "observableId"), y));
      SubsequenceTransitive(Where(byDataset, "observableId", y).rows, byDataset.rows, expData.rows);
      Where(byDataset, "observableId", y)
    else
      byDataset
  }

  /** What the constructor needs to succeed: numeric offsets, an
      observableId column when filtering by observable, and a
      simulationConditionId column when the condition table is reduced. */
  predicate Constructible(expData: Frame, spec: Row, conditionDf: Option<Frame>)
  {
    NumericField(spec, "xOffset") && NumericField(spec, "yOffset") &&
    (Truthy(YVar(spec)) ==> "observableId" in expData.columns) &&
    (conditionDf.Some? && XVar(spec) != Str("time") ==> "simulationConditionId" in expData.columns)
  }

  function MakeRow(expData: Frame, spec: Row, conditionDf: Option<Frame>): (row: RowInfo)
    requires Constructible(expData, spec, conditionDf)
    ensures row.datasetId == DatasetId(spec) && row.xVar == XVar(spec) && row.yVar == YVar(spec)
    ensures row.xOffset == XOffset(spec) && row.yOffset == YOffset(spec)
    ensures row.xLabel == XLabel(spec) && row.yLabel == YLabel(spec)
    ensures row.xScale == XScale(spec) && row.yScale == YScale(spec)
    ensures row.legendName == LegendName(spec) && row.plotTypeData == PlotTypeData(spec)
    ensures row.isSimulation <==> "simulation" in expData.columns
    ensures row.lineData == LineData(expData, spec)
    ensures conditionDf.None? ==> row.conditionDf.None?
    ensures conditionDf.Some? && XVar(spec) == Str("time") ==> row.conditionDf == conditionDf
    ensures conditionDf.Some? && XVar(spec) != Str("time") ==>
      row.conditionDf.Some? &&
      row.conditionDf.value.columns == conditionDf.value.columns &&
      forall c :: c in row.conditionDf.value.rows <==>
        c in conditionDf.value.rows && ConditionIndex(c) in Column(row.lineData, "simulationConditionId")
    ensures conditionDf.Some? && XVar(spec) != Str("time") ==>
      row.conditionDf.Some? &&
      Subsequence(row.conditionDf.value.rows, conditionDf.value.rows) &&
      forall c :: multiset(row.conditionDf.value.rows)[c] ==
        if ConditionIndex(c) in Column(row.lineData, "simulationConditionId") then multiset(conditionDf.value.rows)[c] else 0
  {
    var lineData := LineData(expData, spec);
    var reduced :=
      if conditionDf.Some? && XVar(spec) != Str("time")
      then Some(ReduceConditionDf(lineData, conditionDf.value))
      else conditionDf;
    RowInfo(DatasetId(spec), XVar(spec), YVar(spec), XOffset(spec), XLabel(spec), YLabel(spec),
            XScale(spec), YOffset(spec), YScale(spec), LegendName(spec), PlotTypeData(spec),
            "simulation" in expData.columns, lineData, reduced)
  }

  /** A visualization row that names none of its optional fields plots the
      whole data table over time, with default labels and scales. */
  lemma EmptySpecDefaults(expData: Frame)
    ensures var row := MakeRow(expData, map[], None);
      row.lineData == expData && row.xVar == Str("time") && row.xLabel == Str("time") &&
      row.yLabel == Str("measurement") && row.xOffset == 0.0 && row.yOffset == 0.0 &&
      row.xScale == Str("lin") && row.yScale == Str("lin") && row.legendName == Str("") &&
      row.plotTypeData == Str("MeanAndSD")
  {
  }
}
