/** The table views of the PEtab tables: cell edits, the checkbox column of
    the visualization table and the highlighting of the rows that belong to
    the displayed plot. */
module TableModels {
  import opened Tables
  import opened Window

  /** Item flags a cell can carry. */
  datatype Flag = Editable | Enabled | Selectable | UserCheckable

  /** The roles a view asks data for. */
  datatype Role = DisplayRole | BackgroundRole | TextAlignmentRole | OtherRole

  datatype Color = Yellow | White

  /** What a table model answers: the cell's text, a background colour,
      right alignment, or nothing. */
  datatype DataResult = Display(value: Value) | Background(color: Color) | AlignRight | NoData

  /** The answer of a plain table model for a cell holding `v`. */
  function BaseData(v: Value, role: Role): (r: DataResult)
    ensures role == DisplayRole <==> r == Display(v)
    ensures role == BackgroundRole <==> r == Background(White)
    ensures role == TextAlignmentRole <==> r == AlignRight
    ensures role == OtherRole <==> r == NoData
  {
    match role
    case DisplayRole => Display(v)
    case BackgroundRole => Background(White)
    case TextAlignmentRole => AlignRight
    case OtherRole => NoData
  }

  /** The flags of a cell of the visualization table: the first column holds
      an editable checkbox, the others can only be selected. */
  function VisFlags(valid: bool, column: int): (flags: set<Flag>)
    ensures !valid ==> flags == {}
    ensures Editable in flags <==> valid && column == 0
    ensures UserCheckable in flags <==> Editable in flags
    ensures valid ==> Enabled in flags && Selectable in flags
  {
    if !valid then {}
    else if column == 0 then {Editable, Enabled, Selectable, UserCheckable}
    else {Selectable, Enabled}
  }

  /** A table with fixed rows and named columns whose cells can be edited. */
  class PetabTableModel {
    const columns: seq<string>
    const cells: array2<Value>

    /** Every column has a name. */
    predicate Valid()
    {
      cells.Length1 == |columns|
    }

    constructor(columns: seq<string>, cells: array2<Value>)
      requires cells.Length1 == |columns|
      ensures this.columns == columns && this.cells == cells
      ensures Valid()
    {
      this.columns := columns;
      this.cells := cells;
    }

    /** Writes one cell and reports success. */
    method SetData(row: nat, column: nat, value: Value) returns (ok: bool)
      requires row < cells.Length0 && column < cells.Length1
      modifies cells
      ensures ok
      ensures cells[row, column] == value
      ensures forall i, j :: 0 <= i < cells.Length0 && 0 <= j < cells.Length1 && (i != row || j != column) ==>
        cells[i, j] == old(cells[i, j])
    {
      cells[row, column] := value;
      ok := true;
    }

    /** The value in row `row` of the column named `name`. */
    function GetValue(row: nat, name: string): (v: Value)
      requires Valid() && row < cells.Length0 && name in columns
      reads cells
      ensures exists j :: 0 <= j < |columns| && columns[j] == name && v == cells[row, j]
    {
      cells[row, FirstIndex(columns, name)]
    }
  }

  /** A visualization row is highlighted when it belongs to the plot shown. */
  function VisData(table: PetabTableModel, row: nat, column: nat, role: Role, currentPlotId: Value): (r: DataResult)
    requires table.Valid() && row < table.cells.Length0 && column < table.cells.Length1
    requires "plotId" in table.columns
    reads table.cells
    ensures role == BackgroundRole ==>
      (r == Background(Yellow) <==> Same(table.GetValue(row, "plotId"), currentPlotId)) &&
      (r == Background(White) <==> !Same(table.GetValue(row, "plotId"), currentPlotId))
    ensures role != BackgroundRole ==> r == BaseData(table.cells[row, column], role)
  {
    if role == BackgroundRole then
      if Same(table.GetValue(row, "plotId"), currentPlotId) then Background(Yellow) else Background(White)
    else
      BaseData(table.cells[row, column], role)
  }

  /** Column `col` of the visualization rows of plot `plotId`, in table order. */
  function PlotColumn(vis: Frame, plotId: Value, col: string): (values: seq<Value>)
    ensures forall v :: v in values <==>
      exists r :: r in vis.rows && Same(Cell(r, "plotId"), plotId) && Cell(r, col) == v
  {
    var rows := Where(vis, "plotId", plotId).rows;
    var values := seq(|rows|, k requires 0 <= k < |rows| => Cell(rows[k], col));
    assert forall v :: v in values <==> exists r :: r in rows && Cell(r, col) == v by {
      forall v | v in values ensures exists r :: r in rows && Cell(r, col) == v {
        var k :| 0 <= k < |values| && values[k] == v;
        assert rows[k] in rows;
      }
      forall v | (exists r :: r in rows && Cell(r, col) == v) ensures v in values {
        var r :| r in rows && Cell(r, col) == v;
        var k :| 0 <= k < |rows| && rows[k] == r;
        assert values[k] == v;
      }
    }
    values
  }

  /** The distinct values of column `col` in the visualization rows of plot
      `plotId`, in order of first appearance; empty when the table has no
      such column. */
  function CachedIds(vis: Frame, plotId: Value, col: string): (ids: seq<Value>)
    ensures NoDuplicates(ids)
    ensures col !in vis.columns ==> ids == []
    ensures col in vis.columns ==> forall v :: v in ids <==>
      exists r :: r in vis.rows && Same(Cell(r, "plotId"), plotId) && Cell(r, col) == v
    ensures col in vis.columns ==> forall i :: 0 <= i < |ids| ==> ids[i] in PlotColumn(vis, plotId, col)
    ensures col in vis.columns ==> forall i, j :: 0 <= i < j < |ids| ==>
      FirstIndex(PlotColumn(vis, plotId, col), ids[i]) < FirstIndex(PlotColumn(vis, plotId, col), ids[j])
  {
    if col in vis.columns then Distinct(PlotColumn(vis, plotId, col)) else []
  }

  /** A measurement row is highlighted when its dataset id is one of the
      plot's and is not disabled, and its observable id is one of the plot's;
      an empty id list, or a table without a datasetId column, skips that
      test. */
  predicate Highlighted(table: PetabTableModel, row: nat, datasetIds: seq<Value>, observableIds: seq<Value>,
                        disabled: set<Value>)
    requires table.Valid() && row < table.cells.Length0 && "observableId" in table.columns
    reads table.cells
  {
    (|datasetIds| == 0 || "datasetId" !in table.columns ||
     (table.GetValue(row, "datasetId") in datasetIds && table.GetValue(row, "datasetId") !in disabled)) &&
    (|observableIds| == 0 || table.GetValue(row, "observableId") in observableIds)
  }

  /** The background of a measurement row worked out from scratch: for a
      default plot (no visualization table) the rows of the observable shown,
      otherwise the rows the visualization table assigns to the plot. */
  function MeasurementBackground(table: PetabTableModel, row: nat, visualizationDf: Option<Frame>, plotId: Value,
                                 disabled: set<Value>): Color
    requires table.Valid() && row < table.cells.Length0 && "observableId" in table.columns
    reads table.cells
  {
    match visualizationDf
    case None => if Same(table.GetValue(row, "observableId"), plotId) then Yellow else White
    case Some(vis) =>
      if Highlighted(table, row, CachedIds(vis, plotId, "datasetId"), CachedIds(vis, plotId, "yValues"), disabled)
      then Yellow else White
  }

  /** The measurement table model, which caches the id lists of the plot it
      last highlighted. */
  class MeasurementTableModel {
    const table: PetabTableModel
    var currentPlotId: Value
    var currentDatasetIds: seq<Value>
    var currentObservableIds: seq<Value>

    /** The cache is either in its initial state or holds the id lists of
        the cached plot. */
    ghost predicate CacheValid(vis: Frame)
      reads this
    {
      (currentPlotId == Str("") && currentDatasetIds == [] && currentObservableIds == []) ||
      (currentDatasetIds == CachedIds(vis, currentPlotId, "datasetId") &&
       currentObservableIds == CachedIds(vis, currentPlotId, "yValues"))
    }

    constructor(table: PetabTableModel)
      ensures this.table == table
      ensures currentPlotId == Str("") && currentDatasetIds == [] && currentObservableIds == []
      ensures forall vis :: CacheValid(vis)
    {
      this.table := table;
      currentPlotId := Str("");
      currentDatasetIds := [];
      currentObservableIds := [];
    }

    /** Recomputes the cached id lists when plot `plotId` is not the
        cached one; a list whose column `vis` lacks keeps its old value.
        The cache may have been filled from an earlier visualization table:
        it then stays stale for as long as the same plot id is shown. When
        it was valid for `vis`, the lists afterwards belong to `plotId`,
        unless that is the initial id "" and the cache was never filled. */
    method Refresh(vis: Frame, plotId: Value)
      requires !Same(plotId, currentPlotId) ==> "plotId" in vis.columns
      modifies this`currentPlotId, this`currentDatasetIds, this`currentObservableIds
      ensures Same(plotId, old(currentPlotId)) ==>
        currentPlotId == old(currentPlotId) && currentDatasetIds == old(currentDatasetIds) &&
        currentObservableIds == old(currentObservableIds)
      ensures !Same(plotId, old(currentPlotId)) ==>
        currentPlotId == plotId &&
        currentDatasetIds == (if "datasetId" in vis.columns then CachedIds(vis, plotId, "datasetId")
                              else old(currentDatasetIds)) &&
        currentObservableIds == (if "yValues" in vis.columns then CachedIds(vis, plotId, "yValues")
                                 else old(currentObservableIds))
      ensures old(CacheValid(vis)) ==> CacheValid(vis)
      ensures plotId != Str("") && old(CacheValid(vis)) ==>
        currentDatasetIds == CachedIds(vis, plotId, "datasetId") &&
        currentObservableIds == CachedIds(vis, plotId, "yValues")
    {
      if !Same(plotId, currentPlotId) {
        if "datasetId" in vis.columns {
          currentDatasetIds := CachedIds(vis, plotId, "datasetId");
        }
        if "yValues" in vis.columns {
          currentObservableIds := CachedIds(vis, plotId, "yValues");
        }
        currentPlotId := plotId;
      }
    }

    /** The answer for cell (`row`, `column`) while plot `plotId` is shown
        with the datasets `disabled` switched off. The cached id lists are
        recomputed only when the plot changed. The answer equals the colour
        worked out from scratch when the cache was valid for the table
        shown, or when it was just recomputed from a table holding both id
        columns; a cache left from an earlier table may give another colour. */
    method Data(row: nat, column: nat, role: Role, visualizationDf: Option<Frame>, plotId: Value,
                disabled: set<Value>) returns (r: DataResult)
      requires table.Valid() && row < table.cells.Length0 && column < table.cells.Length1
      requires role == BackgroundRole ==> "observableId" in table.columns
      requires role == BackgroundRole && visualizationDf.Some? && !Same(plotId, currentPlotId) ==>
        "plotId" in visualizationDf.value.columns
      modifies this`currentPlotId, this`currentDatasetIds, this`currentObservableIds
      ensures visualizationDf.Some? && old(CacheValid(visualizationDf.value)) ==> CacheValid(visualizationDf.value)
      ensures role != BackgroundRole ==> r == BaseData(table.cells[row, column], role)
      ensures role != BackgroundRole || visualizationDf.None? || Same(plotId, old(currentPlotId)) ==>
        currentPlotId == old(currentPlotId) && currentDatasetIds == old(currentDatasetIds) &&
        currentObservableIds == old(currentObservableIds)
      ensures role == BackgroundRole && visualizationDf.Some? && !Same(plotId, old(currentPlotId)) ==>
        currentPlotId == plotId
      ensures role == BackgroundRole && visualizationDf.Some? ==>
        r == Background(if Highlighted(table, row, currentDatasetIds, currentObservableIds, disabled) then Yellow else White)
      ensures role == BackgroundRole &&
              (visualizationDf.None? || (plotId != Str("") && old(CacheValid(visualizationDf.value)))) ==>
        r == Background(MeasurementBackground(table, row, visualizationDf, plotId, disabled))
      ensures role == BackgroundRole && visualizationDf.Some? && !Same(plotId, old(currentPlotId)) &&
              "datasetId" in visualizationDf.value.columns && "yValues" in visualizationDf.value.columns ==>
        r == Background(MeasurementBackground(table, row, visualizationDf, plotId, disabled))
    {
      if role != BackgroundRole {
        return BaseData(table.cells[row, column], role);
      }
      if visualizationDf.None? {
        if Same(table.GetValue(row, "observableId"), plotId) {
          return Background(Yellow);
        }
        return BaseData(table.cells[row, column], role);
      }
      Refresh(visualizationDf.value, plotId);
      var correctDatasetId := true;
      var correctObservableId := true;
      if |currentDatasetIds| > 0 && "datasetId" in table.columns {
        var d := table.GetValue(row, "datasetId");
        correctDatasetId := d in currentDatasetIds && d !in disabled;
      }
      if |currentObservableIds| > 0 {
        correctObservableId := table.GetValue(row, "observableId") in currentObservableIds;
      }
      if correctDatasetId && correctObservableId {
        return Background(Yellow);
      }
      return BaseData(table.cells[row, column], role);
    }
  }

  /** A checkbox cell: a whole number. */
  predicate CheckValue(v: Value)
  {
    v.Num? && v.r == v.r.Floor as real
  }

  /** The checkbox after a click: 0 becomes 1, anything else 0. */
  function ToggledCheck(v: Value): (w: Value)
    requires CheckValue(v)
    ensures CheckValue(w)
    ensures w == Num(1.0) <==> v.r == 0.0
    ensures w == Num(0.0) <==> v.r != 0.0
  {
    if v.r.Floor == 0 then Num(1.0) else Num(0.0)
  }

  /** Two clicks on a checkbox holding 0 or 1 restore it. */
  lemma ToggledCheckTwice(v: Value)
    requires v == Num(0.0) || v == Num(1.0)
    ensures ToggledCheck(ToggledCheck(v)) == v
  {
  }

  /** Flips the checkbox in cell (`row`, `column`). */
  method SetModelData(table: PetabTableModel, row: nat, column: nat)
    requires row < table.cells.Length0 && column < table.cells.Length1
    requires CheckValue(table.cells[row, column])
    modifies table.cells
    ensures table.cells[row, column] == ToggledCheck(old(table.cells[row, column]))
    ensures forall i, j :: 0 <= i < table.cells.Length0 && 0 <= j < table.cells.Length1 && (i != row || j != column) ==>
      table.cells[i, j] == old(table.cells[i, j])
  {
    var checked := table.cells[row, column];
    var ok := table.SetData(row, column, if checked.r.Floor == 0 then Num(1.0) else Num(0.0));
  }

  /** The plot a checkbox click acts on: the first plot with the clicked
      row's plot id or, when there is none, the last plot; no plot at all
      when the list is empty. */
  method FindPlot(plotIds: seq<Value>, plotId: Value) returns (k: Option<nat>)
    ensures k.None? <==> |plotIds| == 0
    ensures k.Some? ==> k.value < |plotIds|
    ensures k.Some? && (exists j :: 0 <= j < |plotIds| && Same(plotIds[j], plotId)) ==>
      Same(plotIds[k.value], plotId) && forall j :: 0 <= j < k.value ==> !Same(plotIds[j], plotId)
    ensures k.Some? && (forall j :: 0 <= j < |plotIds| ==> !Same(plotIds[j], plotId)) ==>
      k.value == |plotIds| - 1
  {
    if |plotIds| == 0 {
      return None;
    }
    var i := 0;
    while i < |plotIds| - 1 && !Same(plotIds[i], plotId)
      invariant 0 <= i <= |plotIds| - 1
      invariant forall j :: 0 <= j < i ==> !Same(plotIds[j], plotId)
    {
      i := i + 1;
    }
    return Some(i);
  }

  /** How a click on the visualization table ends: ignored, failed with an
      exception, or toggling dataset `datasetId` in plot `plotIndex`. */
  datatype EditorOutcome = Ignored | Failed | ToggleLine(plotIndex: nat, datasetId: Value)

  const NoDatasetIdWarning: string := "Lines without datasetId can not be removed"

  /** A mouse event on the visualization table. Only a left-button release
      on an editable cell acts. Without a datasetId column the warning is
      shown and reading the dataset id then fails. Otherwise the checkbox
      flips and the chosen plot is told to toggle the row's dataset. */
  method EditorEvent(table: PetabTableModel, window: MainWindow, row: nat, column: nat, leftRelease: bool,
                     plotIds: seq<Value>) returns (outcome: EditorOutcome)
    requires table.Valid() && row < table.cells.Length0 && column < table.cells.Length1
    requires "plotId" in table.columns
    requires column == 0 ==> CheckValue(table.cells[row, column])
    requires window.Valid()
    modifies table.cells, window`warnings, window`warningCounter
    ensures window.Valid()
    ensures Editable !in VisFlags(true, column) || !leftRelease ==>
      outcome == Ignored && unchanged(table.cells) &&
      window.warnings == old(window.warnings) && window.warningCounter == old(window.warningCounter)
    ensures Editable in VisFlags(true, column) && leftRelease && "datasetId" !in table.columns ==>
      outcome == Failed && unchanged(table.cells) &&
      Registry(window.warnings, window.warningCounter) ==
        Register(old(Registry(window.warnings, window.warningCounter)), NoDatasetIdWarning)
    ensures Editable in VisFlags(true, column) && leftRelease && "datasetId" in table.columns ==>
      window.warnings == old(window.warnings) && window.warningCounter == old(window.warningCounter) &&
      (|plotIds| == 0 <==> outcome == Failed) &&
      (|plotIds| > 0 ==>
        outcome.ToggleLine? && outcome.plotIndex < |plotIds| &&
        outcome.datasetId == old(table.GetValue(row, "datasetId")) &&
        table.cells[row, column] == ToggledCheck(old(table.cells[row, column])))
    ensures Editable in VisFlags(true, column) && leftRelease && "datasetId" in table.columns && |plotIds| == 0 ==>
      unchanged(table.cells)
    ensures Editable in VisFlags(true, column) && leftRelease && "datasetId" in table.columns && |plotIds| > 0 ==>
      var clicked := old(table.GetValue(row, "plotId"));
      outcome.ToggleLine? && outcome.plotIndex < |plotIds| &&
      ((exists j :: 0 <= j < |plotIds| && Same(plotIds[j], clicked)) ==>
        Same(plotIds[outcome.plotIndex], clicked) &&
        forall j :: 0 <= j < outcome.plotIndex ==> !Same(plotIds[j], clicked)) &&
      ((forall j :: 0 <= j < |plotIds| ==> !Same(plotIds[j], clicked)) ==> outcome.plotIndex == |plotIds| - 1)
    ensures Editable in VisFlags(true, column) && leftRelease && "datasetId" in table.columns ==>
      forall i, j :: 0 <= i < table.cells.Length0 && 0 <= j < table.cells.Length1 && (i != row || j != column) ==>
        table.cells[i, j] == old(table.cells[i, j])
  {
    if Editable !in VisFlags(true, column) || !leftRelease {
      return Ignored;
    }
    if "datasetId" !in table.columns {
      window.AddWarning(NoDatasetIdWarning);
      return Failed;
    }
    var plotId := table.GetValue(row, "plotId");
    var datasetId := table.GetValue(row, "datasetId");
    var k := FindPlot(plotIds, plotId);
    if k.None? {
      return Failed;
    }
    SetModelData(table, row, column);
    return ToggleLine(k.value, datasetId);
  }
}
