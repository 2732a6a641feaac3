/** The line plot of one plot id (VisSpecPlot): its plot rows, the overview
    of enabled data, its dotted lines and the enable/disable bookkeeping. */
module VisSpecPlots {
  import opened Tables
  import opened Text
  import opened Utils
  import opened RowClass
  import opened PlotRows
  import opened DottedLines
  import opened PlotBase

  /** The columns of the overview table when it holds no data. */
  const OverviewColumns: seq<string> :=
    ["x", "y", "name", "is_simulation", "dataset_id", "x_label", "observable_id", "simulation_condition_id"]

  const GroupingWarning: string :=
    "Grouped by observable. If you want to specify another grouping option, please add \"datasetID\" columns."

  /** The overview table: the fixed empty table, or the data of the listed
      plot rows concatenated in order. */
  datatype Overview = EmptyOverview(columns: seq<string>) | Concatenated(parts: seq<PlotRow>)

  /** The plot rows whose dataset id is not disabled, in their order. */
  function EnabledRows(all: seq<PlotRow>, disabled: set<Value>): (parts: seq<PlotRow>)
    ensures Subsequence(parts, all)
    ensures forall p :: p in parts <==> p in all && p.info.datasetId !in disabled
    ensures forall p :: multiset(parts)[p] == if p.info.datasetId !in disabled then multiset(all)[p] else 0
  {
    var enabled := (p: PlotRow) => p.info.datasetId !in disabled;
    KeepSubsequence(all, enabled);
    KeepCount(all, enabled);
    Keep(all, enabled)
  }

  /** The overview of the enabled plot rows, measurement rows first. */
  function OverviewOf(vis: Option<Frame>, rows: seq<PlotRow>, simRows: seq<PlotRow>, disabled: set<Value>): (o: Overview)
    ensures o.EmptyOverview? ==> o.columns == OverviewColumns
    ensures o.EmptyOverview? <==>
      vis.None? || "datasetId" !in vis.value.columns ||
      forall p :: p in rows + simRows ==> p.info.datasetId in disabled
    ensures o.Concatenated? ==> o.parts == EnabledRows(rows + simRows, disabled)
  {
    if vis.Some? && "datasetId" in vis.value.columns then
      var parts := EnabledRows(rows + simRows, disabled);
      if |parts| > 0 then
        assert parts[0] in parts;
        Concatenated(parts)
      else
        EmptyOverview(OverviewColumns)
    else
      EmptyOverview(OverviewColumns)
  }

  /** Each row of the visualization table can be turned into a plot row of `df`. */
  predicate RowsConstructible(vis: Option<Frame>, df: Option<Frame>, conditionDf: Option<Frame>)
  {
    vis.Some? && df.Some? ==>
      forall i :: 0 <= i < |vis.value.rows| ==> Constructible(df.value, vis.value.rows[i], conditionDf)
  }

  /** The default plot groups by datasetId when the data has that column,
      and by simulation condition otherwise. */
  function Grouping(measurement: Frame): string
  {
    if "datasetId" in measurement.columns then "datasetId" else "simulationConditionId"
  }

  /** What the default plot needs of the table it draws: the time column
      (the beam width reads it even when the table is empty), the grouping
      column, the y column once there is a group to draw, and text to append
      to where line names are extended. An empty table is accepted: it has
      no groups and gives no lines. */
  predicate DefaultPlottable(df: Frame, grouping: string, withObservable: bool, isSimulation: bool)
  {
    "time" in df.columns &&
    grouping in df.columns &&
    (|df.rows| > 0 ==> YVariable(isSimulation) in df.columns) &&
    ((withObservable || isSimulation) ==> forall v :: v in Column(df, grouping) ==> v.Str?) &&
    (withObservable && |df.rows| > 0 ==> Cell(df.rows[0], "observableId").Str?)
  }

  /** The observable id of the first row, which names the default lines
      drawn without a plot row; Null for an empty table. */
  function FirstObservable(df: Frame): Value
  {
    if |df.rows| > 0 then Cell(df.rows[0], "observableId") else Null
  }

  /** The legend entry of a default line: the group id, followed by the
      first observable id when no plot row is given, and by " simulation"
      for simulated data. */
  function DefaultLineName(group: Value, observable: Value, withObservable: bool, isSimulation: bool): (name: Value)
    requires (withObservable || isSimulation) ==> group.Str?
    requires withObservable ==> observable.Str?
    ensures !withObservable && !isSimulation ==> name == group
    ensures withObservable && !isSimulation ==> name == Str(group.s + "_" + observable.s)
    ensures !withObservable && isSimulation ==> name == Str(group.s + " simulation")
    ensures withObservable && isSimulation ==> name == Str(group.s + "_" + observable.s + " simulation")
  {
    var name := if withObservable then Str(group.s + "_" + observable.s) else group;
    if isSimulation then Str(name.s + " simulation") else name
  }

  /** A line made by the default plot for group `group`. */
  ghost predicate DefaultLine(line: DottedLine, group: Value, name: Value, isSimulation: bool)
    requires isSimulation ==> group.Str?
    reads line
  {
    line.datasetId == Suffixed(group, isSimulation) && line.isSimulation == isSimulation &&
    line.lines == [Item(line, Curve(Some(name), SymbolFor(isSimulation)), 0)] &&
    line.errorBars == [Item(line, ErrorBar(Sd), 0)] &&
    line.fillBetweenItems == [] && line.pRow.None?
  }

  /** A plot row whose line is created and registered: it has a dataset id
      and that id is not disabled. */
  predicate Registers(p: PlotRow, disabled: set<Value>)
  {
    p.info.datasetId != Str("") && p.info.datasetId !in disabled
  }

  /** What every registering row of `rows` needs for its registration:
      exactly one line, and a text id when simulated. */
  predicate Registrable(rows: seq<PlotRow>, segments: seq<seq<DottedLine>>, disabled: set<Value>)
  {
    |segments| == |rows| &&
    forall i :: 0 <= i < |rows| && Registers(rows[i], disabled) ==>
      |segments[i]| == 1 && LineCreatable(rows[i])
  }

  /** The registry after the rows' lines `segments` are generated in order:
      each registering row stores its line under its (suffixed) dataset id,
      a later row replacing an earlier one with the same key. */
  function Registrations(m: map<Value, DottedLine>, rows: seq<PlotRow>, segments: seq<seq<DottedLine>>,
                         disabled: set<Value>): map<Value, DottedLine>
    requires Registrable(rows, segments, disabled)
  {
    if |rows| == 0 then m
    else
      var n := |rows| - 1;
      var before := Registrations(m, rows[..n], segments[..n], disabled);
      if Registers(rows[n], disabled) then before[Suffixed(rows[n].info.datasetId, rows[n].info.isSimulation) := segments[n][0]]
      else before
  }

  /** Generating one more row registers on top of the registry so far. */
  lemma RegistrationsAppend(m: map<Value, DottedLine>, rows: seq<PlotRow>, segments: seq<seq<DottedLine>>,
                            p: PlotRow, seg: seq<DottedLine>, disabled: set<Value>)
    requires Registrable(rows, segments, disabled) && Registrable([p], [seg], disabled)
    ensures Registrable(rows + [p], segments + [seg], disabled)
    ensures Registrations(m, rows + [p], segments + [seg], disabled) ==
      Registrations(Registrations(m, rows, segments, disabled), [p], [seg], disabled)
  {
    var all := rows + [p];
    assert all[..|rows|] == rows && (segments + [seg])[..|rows|] == segments;
    assert [p][..0] == [] && [seg][..0] == [];
    forall i | 0 <= i < |all| && Registers(all[i], disabled)
      ensures |(segments + [seg])[i]| == 1 && LineCreatable(all[i])
    {
      if i == |rows| {
        assert [p][0] == p;
      }
    }
  }

  /** Lines carrying `keys` followed by lines carrying `more` carry `keys + more`. */
  lemma KeysAppend(lines: seq<DottedLine>, added: seq<DottedLine>, keys: seq<Value>, more: seq<Value>)
    requires |lines| == |keys| && forall k :: 0 <= k < |lines| ==> lines[k].datasetId == keys[k]
    requires |added| == |more| && forall k :: 0 <= k < |added| ==> added[k].datasetId == more[k]
    ensures forall k :: 0 <= k < |lines + added| ==> (lines + added)[k].datasetId == (keys + more)[k]
  {
  }

  /** The registry holds exactly the earlier keys and the keys of the
      registering rows. */
  lemma {:induction false} RegistrationsKeys(m: map<Value, DottedLine>, rows: seq<PlotRow>,
                                             segments: seq<seq<DottedLine>>, disabled: set<Value>)
    requires Registrable(rows, segments, disabled)
    ensures forall key :: key in Registrations(m, rows, segments, disabled) <==>
      key in m ||
      exists i :: 0 <= i < |rows| && Registers(rows[i], disabled) &&
        key == Suffixed(rows[i].info.datasetId, rows[i].info.isSimulation)
  {
    if |rows| > 0 {
      var n := |rows| - 1;
      RegistrationsKeys(m, rows[..n], segments[..n], disabled);
      forall key | key in Registrations(m, rows, segments, disabled) && key !in m
        ensures exists i ::
                  0 <= i < |rows| && Registers(rows[i], disabled) &&
                  key == Suffixed(rows[i].info.datasetId, rows[i].info.isSimulation)
      {
        if key !in Registrations(m, rows[..n], segments[..n], disabled) {
          assert Registers(rows[n], disabled);
        } else {
          var i :| 0 <= i < n && Registers(rows[..n][i], disabled) &&
            key == Suffixed(rows[..n][i].info.datasetId, rows[..n][i].info.isSimulation);
          assert rows[..n][i] == rows[i];
        }
      }
      forall i | 0 <= i < n && Registers(rows[i], disabled)
        ensures Suffixed(rows[i].info.datasetId, rows[i].info.isSimulation) in Registrations(m, rows[..n], segments[..n], disabled)
      {
        assert rows[..n][i] == rows[i];
      }
    }
  }

  /** A key no row registers keeps its earlier line; a registered key holds
      the line of the last row that registers it. */
  lemma {:induction false} RegistrationsValues(m: map<Value, DottedLine>, rows: seq<PlotRow>,
                                               segments: seq<seq<DottedLine>>, disabled: set<Value>, key: Value)
    requires Registrable(rows, segments, disabled)
    requires key in Registrations(m, rows, segments, disabled)
    ensures (forall i :: 0 <= i < |rows| && Registers(rows[i], disabled) ==>
               key != Suffixed(rows[i].info.datasetId, rows[i].info.isSimulation)) ==>
      key in m && Registrations(m, rows, segments, disabled)[key] == m[key]
    ensures (exists i :: 0 <= i < |rows| && Registers(rows[i], disabled) &&
               key == Suffixed(rows[i].info.datasetId, rows[i].info.isSimulation)) ==>
      exists i :: 0 <= i < |rows| && Registers(rows[i], disabled) &&
        key == Suffixed(rows[i].info.datasetId, rows[i].info.isSimulation) &&
        Registrations(m, rows, segments, disabled)[key] == segments[i][0] &&
        forall j :: i < j < |rows| && Registers(rows[j], disabled) ==>
          key != Suffixed(rows[j].info.datasetId, rows[j].info.isSimulation)
  {
    if |rows| > 0 {
      var n := |rows| - 1;
      var last := Registers(rows[n], disabled) && key == Suffixed(rows[n].info.datasetId, rows[n].info.isSimulation);
      if !last {
        RegistrationsValues(m, rows[..n], segments[..n], disabled, key);
        forall i | 0 <= i < n ensures rows[..n][i] == rows[i] && segments[..n][i] == segments[i] { }
      }
    }
  }

  /** The table the default plot draws: the simulation table for simulated
      data, the measurement table otherwise. */
  function TableOf(measurementDf: Option<Frame>, simulationDf: Option<Frame>, isSimulation: bool): Frame
    requires measurementDf.Some? && (isSimulation ==> simulationDf.Some?)
  {
    if isSimulation then simulationDf.value else measurementDf.value
  }

  /** What the default plot needs: the measurement table (it decides the
      grouping), the table it draws, and that table's grouping column. */
  predicate DefaultReady(measurementDf: Option<Frame>, simulationDf: Option<Frame>, withObservable: bool,
                         isSimulation: bool)
  {
    measurementDf.Some? && (isSimulation ==> simulationDf.Some?) &&
    DefaultPlottable(TableOf(measurementDf, simulationDf, isSimulation), Grouping(measurementDf.value),
                     withObservable, isSimulation)
  }

  /** What generating the lines of plot row `p` needs: the default plot for
      a row without dataset id, a creatable line for an enabled row. */
  predicate RowReady(measurementDf: Option<Frame>, simulationDf: Option<Frame>, disabled: set<Value>, p: PlotRow,
                     isSimulation: bool)
  {
    (p.info.datasetId == Str("") ==> DefaultReady(measurementDf, simulationDf, false, isSimulation)) &&
    (p.info.datasetId != Str("") && p.info.datasetId !in disabled ==> LineCreatable(p))
  }

  /** The plot rows built from `df`: one per visualization row, and none
      unless both tables are given. */
  function PlotRowsOf(vis: Option<Frame>, df: Option<Frame>, conditionDf: Option<Frame>, hasReplicates: bool)
    : seq<PlotRow>
    requires RowsConstructible(vis, df, conditionDf)
  {
    if vis.Some? && df.Some? then
      seq(|vis.value.rows|, i requires 0 <= i < |vis.value.rows| =>
        MakePlotRow(df.value, vis.value.rows[i], conditionDf, hasReplicates))
    else []
  }

  /** The scales of the first plot row can be read as text. */
  predicate ScalesReadableIn(rows: seq<PlotRow>)
  {
    |rows| > 0 ==>
      rows[0].info.xScale.Str? &&
      (!Contains(rows[0].info.xScale.s, "log") ==> rows[0].info.yScale.Str?)
  }

  /** Error bars are drawn unless the first plot row has a log scale and
      does not plot replicates. */
  function ErrorBarsAllowedIn(rows: seq<PlotRow>): bool
    requires ScalesReadableIn(rows)
  {
    !(|rows| > 0 &&
      (Contains(rows[0].info.xScale.s, "log") || Contains(rows[0].info.yScale.s, "log")) &&
      rows[0].info.plotTypeData != Str("replicate"))
  }

  /** The warning about error bars on a log scale. */
  function ErrorBarsWarning(plotTitle: string): string
  {
    "Errorbars are not supported with log scales (in " + plotTitle + ")"
  }

  /** One plot row per visualization row, in order, when both the
      visualization table and `df` are given; none otherwise. */
  method GeneratePlotRows(vis: Option<Frame>, df: Option<Frame>, conditionDf: Option<Frame>, hasReplicates: bool)
    returns (rows: seq<PlotRow>)
    requires RowsConstructible(vis, df, conditionDf)
    ensures rows == PlotRowsOf(vis, df, conditionDf, hasReplicates)
    ensures vis.None? || df.None? ==> rows == []
    ensures vis.Some? && df.Some? ==>
      |rows| == |vis.value.rows| &&
      forall i :: 0 <= i < |rows| ==> rows[i] == MakePlotRow(df.value, vis.value.rows[i], conditionDf, hasReplicates)
  {
    rows := [];
    if vis.Some? {
      var specs := vis.value.rows;
      ghost var all := PlotRowsOf(vis, df, conditionDf, hasReplicates);
      for i := 0 to |specs|
        invariant df.None? ==> rows == []
        invariant df.Some? ==> |rows| == i && forall j :: 0 <= j < i ==> rows[j] == all[j]
      {
        if df.Some? {
          var p := MakePlotRow(df.value, specs[i], conditionDf, hasReplicates);
          assert p == all[i];
          rows := rows + [p];
        }
      }
    }
  }

  /** A new line of the default plot: one curve named `lineName` and one
      standard-deviation error bar. */
  method NewDefaultLine(group: Value, lineName: Value, symbol: string, isSimulation: bool) returns (line: DottedLine)
    requires isSimulation ==> group.Str?
    requires symbol == SymbolFor(isSimulation)
    ensures fresh(line) && DefaultLine(line, group, lineName, isSimulation)
  {
    line := new DottedLine();
    line.Initialize([Item(line, Curve(Some(lineName), symbol), 0)], [Item(line, ErrorBar(Sd), 0)], group, isSimulation);
  }

  /** The default plot's lines for table `df`: one per distinct value of
      column `grouping`, in ascending order, named after the group (and the
      first observable id when `withObservable`). */
  method GroupLines(df: Frame, grouping: string, withObservable: bool, isSimulation: bool)
    returns (lines: seq<DottedLine>)
    requires DefaultPlottable(df, grouping, withObservable, isSimulation)
    ensures |lines| == |Unique(Column(df, grouping))|
    ensures forall k :: 0 <= k < |lines| ==> fresh(lines[k])
    ensures forall k :: 0 <= k < |lines| ==>
      var group := Unique(Column(df, grouping))[k];
      DefaultLine(lines[k], group, DefaultLineName(group, FirstObservable(df), withObservable, isSimulation),
                  isSimulation)
    ensures |df.rows| == 0 ==> lines == []
  {
    var symbol := "o";
    if isSimulation {
      symbol := "t";
    }
    var groups := Unique(Column(df, grouping));
    var observable := FirstObservable(df);
    assert |groups| > 0 ==> |df.rows| > 0 by {
      if |groups| > 0 {
        assert groups[0] in Column(df, grouping);
      }
    }
    lines := [];
    for k := 0 to |groups|
      invariant |lines| == k
      invariant forall j :: 0 <= j < k ==> fresh(lines[j])
      invariant forall j :: 0 <= j < k ==>
        DefaultLine(lines[j], groups[j], DefaultLineName(groups[j], FirstObservable(df), withObservable, isSimulation),
                    isSimulation)
    {
      var group := groups[k];
      assert group in Column(df, grouping);
      var lineName := group;
      if withObservable {
        lineName := Str(lineName.s + "_" + observable.s);
      }
      if isSimulation {
        lineName := Str(lineName.s + " simulation");
      }
      assert lineName == DefaultLineName(group, FirstObservable(df), withObservable, isSimulation);
      var line := NewDefaultLine(group, lineName, symbol, isSimulation);
      lines := lines + [line];
      assert lines[k] == line;
    }
  }

  class VisSpecPlot {
    const base: PlotClass
    const measurementDf: Option<Frame>
    const visualizationDf: Option<Frame>
    const simulationDf: Option<Frame>
    const conditionDf: Option<Frame>
    var plotRows: seq<PlotRow>
    var plotRowsSimulation: seq<PlotRow>
    var overview: Overview
    var dottedLines: seq<DottedLine>
    var dottedSimulationLines: seq<DottedLine>
    var datasetIdToDottedLine: map<Value, DottedLine>

    /** The state before anything is plotted. */
    constructor(measurementDf: Option<Frame>, visualizationDf: Option<Frame>, simulationDf: Option<Frame>,
                conditionDf: Option<Frame>, hasReplicates: bool)
      requires TitleReadable(visualizationDf)
      ensures this.measurementDf == measurementDf && this.visualizationDf == visualizationDf
      ensures this.simulationDf == simulationDf && this.conditionDf == conditionDf
      ensures fresh(base) && fresh(base.plot)
      ensures base.warnings == "" && base.disabledRows == {} && base.hasReplicates == hasReplicates
      ensures base.plotTitle == PlotTitle(visualizationDf) && base.plot.items == {}
      ensures datasetIdToDottedLine == map[] && plotRows == [] && plotRowsSimulation == []
      ensures dottedLines == [] && dottedSimulationLines == []
      ensures overview == EmptyOverview(OverviewColumns)
    {
      base := new PlotClass(visualizationDf, hasReplicates);
      this.measurementDf := measurementDf;
      this.visualizationDf := visualizationDf;
      this.simulationDf := simulationDf;
      this.conditionDf := conditionDf;
      datasetIdToDottedLine := map[];
      plotRows := [];
      plotRowsSimulation := [];
      dottedLines := [];
      dottedSimulationLines := [];
      overview := EmptyOverview(OverviewColumns);
    }

    /** The table the default plot draws. */
    function TableFor(isSimulation: bool): Frame
      requires measurementDf.Some? && (isSimulation ==> simulationDf.Some?)
    {
      TableOf(measurementDf, simulationDf, isSimulation)
    }

    predicate DefaultPlotReady(withObservable: bool, isSimulation: bool)
    {
      DefaultReady(measurementDf, simulationDf, withObservable, isSimulation)
    }

    /** The groups of the default plot, in ascending order. */
    function DefaultGroups(isSimulation: bool): (groups: seq<Value>)
      requires measurementDf.Some? && (isSimulation ==> simulationDf.Some?)
      ensures StrictlySorted(groups)
      ensures forall g :: g in groups <==> g in Column(TableFor(isSimulation), Grouping(measurementDf.value))
    {
      Unique(Column(TableFor(isSimulation), Grouping(measurementDf.value)))
    }

    /** The keys of the lines the default plot creates. */
    function DefaultKeys(isSimulation: bool): (keys: seq<Value>)
      requires DefaultPlotReady(false, isSimulation)
      ensures |keys| == |DefaultGroups(isSimulation)|
    {
      var groups := DefaultGroups(isSimulation);
      seq(|groups|, k requires 0 <= k < |groups| => Suffixed(groups[k], isSimulation))
    }

    /** The lines of the default plot: one per group of the table it draws,
        in ascending group order. */
    ghost predicate DefaultLines(lines: seq<DottedLine>, withObservable: bool, isSimulation: bool)
      requires DefaultPlotReady(withObservable, isSimulation)
      reads lines
    {
      |lines| == |DefaultGroups(isSimulation)| &&
      forall k :: 0 <= k < |lines| ==>
        DefaultLine(lines[k], DefaultGroups(isSimulation)[k],
          DefaultLineName(DefaultGroups(isSimulation)[k], FirstObservable(TableFor(isSimulation)),
            withObservable, isSimulation),
          isSimulation)
    }

    /** One line per group of the data (by datasetId if that column exists,
        by simulation condition with a warning otherwise), in ascending group
        order, each with one curve and one standard-deviation error bar. */
    method DefaultPlot(pRow: Option<PlotRow>, isSimulation: bool) returns (lines: seq<DottedLine>)
      requires DefaultPlotReady(pRow.None?, isSimulation)
      modifies base`warnings
      ensures base.warnings == if "datasetId" in measurementDf.value.columns then old(base.warnings)
        else AppendWarning(old(base.warnings), GroupingWarning)
      ensures DefaultLines(lines, pRow.None?, isSimulation)
      ensures forall k :: 0 <= k < |lines| ==> fresh(lines[k])
      ensures |TableFor(isSimulation).rows| == 0 ==> lines == []
    {
      var grouping := "simulationConditionId";
      if "datasetId" in measurementDf.value.columns {
        grouping := "datasetId";
      } else {
        base.AddWarning(GroupingWarning);
      }
      var df := measurementDf.value;
      if isSimulation {
        df := simulationDf.value;
      }
      lines := GroupLines(df, grouping, pRow.None?, isSimulation);
    }

    /** Every line in the registry is stored under its own dataset id. */
    ghost predicate Registered()
      reads this`datasetIdToDottedLine, datasetIdToDottedLine.Values
    {
      forall key :: key in datasetIdToDottedLine ==> datasetIdToDottedLine[key].datasetId == key
    }

    /** Creates the line of a plot row and registers it under its dataset id
        (which carries the simulation suffix for simulated data). */
    method PlotRowToDottedLine(p: PlotRow) returns (line: DottedLine)
      requires LineCreatable(p)
      requires Registered()
      modifies this`datasetIdToDottedLine
      ensures fresh(line) && FromPlotRow(line, p)
      ensures datasetIdToDottedLine == old(datasetIdToDottedLine)[line.datasetId := line]
      ensures Registered()
    {
      line := new DottedLine();
      line.InitializeFromPlotRow(p);
      datasetIdToDottedLine := datasetIdToDottedLine[line.datasetId := line];
    }

    /** What generating the lines of `rows` needs. */
    predicate RowLinesCreatable(p: PlotRow, isSimulation: bool)
      reads base`disabledRows
    {
      RowReady(measurementDf, simulationDf, base.disabledRows, p, isSimulation)
    }

    predicate DottedLinesCreatable(rows: seq<PlotRow>, isSimulation: bool)
      reads base`disabledRows
    {
      forall i :: 0 <= i < |rows| ==> RowLinesCreatable(rows[i], isSimulation)
    }

    /** The keys of the lines one plot row contributes: the default plot's
        lines for a row without dataset id, nothing for a disabled row, and
        its own line otherwise. */
    function RowKeys(p: PlotRow, isSimulation: bool): seq<Value>
      requires RowLinesCreatable(p, isSimulation)
      reads base`disabledRows
    {
      if p.info.datasetId == Str("") then DefaultKeys(isSimulation)
      else if p.info.datasetId in base.disabledRows then []
      else [Suffixed(p.info.datasetId, p.info.isSimulation)]
    }

    function ExpectedKeys(rows: seq<PlotRow>, isSimulation: bool): seq<Value>
      requires DottedLinesCreatable(rows, isSimulation)
      reads base`disabledRows
    {
      if |rows| == 0 then []
      else
        var n := |rows| - 1;
        ExpectedKeys(rows[..n], isSimulation) + RowKeys(rows[n], isSimulation)
    }

    lemma ExpectedKeysStep(rows: seq<PlotRow>, i: nat, isSimulation: bool)
      requires DottedLinesCreatable(rows, isSimulation) && i < |rows|
      ensures DottedLinesCreatable(rows[..i], isSimulation) && DottedLinesCreatable(rows[..i + 1], isSimulation)
      ensures ExpectedKeys(rows[..i + 1], isSimulation) == ExpectedKeys(rows[..i], isSimulation) + RowKeys(rows[i], isSimulation)
    {
      assert rows[..i + 1][..i] == rows[..i];
    }

    /** The default plot warns about its grouping when one of `rows` has no
        dataset id and the measurement table has no datasetId column. */
    predicate GroupingWarned(rows: seq<PlotRow>)
    {
      measurementDf.Some? && "datasetId" !in measurementDf.value.columns &&
      exists j :: 0 <= j < |rows| && rows[j].info.datasetId == Str("")
    }

    lemma GroupingWarnedAppend(rows: seq<PlotRow>, p: PlotRow)
      ensures GroupingWarned(rows + [p]) <==> GroupingWarned(rows) || GroupingWarned([p])
    {
      if GroupingWarned(rows + [p]) && !GroupingWarned([p]) {
        var j :| 0 <= j < |rows + [p]| && (rows + [p])[j].info.datasetId == Str("");
        assert j < |rows| && rows[j] == (rows + [p])[j];
      }
      if GroupingWarned(rows) {
        var j :| 0 <= j < |rows| && rows[j].info.datasetId == Str("");
        assert (rows + [p])[j] == rows[j];
      }
      if GroupingWarned([p]) {
        assert (rows + [p])[|rows|] == p;
      }
    }

    /** The lines `seg` are the ones plot row `p` contributes: the default
        plot's lines for a row without dataset id, nothing for a disabled
        row, and the line built from the row otherwise. */
    ghost predicate RowLines(p: PlotRow, isSimulation: bool, seg: seq<DottedLine>)
      requires RowLinesCreatable(p, isSimulation)
      reads base`disabledRows, seg
    {
      if p.info.datasetId == Str("") then DefaultLines(seg, false, isSimulation)
      else if p.info.datasetId in base.disabledRows then seg == []
      else |seg| == 1 && FromPlotRow(seg[0], p)
    }

    /** The lines one plot row contributes, with the registration and the
        warning they cause. */
    method RowDottedLines(p: PlotRow, isSimulation: bool) returns (lines: seq<DottedLine>)
      requires RowLinesCreatable(p, isSimulation)
      requires Registered()
      modifies this`datasetIdToDottedLine, base`warnings
      ensures forall k :: 0 <= k < |lines| ==> fresh(lines[k])
      ensures RowLines(p, isSimulation, lines)
      ensures |lines| == |RowKeys(p, isSimulation)|
      ensures forall k :: 0 <= k < |lines| ==> lines[k].datasetId == RowKeys(p, isSimulation)[k]
      ensures base.warnings ==
        if GroupingWarned([p]) then AppendWarning(old(base.warnings), GroupingWarning) else old(base.warnings)
      ensures Registrable([p], [lines], base.disabledRows)
      ensures datasetIdToDottedLine == Registrations(old(datasetIdToDottedLine), [p], [lines], base.disabledRows)
      ensures Registered()
    {
      lines := [];
      assert [p][0] == p;
      if p.info.datasetId == Str("") {
        lines := DefaultPlot(Some(p), isSimulation);
        assert [p][..0] == [] && [lines][..0] == [];
      } else if p.info.datasetId !in base.disabledRows {
        var line := PlotRowToDottedLine(p);
        lines := [line];
        assert [p][..0] == [] && [lines][..0] == [];
      }
      RowLinesKeys(p, isSimulation, lines);
    }

    /** Reporting the grouping warning for one more row keeps the warning
        text equal to reporting it once for all rows so far. */
    lemma WarningsAppend(done: seq<PlotRow>, p: PlotRow, w: string, current: string, updated: string)
      requires current == if GroupingWarned(done) then AppendWarning(w, GroupingWarning) else w
      requires updated == if GroupingWarned([p]) then AppendWarning(current, GroupingWarning) else current
      ensures updated == if GroupingWarned(done + [p]) then AppendWarning(w, GroupingWarning) else w
    {
      GroupingWarnedAppend(done, p);
      AppendWarningIdempotent(w, GroupingWarning);
    }

    /** The lines of one row carry that row's keys. */
    lemma RowLinesKeys(p: PlotRow, isSimulation: bool, seg: seq<DottedLine>)
      requires RowLinesCreatable(p, isSimulation) && RowLines(p, isSimulation, seg)
      ensures |seg| == |RowKeys(p, isSimulation)|
      ensures forall k :: 0 <= k < |seg| ==> seg[k].datasetId == RowKeys(p, isSimulation)[k]
    {
    }

    /** The lines of all rows, in row order, carry the expected keys. */
    lemma {:induction false} LinesKeys(rows: seq<PlotRow>, isSimulation: bool, segments: seq<seq<DottedLine>>)
      requires DottedLinesCreatable(rows, isSimulation) && |segments| == |rows|
      requires forall i :: 0 <= i < |rows| ==> RowLines(rows[i], isSimulation, segments[i])
      ensures |Concat(segments)| == |ExpectedKeys(rows, isSimulation)|
      ensures forall k :: 0 <= k < |Concat(segments)| ==> Concat(segments)[k].datasetId == ExpectedKeys(rows, isSimulation)[k]
    {
      if |rows| > 0 {
        var n := |rows| - 1;
        assert DottedLinesCreatable(rows[..n], isSimulation);
        forall i | 0 <= i < n ensures RowLines(rows[..n][i], isSimulation, segments[..n][i]) {
          assert rows[..n][i] == rows[i] && segments[..n][i] == segments[i];
        }
        LinesKeys(rows[..n], isSimulation, segments[..n]);
        RowLinesKeys(rows[n], isSimulation, segments[n]);
        KeysAppend(Concat(segments[..n]), segments[n], ExpectedKeys(rows[..n], isSimulation), RowKeys(rows[n], isSimulation));
      }
    }

    /** After the lines of the first `i` rows are generated as `segments`:
        the grouping warning is reported if one of them called for it, and
        the registry holds their registrations on top of `m`. */
    ghost predicate Generated(rows: seq<PlotRow>, i: nat, segments: seq<seq<DottedLine>>, m: map<Value, DottedLine>,
                              w: string)
      requires i <= |rows|
      reads this, base
    {
      |segments| == i &&
      base.warnings == (if GroupingWarned(rows[..i]) then AppendWarning(w, GroupingWarning) else w) &&
      Registrable(rows[..i], segments, base.disabledRows) &&
      datasetIdToDottedLine == Registrations(m, rows[..i], segments, base.disabledRows)
    }

    /** Generating the lines `added` of row `rows[i]`, with the warning and
        the registration they cause, extends the progress to `i + 1` rows. */
    lemma GeneratedAppend(rows: seq<PlotRow>, i: nat, segments: seq<seq<DottedLine>>, added: seq<DottedLine>,
                          m: map<Value, DottedLine>, w: string, warned: string, registry: map<Value, DottedLine>)
      requires i < |rows| && |segments| == i
      requires warned == if GroupingWarned(rows[..i]) then AppendWarning(w, GroupingWarning) else w
      requires Registrable(rows[..i], segments, base.disabledRows)
      requires registry == Registrations(m, rows[..i], segments, base.disabledRows)
      requires base.warnings ==
        if GroupingWarned([rows[i]]) then AppendWarning(warned, GroupingWarning) else warned
      requires Registrable([rows[i]], [added], base.disabledRows)
      requires datasetIdToDottedLine == Registrations(registry, [rows[i]], [added], base.disabledRows)
      ensures Generated(rows, i + 1, segments + [added], m, w)
    {
      assert rows[..i + 1] == rows[..i] + [rows[i]];
      WarningsAppend(rows[..i], rows[i], w, warned, base.warnings);
      RegistrationsAppend(m, rows[..i], segments, rows[i], added, base.disabledRows);
    }

    /** Adds the lines of plot row `rows[i]` to the lines of the rows before it. */
    method AppendRowLines(lines: seq<DottedLine>, ghost segments: seq<seq<DottedLine>>, rows: seq<PlotRow>, i: nat,
                          ghost m: map<Value, DottedLine>, ghost w: string, isSimulation: bool)
      returns (more: seq<DottedLine>, ghost next: seq<seq<DottedLine>>)
      requires DottedLinesCreatable(rows, isSimulation) && i < |rows|
      requires Generated(rows, i, segments, m, w) && lines == Concat(segments)
      requires forall j :: 0 <= j < i ==> RowLines(rows[j], isSimulation, segments[j])
      requires Registered()
      modifies this`datasetIdToDottedLine, base`warnings
      ensures Generated(rows, i + 1, next, m, w) && more == Concat(next)
      ensures forall j :: 0 <= j < i + 1 ==> RowLines(rows[j], isSimulation, next[j])
      ensures |lines| <= |more| && more[..|lines|] == lines
      ensures forall k :: |lines| <= k < |more| ==> fresh(more[k])
      ensures Registered()
    {
      ghost var warned := base.warnings;
      ghost var registry := datasetIdToDottedLine;
      var added := RowDottedLines(rows[i], isSimulation);
      GeneratedAppend(rows, i, segments, added, m, w, warned, registry);
      ConcatAppend(segments, added);
      more := lines + added;
      next := segments + [added];
      forall j | 0 <= j < i
        ensures RowLines(rows[j], isSimulation, next[j])
      {
        assert old(RowLines(rows[j], isSimulation, segments[j]));
        assert forall k :: 0 <= k < |segments[j]| ==> unchanged(segments[j][k]);
        assert next[j] == segments[j];
      }
    }

    /** The lines of a list of plot rows, in row order: rows without a
        dataset id expand to the default plot, disabled rows are skipped,
        every other row gives exactly one line, which is registered. */
    method GenerateDottedLines(rows: seq<PlotRow>, isSimulation: bool)
      returns (lines: seq<DottedLine>, ghost segments: seq<seq<DottedLine>>)
      requires DottedLinesCreatable(rows, isSimulation)
      requires Registered()
      modifies this`datasetIdToDottedLine, base`warnings
      ensures |segments| == |rows| && lines == Concat(segments)
      ensures forall i :: 0 <= i < |rows| ==> RowLines(rows[i], isSimulation, segments[i])
      ensures forall k :: 0 <= k < |lines| ==> fresh(lines[k])
      ensures |lines| == |ExpectedKeys(rows, isSimulation)|
      ensures forall k :: 0 <= k < |lines| ==> lines[k].datasetId == ExpectedKeys(rows, isSimulation)[k]
      ensures base.warnings ==
        if GroupingWarned(rows) then AppendWarning(old(base.warnings), GroupingWarning) else old(base.warnings)
      ensures Registrable(rows, segments, base.disabledRows)
      ensures datasetIdToDottedLine == Registrations(old(datasetIdToDottedLine), rows, segments, base.disabledRows)
      ensures Registered()
    {
      lines := [];
      segments := [];
      ghost var m := datasetIdToDottedLine;
      ghost var w := base.warnings;
      for i := 0 to |rows|
        invariant Generated(rows, i, segments, m, w) && lines == Concat(segments)
        invariant forall j :: 0 <= j < i ==> RowLines(rows[j], isSimulation, segments[j])
        invariant forall k :: 0 <= k < |lines| ==> fresh(lines[k])
        invariant Registered()
      {
        ghost var before := lines;
        lines, segments := AppendRowLines(lines, segments, rows, i, m, w, isSimulation);
        assert forall k :: 0 <= k < |before| ==> lines[k] == before[k];
      }
      assert rows[..|rows|] == rows;
      LinesKeys(rows, isSimulation, segments);
    }

    /** Error bars are left out when the first row's x or y scale is a log
        scale, except for replicate plots. */
    predicate ScalesReadable()
      reads this
    {
      ScalesReadableIn(plotRows)
    }

    function ErrorBarsAllowed(): bool
      requires ScalesReadable()
      reads this
    {
      ErrorBarsAllowedIn(plotRows)
    }

    /** Decides whether the plot draws error bars, and warns when it does not. */
    method DecideErrorBars() returns (addErrorBars: bool)
      requires ScalesReadable()
      requires !ErrorBarsAllowed() ==> base.plotTitle.Str?
      modifies base`warnings
      ensures addErrorBars == ErrorBarsAllowed()
      ensures addErrorBars ==> base.warnings == old(base.warnings)
      ensures !addErrorBars ==>
        base.warnings ==
        AppendWarning(old(base.warnings), ErrorBarsWarning(base.plotTitle.s))
    {
      addErrorBars := true;
      if |plotRows| > 0 &&
         (Contains(plotRows[0].info.xScale.s, "log") || Contains(plotRows[0].info.yScale.s, "log")) &&
         plotRows[0].info.plotTypeData != Str("replicate")
      {
        base.AddWarning("Errorbars are not supported with log scales (in " + base.plotTitle.s + ")");
        addErrorBars := false;
      }
    }

    /** The default plot replaces the lines when there are no plot rows (no
        visualization table); then the error-bar decision. */
    method GeneratePlot() returns (addErrorBars: bool)
      requires |plotRows| == 0 ==>
        DefaultPlotReady(true, false) && (simulationDf.Some? ==> DefaultPlotReady(true, true))
      requires ScalesReadable() && (!ErrorBarsAllowed() ==> base.plotTitle.Str?)
      modifies this`dottedLines, this`dottedSimulationLines, base`warnings
      ensures |plotRows| > 0 ==> dottedLines == old(dottedLines) && dottedSimulationLines == old(dottedSimulationLines)
      ensures |plotRows| == 0 ==>
        DefaultLines(dottedLines, true, false) && forall k :: 0 <= k < |dottedLines| ==> fresh(dottedLines[k])
      ensures |plotRows| == 0 && simulationDf.Some? ==>
        DefaultLines(dottedSimulationLines, true, true) &&
        forall k :: 0 <= k < |dottedSimulationLines| ==> fresh(dottedSimulationLines[k])
      ensures |plotRows| == 0 && simulationDf.None? ==> dottedSimulationLines == old(dottedSimulationLines)
      ensures addErrorBars == ErrorBarsAllowed()
      ensures base.warnings ==
        var grouped :=
          if |plotRows| == 0 && "datasetId" !in measurementDf.value.columns
          then AppendWarning(old(base.warnings), GroupingWarning) else old(base.warnings);
        if addErrorBars then grouped else AppendWarning(grouped, ErrorBarsWarning(base.plotTitle.s))
    {
      if |plotRows| == 0 {
        dottedLines := DefaultPlot(None, false);
        if simulationDf.Some? {
          dottedSimulationLines := DefaultPlot(None, true);
          AppendWarningIdempotent(old(base.warnings), GroupingWarning);
        }
      }
      addErrorBars := DecideErrorBars();
    }

    /** Shows every item of the line registered under `d`. */
    method EnableLine(d: Value)
      requires d in datasetIdToDottedLine
      modifies base.plot
      ensures base.plot.items == old(base.plot.items) + datasetIdToDottedLine[d].Shown(true)
    {
      var line := datasetIdToDottedLine[d];
      line.EnableInPlot(base.plot, true);
    }

    /** Removes every item of the line registered under `d`. */
    method DisableLine(d: Value)
      requires d in datasetIdToDottedLine
      modifies base.plot
      ensures base.plot.items == old(base.plot.items) - datasetIdToDottedLine[d].AllItems()
    {
      var line := datasetIdToDottedLine[d];
      line.DisableInPlot(base.plot);
    }

    /** Flips whether dataset `d` is disabled and shows or hides its line,
        and also its simulation line when there is simulated data. */
    method AddOrRemoveLine(d: Value)
      requires d in datasetIdToDottedLine
      requires simulationDf.Some? ==> d.Str? && Suffixed(d, true) in datasetIdToDottedLine
      modifies base`disabledRows, base.plot
      ensures base.disabledRows == Toggle(old(base.disabledRows), d)
      ensures d in old(base.disabledRows) ==>
        base.plot.items ==
        old(base.plot.items) + datasetIdToDottedLine[d].Shown(true) +
        (if simulationDf.Some? then datasetIdToDottedLine[Suffixed(d, true)].Shown(true) else {})
      ensures d !in old(base.disabledRows) ==>
        base.plot.items ==
        old(base.plot.items) - datasetIdToDottedLine[d].AllItems() -
        (if simulationDf.Some? then datasetIdToDottedLine[Suffixed(d, true)].AllItems() else {})
    {
      if d in base.disabledRows {
        base.ToggleDisabled(d);
        EnableLine(d);
        if simulationDf.Some? {
          EnableLine(Str(d.s + "_simulation"));
        }
      } else {
        base.ToggleDisabled(d);
        DisableLine(d);
        if simulationDf.Some? {
          DisableLine(Str(d.s + "_simulation"));
        }
      }
    }
  }
}
