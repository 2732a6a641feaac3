/** One plotted line of a line plot (DottedLine) and the plot it is shown
    in. Graphics items are values naming the line that owns them, what they
    draw and their position in the owner's list; a plot is the set of items
    it currently shows. */
module DottedLines {
  import opened Tables
  import opened RowClass
  import opened PlotRows

  /** Which spread the error bars of a line show. */
  datatype ErrorSource = Sd | Sem | ProvidedNoise

  datatype PenStyle = DashDotLine | SolidLine

  datatype ItemKind =
    | Curve(legend: Option<Value>, symbol: string)
    | ErrorBar(source: ErrorSource)
    | FillBetween

  datatype GraphicsItem = Item(owner: DottedLine, kind: ItemKind, index: nat)

  /** The items of a list, as a set. */
  function Elements(s: seq<GraphicsItem>): set<GraphicsItem>
  {
    set x | x in s
  }

  /** A plot: the graphics items it currently shows. */
  class PlotItem {
    var items: set<GraphicsItem>

    constructor()
      ensures items == {}
    {
      items := {};
    }
  }

  const LineWidth: real := 2.0
  const PointSize: real := 7.0

  /** Error source by plot type: sem for MeanAndSEM, the provided noise for
      provided, the standard deviation otherwise. */
  function ErrorSourceFor(plotTypeData: Value): (source: ErrorSource)
    ensures source == Sem <==> plotTypeData == Str("MeanAndSEM")
    ensures source == ProvidedNoise <==> plotTypeData == Str("provided")
    ensures source == Sd <==> plotTypeData != Str("MeanAndSEM") && plotTypeData != Str("provided")
  {
    if plotTypeData == Str("MeanAndSEM") then Sem
    else if plotTypeData == Str("provided") then ProvidedNoise
    else Sd
  }

  /** The key a line is registered under: simulation lines get a suffix. */
  function Suffixed(datasetId: Value, isSimulation: bool): (key: Value)
    requires isSimulation ==> datasetId.Str?
    ensures !isSimulation ==> key == datasetId
    ensures isSimulation ==>
      key.Str? && |key.s| == |datasetId.s| + 11 &&
      key.s[..|datasetId.s|] == datasetId.s && key.s[|datasetId.s|..] == "_simulation"
  {
    if isSimulation then Str(datasetId.s + "_simulation") else datasetId
  }

  /** Two simulation lines share a key only if their dataset ids agree. */
  lemma SuffixedInjective(a: Value, b: Value)
    requires a.Str? && b.Str?
    requires Suffixed(a, true) == Suffixed(b, true)
    ensures a == b
  {
    var n := |a.s + "_simulation"|;
    assert |a.s| == |b.s|;
    assert a.s == Suffixed(a, true).s[..|a.s|];
  }

  /** What a line from a plot row needs: text to append to when simulated. */
  predicate LineCreatable(p: PlotRow)
  {
    p.info.isSimulation ==> p.info.datasetId.Str? && p.info.legendName.Str?
  }

  function LegendFor(p: PlotRow): (legend: Value)
    requires LineCreatable(p)
    ensures !p.info.isSimulation ==> legend == p.info.legendName
    ensures p.info.isSimulation ==> legend == Str(p.info.legendName.s + " simulation")
  {
    if p.info.isSimulation then Str(p.info.legendName.s + " simulation") else p.info.legendName
  }

  /** Circles for measurements, triangles for simulations. */
  function SymbolFor(isSimulation: bool): string
  {
    if isSimulation then "t" else "o"
  }

  /** A replicate plot of data with replicate ids draws every replicate. */
  predicate DrawsReplicates(p: PlotRow)
  {
    p.info.plotTypeData == Str("replicate") && "replicateId" in p.info.lineData.columns
  }

  /** The number of curves a plot row produces: one per replicate (the
      pairs of replicate x- and y-arrays) or a single one. */
  function LineCount(p: PlotRow): (n: nat)
    ensures DrawsReplicates(p) ==> n == |p.replicates|
    ensures !DrawsReplicates(p) ==> n == 1
  {
    if DrawsReplicates(p) then |p.replicates| else 1
  }

  /** The curves a line appends, numbered from `start`; only the first one
      carries a legend entry. */
  function NewCurves(owner: DottedLine, start: nat, count: nat, legend: Value, symbol: string): (c: seq<GraphicsItem>)
    ensures |c| == count
    ensures forall k :: 0 <= k < count ==>
      c[k].owner == owner && c[k].index == start + k && c[k].kind.Curve? && c[k].kind.symbol == symbol &&
      (c[k].kind.legend.Some? <==> k == 0) && (k == 0 ==> c[k].kind.legend.value == legend)
  {
    seq(count, k requires 0 <= k < count =>
      Item(owner, Curve(if k == 0 then Some(legend) else None, symbol), start + k))
  }

  /** The min/max band is drawn for replicate plots of data with replicates
      but without replicate ids. */
  predicate FillWanted(p: PlotRow)
  {
    p.info.plotTypeData == Str("replicate") && p.hasReplicates && "replicateId" !in p.info.lineData.columns
  }

  /** Error bars are drawn when there is a spread to show and the plot does
      not show replicates one by one. */
  predicate ErrorBarsWanted(p: PlotRow)
  {
    (p.hasReplicates || p.info.plotTypeData == Str("provided")) && p.info.plotTypeData != Str("replicate")
  }

  /** A line never gets both error bars and a fill-between band, and a
      replicate plot with replicate ids gets neither. */
  lemma DecorationsExclusive(p: PlotRow)
    ensures !(ErrorBarsWanted(p) && FillWanted(p))
    ensures DrawsReplicates(p) ==> !ErrorBarsWanted(p) && !FillWanted(p)
  {
  }

  /** The line `initialize_from_plot_row` builds from `p` on a new line:
      its curves, the fill-between band when wanted, the error bar when
      wanted, and the (suffixed) dataset id. */
  ghost predicate FromPlotRow(line: DottedLine, p: PlotRow)
    requires LineCreatable(p)
    reads line
  {
    line.pRow == Some(p) && line.isSimulation == p.info.isSimulation &&
    line.datasetId == Suffixed(p.info.datasetId, p.info.isSimulation) &&
    line.lines == NewCurves(line, 0, LineCount(p), LegendFor(p), SymbolFor(p.info.isSimulation)) &&
    line.fillBetweenItems == (if FillWanted(p) then [Item(line, FillBetween, 0)] else []) &&
    line.errorBars == (if ErrorBarsWanted(p) then [Item(line, ErrorBar(ErrorSourceFor(p.info.plotTypeData)), 0)] else [])
  }

  class DottedLine {
    var lines: seq<GraphicsItem>
    var errorBars: seq<GraphicsItem>
    var fillBetweenItems: seq<GraphicsItem>
    var pRow: Option<PlotRow>
    var datasetId: Value
    var isSimulation: bool
    var color: string
    var style: PenStyle
    var lineWidth: real
    var symbolSize: real

    constructor()
      ensures lines == [] && errorBars == [] && fillBetweenItems == []
      ensures pRow.None? && datasetId == Str("") && !isSimulation
      ensures color == "k" && style == DashDotLine && lineWidth == LineWidth && symbolSize == PointSize
    {
      lines := [];
      errorBars := [];
      fillBetweenItems := [];
      pRow := None;
      datasetId := Str("");
      isSimulation := false;
      color := "k";
      style := DashDotLine;
      lineWidth := LineWidth;
      symbolSize := PointSize;
    }

    /** Takes ready-made items (the default plot builds them itself). */
    method Initialize(newLines: seq<GraphicsItem>, newErrorBars: seq<GraphicsItem>, id: Value, simulated: bool)
      requires simulated ==> id.Str?
      modifies this
      ensures lines == newLines && errorBars == newErrorBars
      ensures datasetId == Suffixed(id, simulated) && isSimulation == simulated
      ensures style == (if simulated then SolidLine else old(style))
      ensures fillBetweenItems == old(fillBetweenItems) && pRow == old(pRow) && color == old(color)
      ensures lineWidth == old(lineWidth) && symbolSize == old(symbolSize)
    {
      lines := newLines;
      errorBars := newErrorBars;
      datasetId := id;
      isSimulation := simulated;
      if isSimulation {
        datasetId := Str(datasetId.s + "_simulation");
        style := SolidLine;
      }
    }

    /** Builds the line's items from a plot row: its curves, then error bars
        or a fill-between band where the plot type asks for them. */
    method InitializeFromPlotRow(p: PlotRow)
      requires LineCreatable(p)
      modifies this
      ensures pRow == Some(p) && isSimulation == p.info.isSimulation
      ensures datasetId == Suffixed(p.info.datasetId, p.info.isSimulation)
      ensures style == (if p.info.isSimulation then SolidLine else old(style))
      ensures lines == old(lines) + NewCurves(this, |old(lines)|, LineCount(p), LegendFor(p), SymbolFor(p.info.isSimulation))
      ensures fillBetweenItems == old(fillBetweenItems) +
        (if FillWanted(p) then [Item(this, FillBetween, |old(fillBetweenItems)|)] else [])
      ensures errorBars == old(errorBars) +
        (if ErrorBarsWanted(p) then [Item(this, ErrorBar(ErrorSourceFor(p.info.plotTypeData)), |old(errorBars)|)] else [])
      ensures color == old(color) && lineWidth == old(lineWidth) && symbolSize == old(symbolSize)
    {
      pRow := Some(p);
      datasetId := p.info.datasetId;
      isSimulation := p.info.isSimulation;
      if isSimulation {
        datasetId := Str(datasetId.s + "_simulation");
        style := SolidLine;
      }
      GenerateLine();
      if ErrorBarsWanted(p) {
        AddErrorBars();
      }
    }

    /** Appends the curves of the plot row: one per replicate for replicate
        plots with replicate ids, otherwise one, plus a fill-between band for
        replicate plots without replicate ids. */
    method GenerateLine()
      requires pRow.Some? && LineCreatable(pRow.value) && isSimulation == pRow.value.info.isSimulation
      modifies this`lines, this`fillBetweenItems
      ensures lines == old(lines) +
        NewCurves(this, |old(lines)|, LineCount(pRow.value), LegendFor(pRow.value), SymbolFor(isSimulation))
      ensures fillBetweenItems == old(fillBetweenItems) +
        (if FillWanted(pRow.value) then [Item(this, FillBetween, |old(fillBetweenItems)|)] else [])
    {
      var p := pRow.value;
      var legend := p.info.legendName;
      var symbol := "o";
      if isSimulation {
        legend := Str(legend.s + " simulation");
        symbol := "t";
      }
      var start := |lines|;
      if DrawsReplicates(p) {
        for k := 0 to |p.replicates|
          invariant lines == old(lines) + NewCurves(this, start, k, legend, symbol)
          invariant fillBetweenItems == old(fillBetweenItems)
        {
          var name := if k == 0 then Some(legend) else None;
          lines := lines + [Item(this, Curve(name, symbol), start + k)];
          assert NewCurves(this, start, k + 1, legend, symbol) ==
            NewCurves(this, start, k, legend, symbol) + [Item(this, Curve(name, symbol), start + k)];
        }
      } else {
        lines := lines + [Item(this, Curve(Some(legend), symbol), start)];
        assert NewCurves(this, start, 1, legend, symbol) == [Item(this, Curve(Some(legend), symbol), start)];
        if FillWanted(p) {
          AddFillBetween();
        }
      }
    }

    method AddFillBetween()
      modifies this`fillBetweenItems
      ensures fillBetweenItems == old(fillBetweenItems) + [Item(this, FillBetween, |old(fillBetweenItems)|)]
    {
      fillBetweenItems := fillBetweenItems + [Item(this, FillBetween, |fillBetweenItems|)];
    }

    /** Appends exactly one error-bar item, showing the spread the plot type asks for. */
    method AddErrorBars()
      requires pRow.Some?
      modifies this`errorBars
      ensures errorBars == old(errorBars) +
        [Item(this, ErrorBar(ErrorSourceFor(pRow.value.info.plotTypeData)), |old(errorBars)|)]
    {
      var source := Sd;
      if pRow.value.info.plotTypeData == Str("MeanAndSEM") {
        source := Sem;
      } else if pRow.value.info.plotTypeData == Str("provided") {
        source := ProvidedNoise;
      }
      errorBars := errorBars + [Item(this, ErrorBar(source), |errorBars|)];
    }

    /** The items `EnableInPlot` shows. */
    function Shown(withErrorBars: bool): set<GraphicsItem>
      reads this
    {
      Elements(lines) + (if withErrorBars then Elements(errorBars) else {}) + Elements(fillBetweenItems)
    }

    /** All items of the line. */
    function AllItems(): set<GraphicsItem>
      reads this
    {
      Elements(lines) + Elements(errorBars) + Elements(fillBetweenItems)
    }

    method EnableInPlot(plot: PlotItem, withErrorBars: bool)
      modifies plot
      ensures plot.items == old(plot.items) + Shown(withErrorBars)
    {
      for i := 0 to |lines|
        invariant plot.items == old(plot.items) + Elements(lines[..i])
      {
        assert Elements(lines[..i + 1]) == Elements(lines[..i]) + {lines[i]} by {
          assert lines[..i + 1] == lines[..i] + [lines[i]];
        }
        plot.items := plot.items + {lines[i]};
      }
      assert lines[..|lines|] == lines;
      ghost var before := plot.items;
      if withErrorBars {
        for i := 0 to |errorBars|
          invariant plot.items == before + Elements(errorBars[..i])
        {
          assert Elements(errorBars[..i + 1]) == Elements(errorBars[..i]) + {errorBars[i]} by {
            assert errorBars[..i + 1] == errorBars[..i] + [errorBars[i]];
          }
          plot.items := plot.items + {errorBars[i]};
        }
        assert errorBars[..|errorBars|] == errorBars;
      }
      ghost var middle := plot.items;
      for i := 0 to |fillBetweenItems|
        invariant plot.items == middle + Elements(fillBetweenItems[..i])
      {
        assert Elements(fillBetweenItems[..i + 1]) == Elements(fillBetweenItems[..i]) + {fillBetweenItems[i]} by {
          assert fillBetweenItems[..i + 1] == fillBetweenItems[..i] + [fillBetweenItems[i]];
        }
        plot.items := plot.items + {fillBetweenItems[i]};
      }
      assert fillBetweenItems[..|fillBetweenItems|] == fillBetweenItems;
    }

    /** Removes every item of the line; items the plot does not show are ignored. */
    method DisableInPlot(plot: PlotItem)
      modifies plot
      ensures plot.items == old(plot.items) - AllItems()
    {
      for i := 0 to |lines|
        invariant plot.items == old(plot.items) - Elements(lines[..i])
      {
        assert Elements(lines[..i + 1]) == Elements(lines[..i]) + {lines[i]} by {
          assert lines[..i + 1] == lines[..i] + [lines[i]];
        }
        plot.items := plot.items - {lines[i]};
      }
      assert lines[..|lines|] == lines;
      ghost var before := plot.items;
      for i := 0 to |errorBars|
        invariant plot.items == before - Elements(errorBars[..i])
      {
        assert Elements(errorBars[..i + 1]) == Elements(errorBars[..i]) + {errorBars[i]} by {
          assert errorBars[..i + 1] == errorBars[..i] + [errorBars[i]];
        }
        plot.items := plot.items - {errorBars[i]};
      }
      assert errorBars[..|errorBars|] == errorBars;
      ghost var middle := plot.items;
      for i := 0 to |fillBetweenItems|
        invariant plot.items == middle - Elements(fillBetweenItems[..i])
      {
        assert Elements(fillBetweenItems[..i + 1]) == Elements(fillBetweenItems[..i]) + {fillBetweenItems[i]} by {
          assert fillBetweenItems[..i + 1] == fillBetweenItems[..i] + [fillBetweenItems[i]];
        }
        plot.items := plot.items - {fillBetweenItems[i]};
      }
      assert fillBetweenItems[..|fillBetweenItems|] == fillBetweenItems;
    }

    /** Black while a fill-between band is drawn, so the line stays visible
        on it; the line's own color otherwise. */
    function LineColor(): (c: string)
      reads this
      ensures |fillBetweenItems| > 0 ==> c == "k"
      ensures |fillBetweenItems| == 0 ==> c == color
    {
      if |fillBetweenItems| > 0 then "k" else color
    }
  }

  /** Shown with error bars, a line shows every one of its items. */
  lemma ShownWithErrorBars(l: DottedLine)
    ensures l.Shown(true) == l.AllItems()
  {
  }

  /** Disabling a line and enabling it again with error bars leaves the plot
      showing everything it showed before plus all of the line's items. */
  method DisableThenEnable(l: DottedLine, plot: PlotItem)
    modifies plot
    ensures plot.items == old(plot.items) + l.AllItems()
  {
    l.DisableInPlot(plot);
    l.EnableInPlot(plot, true);
    ShownWithErrorBars(l);
  }
}
