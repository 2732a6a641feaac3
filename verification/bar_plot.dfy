/** The bar plot (BarPlot): which bars are shown and where they stand. */
module BarPlots {
  import opened Tables
  import opened RowClass
  import opened DottedLines
  import opened PlotBase
  import opened Utils

  /** A BarRow: a RowClass plus the statistics numpy computes for its bar
      (mean height, standard deviation, standard error, provided noise). */
  datatype BarRow = BarRow(info: RowInfo, yData: real, sd: real, sem: real, providedNoise: real)

  /** One line of the bar overview table. */
  datatype BarRecord = BarRecord(
    x: real, y: real, name: Value, sd: real, sem: real, providedNoise: real, isSimulation: bool, tickPos: real)

  const BarWidth: real := 0.4

  /** The bars whose dataset id is not disabled, in their original order. */
  function EnabledBars(barRows: seq<BarRow>, disabled: set<Value>): (kept: seq<BarRow>)
    ensures forall b :: b in kept <==> b in barRows && b.info.datasetId !in disabled
    ensures Subsequence(kept, barRows)
    ensures forall b :: multiset(kept)[b] == if b.info.datasetId !in disabled then multiset(barRows)[b] else 0
  {
    var enabled := (b: BarRow) => b.info.datasetId !in disabled;
    KeepSubsequence(barRows, enabled);
    KeepCount(barRows, enabled);
    Keep(barRows, enabled)
  }

  function Names(bars: seq<BarRow>): (names: seq<Value>)
    ensures |names| == |bars|
    ensures forall k :: 0 <= k < |bars| ==> names[k] == bars[k].info.legendName
  {
    seq(|bars|, k requires 0 <= k < |bars| => bars[k].info.legendName)
  }

  /** Where bar `k` stands when simulated bars are paired with measured ones:
      at the index of its name among the distinct names in order of first
      appearance. A bar without a name (NaN) matches no name and keeps its
      own index. */
  function Slot(bars: seq<BarRow>, k: nat): (slot: nat)
    requires k < |bars|
  {
    var name := bars[k].info.legendName;
    if name.Null? then k else FirstIndex(Distinct(Names(bars)), name)
  }

  /** The bar record of `b` standing at `pos`. */
  function Placed(b: BarRow, pos: real): BarRecord
  {
    BarRecord(pos, b.yData, b.info.legendName, b.sd, b.sem, b.providedNoise, b.info.isSimulation, pos)
  }

  function Separation(isSimulation: bool): real
  {
    if isSimulation then BarWidth / 2.0 else -(BarWidth / 2.0)
  }

  /** The bar overview. Without simulated data bar k stands at k; with it,
      bars are placed by name and measured and simulated bars of the same
      name are pushed half a bar width apart. */
  function BarsLayout(bars: seq<BarRow>, hasSimulation: bool): (df: seq<BarRecord>)
    ensures |df| == |bars|
    ensures forall k :: 0 <= k < |bars| ==>
      df[k].y == bars[k].yData && df[k].name == bars[k].info.legendName && df[k].sd == bars[k].sd &&
      df[k].sem == bars[k].sem && df[k].providedNoise == bars[k].providedNoise &&
      df[k].isSimulation == bars[k].info.isSimulation
    ensures !hasSimulation ==> forall k :: 0 <= k < |bars| ==> df[k].x == k as real && df[k].tickPos == k as real
    ensures hasSimulation ==> forall k :: 0 <= k < |bars| ==>
      df[k].x == df[k].tickPos + Separation(df[k].isSimulation)
  {
    seq(|bars|, k requires 0 <= k < |bars| =>
      if hasSimulation then
        var r := Placed(bars[k], Slot(bars, k) as real);
        r.(x := r.x + Separation(r.isSimulation))
      else
        Placed(bars[k], k as real))
  }

  /** Bars that share a name share their tick, which is that name's index
      among the distinct names in order of first appearance. */
  lemma PairedBarsShareTick(bars: seq<BarRow>, j: nat, k: nat)
    requires j < |bars| && k < |bars|
    requires Same(bars[j].info.legendName, bars[k].info.legendName)
    ensures BarsLayout(bars, true)[j].tickPos == BarsLayout(bars, true)[k].tickPos
    ensures BarsLayout(bars, true)[j].tickPos == FirstIndex(Distinct(Names(bars)), bars[j].info.legendName) as real
  {
  }

  /** Measured and simulated bars of the same name stand a bar width apart. */
  lemma PairedBarsSeparated(bars: seq<BarRow>, j: nat, k: nat)
    requires j < |bars| && k < |bars|
    requires Same(bars[j].info.legendName, bars[k].info.legendName)
    requires !bars[j].info.isSimulation && bars[k].info.isSimulation
    ensures BarsLayout(bars, true)[k].x - BarsLayout(bars, true)[j].x == BarWidth
  {
  }

  /** The layout when the first `i` distinct names have been placed. */
  function PartlyPlaced(bars: seq<BarRow>, names: seq<Value>, i: nat, k: nat): BarRecord
    requires k < |bars| && i <= |names|
  {
    var name := bars[k].info.legendName;
    if !name.Null? && name in names[..i] then Placed(bars[k], FirstIndex(names, name) as real)
    else Placed(bars[k], k as real)
  }

  /** Moves every bar named `name` to position `i`. */
  function PlaceName(df: seq<BarRecord>, name: Value, i: nat): (placed: seq<BarRecord>)
    ensures |placed| == |df|
  {
    seq(|df|, k requires 0 <= k < |df| =>
      if Same(df[k].name, name) then df[k].(x := i as real, tickPos := i as real) else df[k])
  }

  /** Pushes measured bars half a bar width left and simulated bars right. */
  function Separate(df: seq<BarRecord>): (separated: seq<BarRecord>)
    ensures |separated| == |df|
  {
    seq(|df|, k requires 0 <= k < |df| => df[k].(x := df[k].x + Separation(df[k].isSimulation)))
  }

  lemma PlaceNameStep(bars: seq<BarRow>, i: nat, df: seq<BarRecord>)
    requires i < |Distinct(Names(bars))| && |df| == |bars|
    requires forall k :: 0 <= k < |bars| ==> df[k] == PartlyPlaced(bars, Distinct(Names(bars)), i, k)
    ensures forall k :: 0 <= k < |bars| ==>
      PlaceName(df, Distinct(Names(bars))[i], i)[k] == PartlyPlaced(bars, Distinct(Names(bars)), i + 1, k)
  {
    var names := Distinct(Names(bars));
    assert names[..i + 1] == names[..i] + [names[i]];
    forall k | 0 <= k < |bars|
      ensures PlaceName(df, names[i], i)[k] == PartlyPlaced(bars, names, i + 1, k)
    {
      var name := bars[k].info.legendName;
      if Same(name, names[i]) {
        assert FirstIndex(names, names[i]) == i;
        assert name !in names[..i];
      }
    }
  }

  lemma AllPlaced(bars: seq<BarRow>, df: seq<BarRecord>)
    requires |df| == |bars|
    requires forall k :: 0 <= k < |bars| ==>
      df[k] == PartlyPlaced(bars, Distinct(Names(bars)), |Distinct(Names(bars))|, k)
    ensures Separate(df) == BarsLayout(bars, true)
  {
    var names := Distinct(Names(bars));
    assert names[..|names|] == names;
    forall k | 0 <= k < |bars|
      ensures Separate(df)[k] == BarsLayout(bars, true)[k]
    {
      assert bars[k].info.legendName in Names(bars);
    }
  }

  /** Error lengths of the bars: standard error for MeanAndSEM, the
      provided noise for provided, standard deviation otherwise. */
  function BarErrorSource(plotTypeData: Value): ErrorSource
  {
    var source := Sd;
    var source := if plotTypeData == Str("MeanAndSEM") then Sem else source;
    if plotTypeData == Str("provided") then ProvidedNoise else source
  }

  /** Bar plots and line plots choose their error bars by the same rule. */
  lemma BarErrorSourceAgrees(plotTypeData: Value)
    ensures BarErrorSource(plotTypeData) == ErrorSourceFor(plotTypeData)
  {
  }

  function ErrorLengths(df: seq<BarRecord>, plotTypeData: Value): (lengths: seq<real>)
    ensures |lengths| == |df|
    ensures forall k :: 0 <= k < |df| ==>
      lengths[k] == match ErrorSourceFor(plotTypeData)
        case Sd => df[k].sd
        case Sem => df[k].sem
        case ProvidedNoise => df[k].providedNoise
  {
    var source := BarErrorSource(plotTypeData);
    BarErrorSourceAgrees(plotTypeData);
    seq(|df|, k requires 0 <= k < |df| =>
      match source
      case Sd => df[k].sd
      case Sem => df[k].sem
      case ProvidedNoise => df[k].providedNoise)
  }

  class BarPlot {
    const base: PlotClass
    const simulationDf: Option<Frame>
    const barRows: seq<BarRow>
    var overview: seq<BarRecord>

    /** The bar rows of the measurement table and then of the simulation
        table, one per visualization row, enter already computed. */
    constructor(visualizationDf: Option<Frame>, simulationDf: Option<Frame>, barRows: seq<BarRow>, hasReplicates: bool)
      requires TitleReadable(visualizationDf)
      ensures this.simulationDf == simulationDf && this.barRows == barRows
      ensures fresh(base) && base.warnings == "" && base.disabledRows == {}
      ensures overview == BarsLayout(EnabledBars(barRows, {}), simulationDf.Some?)
    {
      base := new PlotClass(visualizationDf, hasReplicates);
      this.simulationDf := simulationDf;
      this.barRows := barRows;
      new;
      overview := GetBarsDf(barRows);
    }

    /** The error-bar lengths drawn over the overview: the error source is
        picked by the plot type of the first bar row. */
    function PlotErrorLengths(): (lengths: seq<real>)
      requires |barRows| > 0
      reads this
      ensures |lengths| == |overview|
      ensures forall k :: 0 <= k < |overview| ==>
        lengths[k] == match ErrorSourceFor(barRows[0].info.plotTypeData)
          case Sd => overview[k].sd
          case Sem => overview[k].sem
          case ProvidedNoise => overview[k].providedNoise
    {
      ErrorLengths(overview, barRows[0].info.plotTypeData)
    }

    /** The overview of the enabled bars. */
    method GetBarsDf(bars: seq<BarRow>) returns (df: seq<BarRecord>)
      ensures df == BarsLayout(EnabledBars(bars, base.disabledRows), simulationDf.Some?)
    {
      var kept := EnabledBars(bars, base.disabledRows);
      df := seq(|kept|, k requires 0 <= k < |kept| => Placed(kept[k], k as real));
      if simulationDf.Some? {
        var names := Distinct(Names(kept));
        for i := 0 to |names|
          invariant |df| == |kept|
          invariant forall k :: 0 <= k < |kept| ==> df[k] == PartlyPlaced(kept, names, i, k)
        {
          PlaceNameStep(kept, i, df);
          df := PlaceName(df, names[i], i);
        }
        AllPlaced(kept, df);
        df := Separate(df);
      }
    }

    /** Flips whether dataset `d` is disabled and recomputes the overview. */
    method AddOrRemoveLine(d: Value)
      modifies base`disabledRows, this`overview
      ensures base.disabledRows == Toggle(old(base.disabledRows), d)
      ensures overview == BarsLayout(EnabledBars(barRows, base.disabledRows), simulationDf.Some?)
    {
      base.ToggleDisabled(d);
      overview := GetBarsDf(barRows);
    }
  }
}
