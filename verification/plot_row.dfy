/** The x- and y-values a line plot draws for one visualization row (PlotRow). */
module PlotRows {
  import opened Tables
  import opened Utils
  import opened RowClass

  /** A RowClass together with its replicate groups. Whether the data holds
      replicates is decided outside the row and enters as a flag. */
  datatype PlotRow = PlotRow(info: RowInfo, replicates: seq<Frame>, hasReplicates: bool)

  function MakePlotRow(expData: Frame, spec: Row, conditionDf: Option<Frame>, hasReplicates: bool): (p: PlotRow)
    requires Constructible(expData, spec, conditionDf)
    ensures p.info == MakeRow(expData, spec, conditionDf)
    ensures p.replicates == ReplicateGroups(p.info.lineData)
    ensures p.hasReplicates == hasReplicates
  {
    var info := MakeRow(expData, spec, conditionDf);
    PlotRow(info, ReplicateGroups(info.lineData), hasReplicates)
  }

  /** The column holding the y-values: simulated or measured. */
  function YVariable(isSimulation: bool): string
  {
    if isSimulation then "simulation" else "measurement"
  }

  /** Adds an offset to every value. */
  function Shift(xs: seq<real>, offset: real): (ys: seq<real>)
    ensures |ys| == |xs|
    ensures forall k :: 0 <= k < |xs| ==> ys[k] == xs[k] + offset
  {
    seq(|xs|, k requires 0 <= k < |xs| => xs[k] + offset)
  }

  predicate TimePlot(p: PlotRow)
  {
    p.info.xVar == Str("time")
  }

  /** Concentration plots read the x column of the condition table; time
      plots read the time column of the first replicate. */
  predicate XDataReadable(p: PlotRow)
  {
    if TimePlot(p) then
      |p.replicates| > 0 && NumericColumn(p.replicates[0], "time")
    else
      p.info.conditionDf.Some? && p.info.xVar.Str? &&
      p.info.xVar.s in p.info.conditionDf.value.columns &&
      NumericColumn(p.info.conditionDf.value, p.info.xVar.s)
  }

  function FirstReplicateTimes(p: PlotRow): seq<real>
    requires TimePlot(p) && XDataReadable(p)
  {
    Numbers(p.replicates[0], "time")
  }

  /** The x-values of the line. */
  function XData(p: PlotRow): (xs: seq<real>)
    requires XDataReadable(p)
    ensures !TimePlot(p) ==> xs == Numbers(p.info.conditionDf.value, p.info.xVar.s)
    ensures TimePlot(p) && p.hasReplicates && p.info.plotTypeData != Str("replicate") ==>
      xs == Shift(Distinct(FirstReplicateTimes(p)), p.info.xOffset)
    ensures TimePlot(p) && !(p.hasReplicates && p.info.plotTypeData != Str("replicate")) ==>
      xs == Shift(FirstReplicateTimes(p), p.info.xOffset)
  {
    if !TimePlot(p) then
      Numbers(p.info.conditionDf.value, p.info.xVar.s)
    else
      var times := FirstReplicateTimes(p);
      var xs := if p.hasReplicates && p.info.plotTypeData != Str("replicate") then Distinct(times) else times;
      Shift(xs, p.info.xOffset)
  }

  /** For a time plot of mean values the x-values are pairwise distinct. */
  lemma XDataDistinctTimes(p: PlotRow)
    requires XDataReadable(p) && TimePlot(p)
    requires p.hasReplicates && p.info.plotTypeData != Str("replicate")
    ensures NoDuplicates(XData(p))
  {
    ShiftDistinct(FirstReplicateTimes(p), p.info.xOffset, XData(p));
  }

  /** The first-occurrence distinct values of `s`, shifted, are pairwise
      distinct, are exactly the shifted values of `s`, and keep their order. */
  lemma ShiftDistinct(s: seq<real>, offset: real, xs: seq<real>)
    requires xs == Shift(Distinct(s), offset)
    ensures NoDuplicates(xs)
    ensures forall x :: x in xs <==> x - offset in s
    ensures forall i, j :: 0 <= i < j < |xs| ==> FirstIndex(s, xs[i] - offset) < FirstIndex(s, xs[j] - offset)
  {
    var d := Distinct(s);
    ShiftUndo(d, offset);
    ShiftMembers(d, offset);
  }

  lemma ShiftUndo(d: seq<real>, offset: real)
    ensures forall k :: 0 <= k < |d| ==> Shift(d, offset)[k] - offset == d[k]
    ensures NoDuplicates(d) ==> NoDuplicates(Shift(d, offset))
  {
  }

  lemma ShiftMembers(d: seq<real>, offset: real)
    ensures forall x :: x in Shift(d, offset) <==> x - offset in d
  {
    var xs := Shift(d, offset);
    forall x | x in xs ensures x - offset in d {
      var k :| 0 <= k < |xs| && xs[k] == x;
      assert d[k] == x - offset;
    }
    forall x | x - offset in d ensures x in xs {
      var k :| 0 <= k < |d| && d[k] == x - offset;
      assert xs[k] == x;
    }
  }

  /** y-values of a plot of single replicates: the first replicate's values
      as they are, shifted by the y offset (no averaging). */
  function FirstReplicateYData(p: PlotRow): (ys: seq<real>)
    requires p.info.plotTypeData == Str("replicate")
    requires |p.replicates| > 0 && NumericColumn(p.replicates[0], YVariable(p.info.isSimulation))
    ensures |ys| == |p.replicates[0].rows|
    ensures forall k :: 0 <= k < |ys| ==>
      ys[k] == Cell(p.replicates[0].rows[k], YVariable(p.info.isSimulation)).r + p.info.yOffset
  {
    Shift(Numbers(p.replicates[0], YVariable(p.info.isSimulation)), p.info.yOffset)
  }

  /** Every replicate has a numeric column `col`. */
  predicate ReplicatesNumeric(p: PlotRow, col: string)
  {
    forall i :: 0 <= i < |p.replicates| ==>
      col in p.replicates[i].columns && NumericColumn(p.replicates[i], col)
  }

  /** The x-values of each replicate. Without a replicateId column every
      replicate gets the first replicate's distinct x-values. */
  method ReplicateXData(p: PlotRow) returns (xData: seq<seq<real>>)
    requires p.info.xVar.Str? && ReplicatesNumeric(p, p.info.xVar.s)
    ensures |xData| == |p.replicates|
    ensures "replicateId" !in p.info.lineData.columns ==>
      forall i :: 0 <= i < |xData| ==>
        xData[i] == Shift(Distinct(Numbers(p.replicates[0], p.info.xVar.s)), p.info.xOffset)
    ensures "replicateId" in p.info.lineData.columns ==>
      forall i :: 0 <= i < |xData| ==>
        |xData[i]| == |p.replicates[i].rows| &&
        forall k :: 0 <= k < |xData[i]| ==>
          xData[i][k] == Cell(p.replicates[i].rows[k], p.info.xVar.s).r + p.info.xOffset
  {
    var x := p.info.xVar.s;
    xData := [];
    for i := 0 to |p.replicates|
      invariant |xData| == i
      invariant "replicateId" !in p.info.lineData.columns ==>
        forall j :: 0 <= j < i ==> xData[j] == Shift(Distinct(Numbers(p.replicates[0], x)), p.info.xOffset)
      invariant "replicateId" in p.info.lineData.columns ==>
        forall j :: 0 <= j < i ==> xData[j] == Shift(Numbers(p.replicates[j], x), p.info.xOffset)
    {
      var xValues := Numbers(p.replicates[i], x);
      if "replicateId" !in p.info.lineData.columns {
        xValues := Distinct(Numbers(p.replicates[0], x));
      }
      xData := xData + [Shift(xValues, p.info.xOffset)];
    }
  }

  /** The y-values of each replicate, shifted by the y offset. */
  method ReplicateYData(p: PlotRow) returns (yData: seq<seq<real>>)
    requires ReplicatesNumeric(p, YVariable(p.info.isSimulation))
    ensures |yData| == |p.replicates|
    ensures forall i :: 0 <= i < |yData| ==>
      |yData[i]| == |p.replicates[i].rows| &&
      forall k :: 0 <= k < |yData[i]| ==>
        yData[i][k] == Cell(p.replicates[i].rows[k], YVariable(p.info.isSimulation)).r + p.info.yOffset
  {
    var variable := YVariable(p.info.isSimulation);
    yData := [];
    for i := 0 to |p.replicates|
      invariant |yData| == i
      invariant forall j :: 0 <= j < i ==> yData[j] == Shift(Numbers(p.replicates[j], variable), p.info.yOffset)
    {
      yData := yData + [Shift(Numbers(p.replicates[i], variable), p.info.yOffset)];
    }
  }
}
