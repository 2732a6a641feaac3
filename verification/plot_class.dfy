/** State shared by line plots and bar plots (PlotClass): the warning text,
    the set of disabled dataset ids, the title and the plot. */
module PlotBase {
  import opened Tables
  import opened Text
  import opened Utils
  import opened DottedLines

  /** The warning text after reporting `message`: unchanged when the message
      already occurs in it, otherwise the message appended on a line of its own. */
  function AppendWarning(warnings: string, message: string): (updated: string)
    ensures Contains(updated, message)
    ensures warnings <= updated
    ensures Contains(warnings, message) ==> updated == warnings
    ensures !Contains(warnings, message) ==> updated == warnings + message + "\n"
  {
    if Contains(warnings, message) then warnings
    else
      ContainsInfix(warnings, message, "\n");
      warnings + message + "\n"
  }

  /** Reporting the same message twice is the same as reporting it once. */
  lemma AppendWarningIdempotent(warnings: string, message: string)
    ensures AppendWarning(AppendWarning(warnings, message), message) == AppendWarning(warnings, message)
  {
  }

  /** A message stays reported whatever is reported after it. */
  lemma AppendWarningKeeps(warnings: string, earlier: string, later: string)
    requires Contains(warnings, earlier)
    ensures Contains(AppendWarning(warnings, later), earlier)
  {
    if !Contains(warnings, later) {
      ContainsAppend(warnings, earlier, later + "\n");
      assert warnings + (later + "\n") == warnings + later + "\n";
    }
  }

  /** The disabled set after the user clicks dataset `d`: it flips membership. */
  function Toggle(disabled: set<Value>, d: Value): (toggled: set<Value>)
    ensures d in toggled <==> d !in disabled
    ensures forall e :: e != d ==> (e in toggled <==> e in disabled)
  {
    if d in disabled then disabled - {d} else disabled + {d}
  }

  lemma ToggleTwice(disabled: set<Value>, d: Value)
    ensures Toggle(Toggle(disabled, d), d) == disabled
  {
  }

  class PlotClass {
    var warnings: string
    var disabledRows: set<Value>
    const hasReplicates: bool
    const plotTitle: Value
    const plot: PlotItem

    /** `hasReplicates` is what the PEtab library reports for the data table. */
    constructor(visualizationDf: Option<Frame>, hasReplicates: bool)
      requires TitleReadable(visualizationDf)
      ensures warnings == "" && disabledRows == {}
      ensures this.hasReplicates == hasReplicates
      ensures plotTitle == PlotTitle(visualizationDf)
      ensures fresh(plot) && plot.items == {}
    {
      warnings := "";
      disabledRows := {};
      this.hasReplicates := hasReplicates;
      plotTitle := PlotTitle(visualizationDf);
      plot := new PlotItem();
    }

    method AddWarning(message: string)
      modifies this`warnings
      ensures warnings == AppendWarning(old(warnings), message)
    {
      if !Contains(warnings, message) {
        warnings := warnings + message + "\n";
      }
    }

    method ToggleDisabled(d: Value)
      modifies this`disabledRows
      ensures disabledRows == Toggle(old(disabledRows), d)
    {
      if d in disabledRows {
        disabledRows := disabledRows - {d};
      } else {
        disabledRows := disabledRows + {d};
      }
    }
  }
}
