/** The main window (MainWindow): its warning box, the choice of the
    displayed plot and the loading of a simulation table. */
module Window {
  import opened Tables
  import opened Text

  /** The warning box: the distinct messages in order of first report and
      how often each was reported. */
  datatype Registry = Registry(warnings: seq<string>, counter: map<string, nat>)

  /** Every message is listed once, the counter knows exactly the listed
      messages, and each was reported at least once. */
  ghost predicate RegistryValid(reg: Registry)
  {
    NoDuplicates(reg.warnings) &&
    (forall m :: m in reg.counter <==> m in reg.warnings) &&
    (forall m :: m in reg.counter ==> reg.counter[m] >= 1)
  }

  /** The registry after `message` is reported once more. */
  function Register(reg: Registry, message: string): (next: Registry)
    requires RegistryValid(reg)
    ensures RegistryValid(next)
    ensures message !in reg.warnings ==> next.warnings == reg.warnings + [message]
    ensures message in reg.warnings ==> next.warnings == reg.warnings
    ensures message in next.counter
    ensures next.counter[message] == (if message in reg.warnings then reg.counter[message] + 1 else 1)
    ensures forall m :: m != message && m in reg.counter ==> m in next.counter && next.counter[m] == reg.counter[m]
  {
    if message !in reg.warnings then
      Registry(reg.warnings + [message], reg.counter[message := 1])
    else
      Registry(reg.warnings, reg.counter[message := reg.counter[message] + 1])
  }

  /** The registry after reporting `messages` one by one to an empty box. */
  function RegisterAll(messages: seq<string>): (reg: Registry)
    ensures RegistryValid(reg)
  {
    if |messages| == 0 then Registry([], map[])
    else Register(RegisterAll(messages[..|messages| - 1]), messages[|messages| - 1])
  }

  /** The box lists each reported message once, in order of first report,
      and counts exactly how often it was reported. */
  lemma {:induction false} RegisterAllCounts(messages: seq<string>)
    ensures RegisterAll(messages).warnings == Distinct(messages)
    ensures forall m :: m in RegisterAll(messages).counter <==> m in messages
    ensures forall m :: m in messages ==> RegisterAll(messages).counter[m] == multiset(messages)[m]
  {
    if |messages| > 0 {
      var n := |messages| - 1;
      var before := RegisterAll(messages[..n]);
      RegisterAllCounts(messages[..n]);
      LastWarning(messages, before);
      LastCount(messages, before);
    }
  }

  lemma LastWarning(messages: seq<string>, before: Registry)
    requires |messages| > 0 && RegistryValid(before)
    requires before.warnings == Distinct(messages[..|messages| - 1])
    ensures Register(before, messages[|messages| - 1]).warnings == Distinct(messages)
  {
  }

  lemma LastCount(messages: seq<string>, before: Registry)
    requires |messages| > 0 && RegistryValid(before)
    requires forall m :: m in before.counter <==> m in messages[..|messages| - 1]
    requires forall m :: m in messages[..|messages| - 1] ==> before.counter[m] == multiset(messages[..|messages| - 1])[m]
    ensures forall m :: m in Register(before, messages[|messages| - 1]).counter <==> m in messages
    ensures forall m :: m in messages ==>
      Register(before, messages[|messages| - 1]).counter[m] == multiset(messages)[m]
  {
    var n := |messages| - 1;
    assert messages == messages[..n] + [messages[n]];
    assert multiset(messages) == multiset(messages[..n]) + multiset{messages[n]};
    forall m | m in messages
      ensures m in messages[..n] || m == messages[n]
    {
    }
    forall m | m !in messages[..n]
      ensures multiset(messages[..n])[m] == 0
    {
    }
  }

  /** What follows a message reported `count` times. */
  function CountSuffix(count: nat): (suffix: string)
    ensures suffix == " (occured " + NatToString(count) + " times)"
    ensures NoNewline(suffix)
  {
    NatToStringNoNewline(count);
    var suffix := " (occured " + NatToString(count) + " times)";
    assert forall c :: c in suffix ==> c in " (occured " || c in NatToString(count) || c in " times)";
    suffix
  }

  /** One line of the warning box. */
  function Rendered(warning: string, count: nat): (line: string)
    ensures count <= 1 ==> line == warning
    ensures count > 1 ==> line == warning + " (occured " + NatToString(count) + " times)"
    ensures NoNewline(warning) ==> NoNewline(line)
  {
    if count <= 1 then warning
    else
      var suffix := CountSuffix(count);
      assert forall c :: c in warning + suffix ==> c in warning || c in suffix;
      warning + suffix
  }

  /** The lines of the warning box, one per message in list order. */
  function Lines(reg: Registry): (lines: seq<string>)
    requires forall m :: m in reg.warnings ==> m in reg.counter
    ensures |lines| == |reg.warnings|
    ensures forall i :: 0 <= i < |lines| ==> lines[i] == Rendered(reg.warnings[i], reg.counter[reg.warnings[i]])
  {
    seq(|reg.warnings|, i requires 0 <= i < |reg.warnings| => Rendered(reg.warnings[i], reg.counter[reg.warnings[i]]))
  }

  /** The text of the warning box: one line per message in list order,
      with the number of reports appended to messages reported more than
      once. Read back on newlines, it gives the pieces of each line in turn;
      when no message holds a newline, those are exactly the lines. */
  function WarningsToString(reg: Registry): (text: string)
    requires forall m :: m in reg.warnings ==> m in reg.counter
    ensures |reg.warnings| == 0 ==> text == ""
    ensures |reg.warnings| >= 1 ==> Split(text) == SplitAll(Lines(reg))
    ensures |reg.warnings| >= 1 && (forall i :: 0 <= i < |reg.warnings| ==> NoNewline(reg.warnings[i])) ==>
      Split(text) == Lines(reg)
  {
    var lines := Lines(reg);
    if |lines| >= 1 then
      SplitJoinAll(lines);
      if forall i :: 0 <= i < |reg.warnings| ==> NoNewline(reg.warnings[i]) then
        assert forall i :: 0 <= i < |lines| ==> NoNewline(lines[i]);
        SplitAllSingles(lines);
        Join(lines)
      else
        Join(lines)
    else
      Join(lines)
  }

  /** Read back on newlines, the line of a message reported once gives the
      message's own pieces; for a message reported more than once the count
      follows its last piece. */
  lemma WarningsToStringLines(reg: Registry, i: nat)
    requires forall m :: m in reg.warnings ==> m in reg.counter
    requires i < |reg.warnings|
    ensures reg.counter[reg.warnings[i]] <= 1 ==> Split(Lines(reg)[i]) == Split(reg.warnings[i])
    ensures reg.counter[reg.warnings[i]] > 1 ==>
      var pieces := Split(reg.warnings[i]);
      Split(Lines(reg)[i]) ==
        pieces[..|pieces| - 1] +
        [pieces[|pieces| - 1] + " (occured " + NatToString(reg.counter[reg.warnings[i]]) + " times)"]
  {
    var w := reg.warnings[i];
    var count := reg.counter[w];
    if count > 1 {
      var suffix := CountSuffix(count);
      assert Lines(reg)[i] == w + suffix;
      SplitAppend(w, suffix);
      var last := Split(w)[|Split(w)| - 1];
      assert last + suffix == last + " (occured " + NatToString(count) + " times)";
    }
  }

  /** A plot forwards its whole warning text, which ends in a newline; when
      that text is reported again, its count stands on a line of its own. */
  lemma ForwardedCountOnOwnLine(text: string, count: nat)
    requires count > 1
    ensures var pieces := Split(Rendered(text + "\n", count));
      pieces == Split(text) + [" (occured " + NatToString(count) + " times)"]
  {
    var w := text + "\n";
    var suffix := CountSuffix(count);
    assert Rendered(w, count) == w + suffix;
    SplitAppend(w, suffix);
    assert w == text + "\n" + "";
    SplitNewline(text, "");
    assert Split(w) == Split(text) + [""];
    assert "" + suffix == suffix;
  }

  /** Keys the window reacts to. */
  datatype Key = Up | Down | Left | Right | KeyQ | OtherKey

  /** The plot index an arrow key asks for, if any. */
  function Requested(index: int, key: Key): Option<int>
  {
    match key
    case Up => Some(index - 1)
    case Left => Some(index - 1)
    case Down => Some(index + 1)
    case Right => Some(index + 1)
    case _ => None
  }

  /** The displayed plot index after pressing `key`: the requested index
      when it names one of the `plotCount` plots, the old one otherwise. */
  function Navigate(index: int, plotCount: nat, key: Key): (next: int)
    ensures 0 <= index < plotCount ==> 0 <= next < plotCount
    ensures next != index <==> Requested(index, key).Some? && 0 <= Requested(index, key).value < plotCount
    ensures key in {Up, Left} && next != index ==> next == index - 1
    ensures key in {Down, Right} && next != index ==> next == index + 1
  {
    match Requested(index, key)
    case Some(i) => if 0 <= i < plotCount then i else index
    case None => index
  }

  /** No sequence of key presses moves the index off the list of plots. */
  lemma {:induction false} NavigateStaysInRange(index: int, plotCount: nat, keys: seq<Key>)
    requires 0 <= index < plotCount
    ensures 0 <= NavigateAll(index, plotCount, keys) < plotCount
    decreases |keys|
  {
    if |keys| > 0 {
      NavigateStaysInRange(Navigate(index, plotCount, keys[0]), plotCount, keys[1..]);
    }
  }

  function NavigateAll(index: int, plotCount: nat, keys: seq<Key>): int
    decreases |keys|
  {
    if |keys| == 0 then index else NavigateAll(Navigate(index, plotCount, keys[0]), plotCount, keys[1..])
  }

  /** Going past the last plot does not wrap to the first, and going
      before the first does not wrap to the last. */
  lemma NoWrapAround(plotCount: nat)
    requires plotCount >= 1
    ensures Navigate(plotCount - 1, plotCount, Down) == plotCount - 1
    ensures Navigate(plotCount - 1, plotCount, Right) == plotCount - 1
    ensures Navigate(0, plotCount, Up) == 0
    ensures Navigate(0, plotCount, Left) == 0
  {
  }

  /** The frame without column `col`. */
  function DropColumn(f: Frame, col: string): (g: Frame)
    ensures g.columns == f.columns - {col}
    ensures |g.rows| == |f.rows|
    ensures forall k :: 0 <= k < |f.rows| ==>
      col !in g.rows[k] && forall c :: c != col ==> Cell(g.rows[k], c) == Cell(f.rows[k], c)
  {
    Frame(f.columns - {col}, seq(|f.rows|, k requires 0 <= k < |f.rows| => f.rows[k] - {col}))
  }

  /** The simulation table as it is stored: its replicateId column is
      dropped when the measurement table has none, as replicates could not
      be matched otherwise. */
  function SimulationTable(expData: Frame, simData: Frame): (sim: Frame)
    ensures "replicateId" in sim.columns <==> "replicateId" in simData.columns && "replicateId" in expData.columns
    ensures forall c :: c != "replicateId" ==> (c in sim.columns <==> c in simData.columns)
    ensures |sim.rows| == |simData.rows|
    ensures forall k, c :: 0 <= k < |sim.rows| && c != "replicateId" ==> Cell(sim.rows[k], c) == Cell(simData.rows[k], c)
  {
    if "replicateId" !in expData.columns && "replicateId" in simData.columns then DropColumn(simData, "replicateId")
    else simData
  }

  const MultipleMeasurementFilesWarning: string :=
    "Not Implemented Error: Loading a simulation file with multiple measurement files is currently not supported."

  class MainWindow {
    var warnings: seq<string>
    var warningCounter: map<string, nat>
    var currentListIndex: int
    var simulationDf: Option<Frame>
    const expData: Frame
    const measurementFileCount: nat
    const plotCount: nat

    ghost predicate Valid()
      reads this
    {
      RegistryValid(Registry(warnings, warningCounter))
    }

    /** `plotCount` is the number of plots built from the loaded tables and
        `measurementFileCount` the number of measurement files the problem
        lists. */
    constructor(expData: Frame, measurementFileCount: nat, plotCount: nat)
      ensures Valid()
      ensures warnings == [] && warningCounter == map[] && currentListIndex == 0 && simulationDf == None
      ensures this.expData == expData && this.measurementFileCount == measurementFileCount
      ensures this.plotCount == plotCount
    {
      warnings := [];
      warningCounter := map[];
      currentListIndex := 0;
      simulationDf := None;
      this.expData := expData;
      this.measurementFileCount := measurementFileCount;
      this.plotCount := plotCount;
    }

    method AddWarning(message: string)
      requires Valid()
      modifies this`warnings, this`warningCounter
      ensures Valid()
      ensures Registry(warnings, warningCounter) == Register(old(Registry(warnings, warningCounter)), message)
    {
      if message !in warnings {
        warnings := warnings + [message];
        warningCounter := warningCounter[message := 1];
      } else {
        warningCounter := warningCounter[message := warningCounter[message] + 1];
      }
    }

    /** Shows plot `i` if there is one; -1 (a cleared list) and other
        out-of-range indexes change nothing. */
    method IndexChanged(i: int)
      modifies this`currentListIndex
      ensures 0 <= i < plotCount ==> currentListIndex == i
      ensures !(0 <= i < plotCount) ==> currentListIndex == old(currentListIndex)
    {
      if 0 <= i < plotCount {
        currentListIndex := i;
      }
    }

    /** Ctrl+Q quits; the arrow keys move through the plots. */
    method KeyPressEvent(key: Key, ctrl: bool) returns (quit: bool)
      modifies this`currentListIndex
      ensures quit <==> ctrl && key == KeyQ
      ensures quit ==> currentListIndex == old(currentListIndex)
      ensures !quit ==> currentListIndex == Navigate(old(currentListIndex), plotCount, key)
    {
      if ctrl && key == KeyQ {
        return true;
      }
      quit := false;
      if key == Up || key == Left {
        IndexChanged(currentListIndex - 1);
      }
      if key == Down || key == Right {
        IndexChanged(currentListIndex + 1);
      }
    }

    /** Stores a simulation table, unless the problem has several
        measurement files, in which case only a warning is shown. */
    method AddSimulationTable(simData: Frame)
      requires Valid()
      modifies this`simulationDf, this`warnings, this`warningCounter
      ensures Valid()
      ensures measurementFileCount > 1 ==>
        simulationDf == old(simulationDf) &&
        Registry(warnings, warningCounter) ==
          Register(old(Registry(warnings, warningCounter)), MultipleMeasurementFilesWarning)
      ensures measurementFileCount <= 1 ==>
        simulationDf == Some(SimulationTable(expData, simData)) &&
        warnings == old(warnings) && warningCounter == old(warningCounter)
    {
      var sim := simData;
      if "replicateId" !in expData.columns && "replicateId" in sim.columns {
        sim := DropColumn(sim, "replicateId");
      }
      if measurementFileCount > 1 {
        AddWarning(MultipleMeasurementFilesWarning);
      } else {
        simulationDf := Some(sim);
      }
    }
  }
}
