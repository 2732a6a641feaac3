# petabvis core in Dafny

petabvis is a viewer for PEtab parameter-estimation problems. It reads a
measurement table, an optional visualization table, an optional simulation
table and a condition table, and draws one plot per plotId: line plots
(`VisSpecPlot`, one `DottedLine` per visualization row) or bar plots
(`BarPlot`). It also shows the tables themselves, highlighting the rows of
the plot on screen, and it collects warnings in a text box.

This project models the logic behind these views. Tables are `Frame`s: a set
of column names and a sequence of rows, each row a map from column name to
`Value` (`Str`, `Num` or `Null`, where `Null` stands for pandas' NaN and
equals nothing under `Same`, which models `==`). The modules are:

- `Tables`, `Text`: table and string vocabulary, including first-occurrence
  `Distinct`, sorted `Unique`, `Keep`/`Where` filters and newline splitting.
- `Utils` (`petabvis/utils.py`): the getters that read a visualization row
  with their defaults, the plot title, the reduction of the condition table,
  the replicate split, the plot list of the drop-down and the R² guard.
- `RowClass`, `PlotRows` (`row_class.py`, `plot_row.py`): the measurements a
  visualization row selects and the x- and y-values drawn for it.
- `DottedLines` (`dotted_line.py`): a class whose fields hold a line's
  curves, error bars and fill-between items, and a plot that holds a set of
  graphics items.
- `PlotBase`, `VisSpecPlots`, `BarPlots` (`plot_class.py`,
  `vis_spec_plot.py`, `bar_plot.py`): warnings, the disabled datasets, the
  overview, the lines of a plot, switching a dataset on and off, and the
  bar layout.
- `Window` (`main.py`): the de-duplicated, counted warning list, plot
  navigation and the loading of a simulation table.
- `TableModels` (`table_models.py`): cell edits on an `array2`, the checkbox
  column, item flags and row highlighting with its cache.

Python exceptions (a missing column, an empty table indexed at row 0) become
preconditions. Integers and counters are unbounded, as in Python.

## Model

| member | source | states |
|---|---|---|
| Utils.LegendName | petabvis/utils.py:13-27 | legendEntry when present, else datasetId when present, else "" |
| Utils.XVar | petabvis/utils.py:30-43 | xValues when present, else "time" |
| Utils.YVar | petabvis/utils.py:55-68 | yValues when present, else "" |
| Utils.XOffset | petabvis/utils.py:71-85 | the numeric xOffset when present, else 0 |
| Utils.XScale | petabvis/utils.py:88-103 | xScale when present, else "lin" |
| Utils.YScale | petabvis/utils.py:106-120 | yScale when present, else "lin" |
| Utils.YOffset | petabvis/utils.py:123-137 | the numeric yOffset when present, else 0 |
| Utils.XLabel | petabvis/utils.py:140-154 | an explicit xLabel wins; otherwise the x variable, which is "time" when xValues is absent too |
| Utils.YLabel | petabvis/utils.py:157-171 | yLabel when present, else "measurement" |
| Utils.DatasetId | petabvis/utils.py:174-188 | datasetId when present, else "" |
| Utils.PlotTypeData | petabvis/utils.py:191-203 | plotTypeData when present, else "MeanAndSD" |
| Utils.PlotTitle | petabvis/utils.py:231-248 | plotName of the first row if that column exists, else its plotId, else ""; "" without a table |
| Utils.ReduceConditionDf | petabvis/utils.py:206-228 | keeps exactly the condition rows whose id occurs among the line data's simulationConditionId values, in table order, each as many times as in the condition table, with the same columns |
| Utils.SplitReplicates | petabvis/utils.py:336-357 | the loop builds exactly the replicate groups of `ReplicateGroups`: one frame per distinct replicateId in ascending order, or the line data alone without that column |
| Utils.ReplicateGroupsById | petabvis/utils.py:350-357 | group i holds exactly the rows whose replicateId is the i-th smallest id |
| Utils.SplitReplicatesPartition | petabvis/utils.py:350-357 | the groups together hold every input row exactly as often as the input (a partition), when no replicateId is NaN |
| Utils.CboxItems | petabvis/utils.py:360-390 | with plotName: distinct names in first-occurrence order, plus a warning iff the number of distinct ids differs; else the sorted distinct plotIds; without a visualization table the distinct observableIds in first-occurrence order |
| Utils.RSquared | petabvis/utils.py:409-418 | 0 when either input is empty, so the regression is never asked to fit an empty input |
| RowClass.LineData | petabvis/row_class.py:11-42 | the measurement rows that match the row's datasetId and observable, in order, each as many times as in the table, with all columns; everything when neither filter applies |
| RowClass.MakeRow | petabvis/row_class.py:11-42 | every field is the matching getter; isSimulation iff the table has a simulation column; the condition table is reduced iff it is given and the x variable is not time, keeping exactly the conditions the line uses, in table order and each as many times as it occurs |
| RowClass.EmptySpecDefaults | petabvis/utils.py:30-203 | a visualization row with no columns yields all defaults together |
| PlotRows.MakePlotRow | petabvis/plot_row.py:22-32 | a plot row's replicates are the replicate groups of its line data |
| PlotRows.XData | petabvis/plot_row.py:34-52 | concentration plots read the condition table's x column; time plots read the first replicate's times, made distinct for mean plots of replicated data, shifted by the x offset |
| PlotRows.XDataDistinctTimes | petabvis/plot_row.py:44-50 | for mean plots the x-values are pairwise distinct |
| PlotRows.ShiftDistinct | petabvis/plot_row.py:44-50 | the shifted distinct time points (what XData returns for mean plots) are pairwise distinct, are exactly the shifted time points, and keep the order in which the times first occur |
| PlotRows.FirstReplicateYData | petabvis/plot_row.py:54-66 | replicate plots draw the first replicate's values unaveraged, each plus the y offset |
| PlotRows.ReplicateXData | petabvis/plot_row.py:68-90 | one array per replicate; without a replicateId column each is the first replicate's distinct x-values, else that replicate's own values, each plus the x offset |
| PlotRows.ReplicateYData | petabvis/plot_row.py:92-105 | one array per replicate, as long as the replicate, each value plus the y offset |
| DottedLines.ErrorSourceFor | petabvis/dotted_line.py:153-170 | standard error iff MeanAndSEM, provided noise iff provided, standard deviation otherwise |
| DottedLines.Suffixed | petabvis/dotted_line.py:51-54 | a simulated line's key is its dataset id followed by "_simulation"; a measured line keeps its id |
| DottedLines.SuffixedInjective | petabvis/dotted_line.py:51-54 | distinct simulated dataset ids get distinct keys |
| DottedLines.LineCount | petabvis/dotted_line.py:76-138 | one curve per replicate for replicate plots of replicated data, one curve otherwise |
| DottedLines.NewCurves | petabvis/dotted_line.py:76-138 | only the first new curve carries the legend; all carry the line's symbol |
| DottedLines.DecorationsExclusive | petabvis/dotted_line.py:56-62 | a line never gets both error bars and a fill-between, and replicate curves get neither |
| DottedLines.DottedLine.constructor | petabvis/dotted_line.py:16-38 | no items, black, dash-dot, default width and point size |
| DottedLines.DottedLine.Initialize | petabvis/dotted_line.py:64-74 | takes the given curves and error bars; simulated lines get the suffixed id and a solid style |
| DottedLines.DottedLine.InitializeFromPlotRow | petabvis/dotted_line.py:40-62 | appends the row's curves, its fill-between when wanted and its error bars when wanted; suffixes simulated ids |
| DottedLines.DottedLine.GenerateLine | petabvis/dotted_line.py:76-138 | appends exactly `LineCount` curves and a fill-between for replicate plots without replicateId |
| DottedLines.DottedLine.AddFillBetween | petabvis/dotted_line.py:140-151 | appends one fill-between item |
| DottedLines.DottedLine.AddErrorBars | petabvis/dotted_line.py:153-170 | appends one error bar built from the source `ErrorSourceFor` picks |
| DottedLines.DottedLine.EnableInPlot | petabvis/dotted_line.py:241-252 | the plot gains exactly the line's curves and fills, and its error bars when asked |
| DottedLines.DottedLine.DisableInPlot | petabvis/dotted_line.py:254-264 | the plot loses exactly the line's items and keeps every other item |
| DottedLines.DottedLine.LineColor | petabvis/dotted_line.py:333-343 | black when the line has a fill-between, its own colour otherwise |
| DottedLines.ShownWithErrorBars | petabvis/dotted_line.py:241-252 | shown with error bars, a line shows every one of its items |
| DottedLines.DisableThenEnable | petabvis/dotted_line.py:241-264 | `DisableInPlot` then `EnableInPlot` with error bars leaves the plot with its earlier items plus all of the line's items |
| PlotBase.AppendWarning | petabvis/plot_class.py:98-107 | the message occurs in the result; the old text is a prefix; unchanged if the message already occurs, else the message and a newline are appended |
| PlotBase.AppendWarningIdempotent | petabvis/plot_class.py:98-107 | reporting a message twice equals reporting it once |
| PlotBase.AppendWarningKeeps | petabvis/plot_class.py:98-107 | a reported message stays in the text after later reports |
| PlotBase.Toggle | petabvis/vis_spec_plot.py:370-392 | clicking a dataset flips its membership in the disabled set and no other |
| PlotBase.ToggleTwice | petabvis/vis_spec_plot.py:370-392 | two clicks restore the disabled set |
| PlotBase.PlotClass.constructor | petabvis/plot_class.py:34-50 | warnings start empty, nothing disabled, title from the visualization table, empty plot |
| PlotBase.PlotClass.AddWarning | petabvis/plot_class.py:98-107 | the new text is `AppendWarning` of the old |
| PlotBase.PlotClass.ToggleDisabled | petabvis/vis_spec_plot.py:370-374 | the disabled set becomes `Toggle` of the old |
| VisSpecPlots.EnabledRows | petabvis/vis_spec_plot.py:102-104 | exactly the plot rows whose dataset id is not disabled, in order, each as many times as it occurs |
| VisSpecPlots.OverviewOf | petabvis/vis_spec_plot.py:88-107 | the `EnabledRows` of the measurement rows then the simulation rows (membership, order and multiplicity); empty with fixed columns iff there is no datasetId column or nothing remains |
| VisSpecPlots.DefaultLineName | petabvis/vis_spec_plot.py:242-260 | the group id, then "_" and the observable when one is named, then " simulation" for simulated data |
| VisSpecPlots.VisSpecPlot.constructor | petabvis/vis_spec_plot.py:30-52 | stores the tables; empty rows, lines, registry and overview |
| VisSpecPlots.GeneratePlotRows | petabvis/vis_spec_plot.py:109-123 | the loop builds exactly `PlotRowsOf`: one plot row per visualization row, row i made by `MakePlotRow` from visualization row i, or none without both tables |
| VisSpecPlots.VisSpecPlot.DefaultGroups | petabvis/vis_spec_plot.py:224-242 | the sorted distinct values of the grouping column: datasetId when present, else simulationConditionId |
| VisSpecPlots.NewDefaultLine | petabvis/vis_spec_plot.py:273-281 | a fresh line with one curve of the given name and symbol, one standard-deviation error bar, the group's (suffixed) id and no plot row |
| VisSpecPlots.GroupLines | petabvis/vis_spec_plot.py:232-284 | one fresh default line per distinct grouping value, in ascending order, named by `DefaultLineName`; none for an empty table; callable only on a table with a time column and, once it has rows, a y column (`DefaultPlottable`), as lines 240 and 244 read them |
| VisSpecPlots.VisSpecPlot.DefaultPlot | petabvis/vis_spec_plot.py:206-284 | `DefaultLines`: one fresh line per group of `DefaultGroups` in sorted order, with its curve, error bar and name; none for an empty table; the grouping warning is added iff the measurement table has no datasetId column; the table drawn must have a time column and, once it has rows, a y column (`DefaultReady`), as lines 240 and 244 read them |
| VisSpecPlots.VisSpecPlot.PlotRowToDottedLine | petabvis/vis_spec_plot.py:192-204 | a fresh line built from the row, registered under its (suffixed) dataset id |
| VisSpecPlots.VisSpecPlot.RowDottedLines | petabvis/vis_spec_plot.py:137-146 | `RowLines`: a row without dataset id gives the default lines, a disabled id no line, any other row exactly one line built from the row; the grouping warning is added iff the row uses the default plot and there is no datasetId column; the registry gains exactly that one line under its key |
| VisSpecPlots.VisSpecPlot.RowLinesKeys | petabvis/vis_spec_plot.py:137-146 | the lines of one row carry the row's keys |
| VisSpecPlots.VisSpecPlot.WarningsAppend | petabvis/vis_spec_plot.py:226-229 | reporting the grouping warning row by row gives the same text as reporting it once for all rows that call for it |
| VisSpecPlots.VisSpecPlot.GeneratedAppend | petabvis/vis_spec_plot.py:138-145 | one more row's lines, warning and registration extend the loop's progress (warnings and registry of the first i rows) to i + 1 rows |
| VisSpecPlots.VisSpecPlot.AppendRowLines | petabvis/vis_spec_plot.py:138-145 | one loop step: the earlier lines stay as they are, the row's fresh lines follow them, every row so far keeps its `RowLines`, and the progress reaches i + 1 rows |
| VisSpecPlots.VisSpecPlot.GenerateDottedLines | petabvis/vis_spec_plot.py:125-146 | the lines are each row's `RowLines` in row order, all fresh; the grouping warning is added iff some row calls for it; the registry becomes the old one plus `Registrations` of the rows; every key still names its own line |
| VisSpecPlots.VisSpecPlot.LinesKeys | petabvis/vis_spec_plot.py:125-146 | the generated lines carry the rows' expected keys, in order |
| VisSpecPlots.RegistrationsKeys | petabvis/vis_spec_plot.py:192-204 | the registry holds exactly the earlier keys and the keys of the enabled rows with a dataset id; default lines are never registered |
| VisSpecPlots.RegistrationsValues | petabvis/vis_spec_plot.py:192-204 | a key no row registers keeps its earlier line; a registered key holds the line of the last row that registers it |
| VisSpecPlots.VisSpecPlot.DecideErrorBars | petabvis/vis_spec_plot.py:168-176 | error bars iff the first row is not on a log scale or is a replicate plot; otherwise the log-scale warning naming the title is added |
| VisSpecPlots.VisSpecPlot.GeneratePlot | petabvis/vis_spec_plot.py:155-176 | with plot rows the lines are kept; without, the default lines (names with the first observable) replace them, and the simulation lines too when there is simulated data; error bars as `ErrorBarsAllowed` decides; the grouping warning at most once, then the log-scale warning when error bars are dropped |
| VisSpecPlots.VisSpecPlot.EnableLine | petabvis/vis_spec_plot.py:405-414 | the plot gains the line's items, error bars included |
| VisSpecPlots.VisSpecPlot.DisableLine | petabvis/vis_spec_plot.py:394-403 | the plot loses all the line's items |
| VisSpecPlots.VisSpecPlot.AddOrRemoveLine | petabvis/vis_spec_plot.py:370-392 | flips the dataset in the disabled set; re-enables or removes its line, and its simulation line when simulated data exists |
| BarPlots.EnabledBars | petabvis/bar_plot.py:84 | exactly the bars whose dataset id is not disabled, in order, each as many times as it occurs |
| BarPlots.BarsLayout | petabvis/bar_plot.py:73-115 | one record per bar carrying its values; without simulated data bar k stands at k; with it every bar sits half a bar width left (measured) or right (simulated) of its tick |
| BarPlots.PairedBarsShareTick | petabvis/bar_plot.py:98-108 | bars with the same name share a tick, the index of that name among the distinct names in order of first appearance |
| BarPlots.PairedBarsSeparated | petabvis/bar_plot.py:110-113 | a measured and a simulated bar of the same name stand exactly one bar width apart |
| BarPlots.BarErrorSourceAgrees | petabvis/bar_plot.py:139-143 | bar plots choose their error lengths by the same rule as line plots |
| BarPlots.ErrorLengths | petabvis/bar_plot.py:139-143 | each bar's error length is its sd, sem or provided noise as `ErrorSourceFor` picks |
| BarPlots.BarPlot.PlotErrorLengths | petabvis/bar_plot.py:138-142 | one error length per overview record, sd, sem or provided noise as the first bar row's plot type picks |
| BarPlots.BarPlot.constructor | petabvis/bar_plot.py:27-44 | nothing disabled and the overview of all bars |
| BarPlots.BarPlot.GetBarsDf | petabvis/bar_plot.py:73-115 | the filter, the placement loop over the distinct names and the shift produce exactly `BarsLayout` of the enabled bars |
| BarPlots.BarPlot.AddOrRemoveLine | petabvis/bar_plot.py:159-174 | flips the dataset in the disabled set and recomputes the overview from the new set |
| Window.Register | petabvis/main.py:252-264 | a new message is appended with count 1; a known one keeps the list and gains 1; other counts are unchanged; the registry stays valid (no duplicates, keys are the listed messages, counts at least 1) |
| Window.RegisterAllCounts | petabvis/main.py:252-264 | after any sequence of reports the list is the distinct messages in order of first report and each count is the number of reports |
| Window.Rendered | petabvis/main.py:274-277 | a message reported once is shown alone; otherwise it is followed by " (occured N times)"; no newline is introduced |
| Window.WarningsToString | petabvis/main.py:266-277 | an empty list gives ""; otherwise splitting the text on newlines gives back exactly the rendered lines, one per message in list order |
| Window.WarningsToStringLines | petabvis/main.py:266-277 | read back on newlines, line i gives message i's own pieces when reported once; otherwise " (occured N times)" follows its last piece |
| Window.ForwardedCountOnOwnLine | petabvis/main.py:259-277 | a warning text ending in a newline, reported more than once, is shown as its own pieces followed by the count on a line of its own |
| Window.Navigate | petabvis/main.py:226-247 | Up/Left move to index-1, Down/Right to index+1, only when that names a plot; the index never leaves the range of plots |
| Window.NavigateStaysInRange | petabvis/main.py:240-247 | no sequence of key presses leaves the range of plots |
| Window.NoWrapAround | petabvis/main.py:240-247 | moving past the last or before the first plot stays put |
| Window.SimulationTable | petabvis/main.py:152-154 | the replicateId column is kept iff both tables have one; all other columns and cells are unchanged |
| Window.MainWindow.constructor | petabvis/main.py:44-89 | the field initialisation: no warnings, an empty counter, index 0, no simulation table |
| Window.MainWindow.AddWarning | petabvis/main.py:252-264 | the list and counter become `Register` of the old ones and stay valid |
| Window.MainWindow.IndexChanged | petabvis/main.py:208-224 | the index becomes i iff 0 <= i < number of plots; otherwise nothing changes |
| Window.MainWindow.KeyPressEvent | petabvis/main.py:226-247 | Ctrl+Q quits without other change; otherwise the index moves as `Navigate` says |
| Window.MainWindow.AddSimulationTable | petabvis/main.py:152-162 | with several measurement files only the warning is added; otherwise the table (without a stray replicateId column) is stored and the storing step adds no warning |
| TableModels.BaseData | petabvis/table_models.py:42-54 | text for display, white background, right alignment, nothing otherwise |
| TableModels.VisFlags | petabvis/table_models.py:72-81 | an invalid index has no flags; a cell is editable and checkable iff it is in column 0; valid cells are always enabled and selectable |
| TableModels.PetabTableModel.SetData | petabvis/table_models.py:21-25 | writes the one cell, reports success, leaves every other cell unchanged |
| TableModels.VisData | petabvis/table_models.py:83-94 | a row is yellow iff its plotId equals the shown plot's id, white otherwise; other roles as the plain table |
| TableModels.CachedIds | petabvis/table_models.py:134-144 | the distinct values of a column among the plot's visualization rows, in order of first appearance; empty without that column |
| TableModels.MeasurementTableModel.Refresh | petabvis/table_models.py:134-144 | the id lists are recomputed only when the plot id changed, a list whose column the table lacks keeping its old value; the cache stays valid for a table it was valid for, and then afterwards belongs to the plot shown; a cache filled from an earlier table stays as it was while the same plot id is shown |
| TableModels.MeasurementTableModel.Data | petabvis/table_models.py:113-159 | default plots highlight the rows of the shown observable; otherwise a row is highlighted iff its dataset is listed and enabled and its observable is listed (an empty list skips its test); the cached answer equals the from-scratch `MeasurementBackground` when the cache was valid for the table shown, or was just recomputed from a table with both id columns |
| TableModels.ToggledCheck | petabvis/table_models.py:222-227 | 0 becomes 1, anything else 0 |
| TableModels.ToggledCheckTwice | petabvis/table_models.py:222-227 | two clicks restore a 0/1 checkbox |
| TableModels.SetModelData | petabvis/table_models.py:222-227 | the clicked cell holds the toggled value; every other cell is unchanged |
| TableModels.FindPlot | petabvis/table_models.py:212-215 | the first plot with the row's plot id, the last plot when none matches, nothing when there are no plots |
| TableModels.EditorEvent | petabvis/table_models.py:192-220 | clicks other than a left release on an editable cell change nothing; without a datasetId column the warning is added and the handler fails with no cell changed; with no plots it fails with no cell changed; otherwise the checkbox flips, every other cell is unchanged, and the plot told to toggle the row's dataset is the first whose id matches the clicked row's plot id, or the last plot when none matches |

## Left out

- Statistics and floating point: mean, standard deviation and standard error of replicates, everything in `bar_row.py`, the mean branch of `get_mean_y_data` and the R² regression. Bar rows enter with their statistics already computed, and `RSquared` takes the regression's r-value as a parameter.
- Drawing: pyqtgraph items, colours and colour maps (`set_color`, `set_color_map`), `set_scales`, `check_log_for_zeros`, bar and error-bar beam widths, point-click interaction, hiding and showing items, and the correlation plot. Graphics items are values that record their owning line, their kind and their position, so the model keeps the identity of items but not what they look like.
- VisSpecPlots.VisSpecPlot.constructor: stops before the call to `plot_everything()` (vis_spec_plot.py:53), so a plot built in the model has no plot rows, lines or registry yet. The steps of `plot_everything` are modelled and proved one by one: `GeneratePlotRows`, `OverviewOf`, `GenerateDottedLines` for measured and simulated rows, and `GeneratePlot`. Their composition into one constructed state is not stated as a single contract.
- The drawing loop of `generate_plot` (colour lookup and `add_to_plot` for each line), its axis labels, and the `is_simulation` cast in `plot_everything` are not modelled. The same holds for `generate_plot` in the bar plot.
- `default_plot` also appends each group to the overview table; the model does not carry that table.
- Qt: widgets, layouts, signals, the tree view, file dialogs, the option windows and `main()`. `window_functionality.py` and `options_window.py` are not part of this model.
- Loading files with the PEtab library, and `check_ex_exp_columns`, which adds default columns to a simulation table. The model takes tables as given. Whether the data holds replicates comes in as a parameter (`hasReplicates`).
- `add_plots` after a simulation table is stored, and showing the correlation plot, are not modelled.
- `get_data_df`: the overview is represented by its plot rows rather than by their concatenated data.
- The replicate x- and y-arrays are computed (`ReplicateXData`, `ReplicateYData`) but the curves in the model do not hold them.
- NaN: `Null` equals nothing under `Same`. `in` on a Python list, and membership in the disabled set, are modelled as plain membership. Python would match a NaN only when it is the same object. `np.unique` on a mix of text and numbers, which Python rejects, is modelled by one total order with numbers before text.
- `str()` formatting of a cell for display, and parsing it back with `int()`. The checkbox cell is modelled as a whole number, which is what the editor requires.
- The color-map keyword argument that `main.py` passes and that `VisSpecPlot.__init__` does not accept, and the bar plot's log-scale branch that reads `plot_rows`, which a bar plot does not have. Neither is modelled.
- Utils.XOffset: a NaN offset is not modelled. Offsets are required to be numbers.
- Utils.YOffset: a NaN offset is not modelled. Offsets are required to be numbers.
- TableModels.EditorEvent: the call to the plot's `add_or_remove_line` is returned as a `ToggleLine` outcome for the caller. It is not performed, so its order relative to the checkbox write is not captured. The datasetId test is made on the clicked table, while the source tests the window's `visualization_df` (table_models.py:205). The two agree when the clicked table is the window's first visualization file, which is the one the window keeps; for any other visualization file the model's test may differ.
- TableModels.MeasurementTableModel.Data: equality with the from-scratch colour is stated only for plot ids other than "", the id the cache starts with. A plot whose id is "" would keep the initial empty lists. It is also not stated for a stale cache: a popup keeps its model when another visualization file is opened, and while the same plot id is shown the lists of the earlier table are used, so the highlight may differ from the one worked out from the current table. The model states which lists are used in that case, but not that they agree with the table.
- Window.MainWindow.constructor: the loading at main.py:114-119 is not modelled: reading the YAML file (which warns when it lists no visualization file, main.py:124-128), `add_plots` (which forwards each plot's warnings to the window) and `add_and_plot_simulation_file` (which stores a simulation table). The constructor gives the state before loading. A window built with a YAML file may therefore hold warnings and a simulation table that the model's constructor does not. The loaded tables and the number of plots enter as the parameters `expData`, `measurementFileCount` and `plotCount`.
- Window.MainWindow.AddSimulationTable: the source warns only when there is more than one measurement file, so with zero files the table is stored too. The model follows the code. After storing the table the source calls `add_plots` (main.py:162), which rebuilds the plots, forwards each plot's warnings to the window again (main.py:318-319, 343-344) and resets the index through the combo box. That call is not modelled, so "no warning is added" covers only the storing step.
- PlotRows.MakePlotRow: `PlotRow` reads `self.replicates`, `self.has_replicates`, `get_y_variable_name()` and `get_provided_noise()` (plot_row.py:32, 45-46, 60-61, 75, 99), which the modelled files never define. The model assumes replicates are `split_replicates(line_data)` (`Utils.ReplicateGroups`) and takes has_replicates as the parameter `hasReplicates`. It reads the y variable as "simulation" for simulated rows and "measurement" otherwise (`PlotRows.YVariable`). Provided noise is a statistic and is left out.
- PlotBase.PlotClass.constructor: no constructor shown assigns `disabled_rows`, yet it is read at vis_spec_plot.py:104, 144, 381 and bar_plot.py:84, 169. The model assumes it starts as the empty set. The "nothing disabled" of `BarPlots.BarPlot.constructor` rests on the same assumption.
- TableModels.VisData: the table models read `plot_id` on a plot (table_models.py:88, 122, 214), but the plot stores its id as `plotId` (plot_class.py:44). The model reads both names as the same plot id.
