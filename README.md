# Dynamic-factor-model views: news weights, fixed-horizon comparison, delimited matrices

This project models three pieces of sequential logic from the nbdemetra dynamic-factor-model
plug-in and its test data helpers, and proves properties of them in Dafny.

- **News-attribution table** (`NewsWeightsView`). For the selected series, the view scans
  the new information set backwards over its trailing run of missing observations. It stops
  at the first observed value. It keeps every position whose period, converted to the
  model's frequency, is not before the model's domain start. For each kept position it
  records:
  - the period;
  - the weights row at the converted period;
  - the revision, which is the dot product of the news vector with that row;
  - the new forecast.

  An independent scan of the old information set records the old forecasts. Every list is
  then reversed into chronological order. Each information update is destandardised
  (`x * stdev + mean`). The grid model lays the lists out as one row per update, then three
  summary rows, and one weight column per target period after three fixed columns.
  `news_weights.dfy` holds the value-level specification and its lemmas. `news_view.dfy`
  holds the view as a class whose list fields the methods fill, loop by loop, as the
  source does.
- **Fixed-horizon comparison** (`FixedHorizonsGraphView`). For the selected variable and
  transformation (level, year-on-year or quarter-on-quarter), the view builds a "True data"
  series over the evaluation sample. It then adds one `fh(h)` series for each position of
  the horizon list whose horizon is selected in the horizon filter, in list order. A null
  value becomes a missing value. The Java test `x != Double.NaN` is always true, so a NaN
  value is recorded as an observation. The view resets the horizon filter when the results
  or the variable selection change, and recreates it when it assembles the series. The chart
  has no data unless a simulation is present and both selectors have a selection. All of
  this is in `fixed_horizons.dfy`.
- **Delimited-matrix reader** (`Data.readMatrix(BufferedReader)`). It reads lines until
  the end of the stream and splits each line into tokens. The separator is `;` when the
  locale's decimal separator is `,`, and `,` otherwise. A token that is empty after
  trimming is NaN; any other token is parsed. The matrix is as wide as the longest row,
  and cells past the end of a shorter row stay NaN. A read failure or an unparsable token
  gives `null`. This is in `delimited_matrix.dfy`.

`values.dfy` holds the shared `Double` (a real number or NaN) and `Option` types.

The library calls the code makes are parameters of the model:
- `TsPeriod.lastPeriod`;
- the weights and forecast queries of the news document;
- `TsPeriod.middle`;
- `Tokenizer`;
- `Double.parseDouble`, as a partial function;
- the locale's decimal separator;
- the initial selection of a new `FilterHorizonsPanel`.

Three behaviours of the fixed-horizon view are easy to misread:
- Forecast series are indexed by their position in the horizon list, since the view reads
  `fcts[i][j]` for list position `i` (`FixedHorizonsGraphView.java:266-277`).
- The series come in the order of that list.
- An empty evaluation sample throws, because the frequency is read from `periods.get(0)`
  (`FixedHorizonsGraphView.java:250`).

The news grid reads the old-forecast row at the new list's index
(`NewsWeightsView.java:387`). When the old scan keeps a different set of periods, a weight
column can show the old forecast of another period. The model reproduces this as written.
`NewsWeights.OldForecastShift` exhibits it.

## Model

| member | source | states |
|---|---|---|
| NewsWeights.Scan | nbdemetra-dfm/src/main/java/be/nbb/demetra/dfm/output/news/NewsWeightsView.java:458-473 | The positions the backward loop keeps, in visiting order (definition, no `ensures`). `ScanMembers`, `ScanStep`, `ScanDescending` and `ScanWithinTrailingRun` state what it means. |
| NewsWeights.Dot | nbdemetra-dfm/src/main/java/be/nbb/demetra/dfm/output/news/NewsWeightsView.java:466 | `DataBlock.dot`, the sum of pairwise products of two equally long vectors (definition, no `ensures`). `DotZeroNews` and `RevisionsAt` state its use. |
| NewsWeights.Destandardize | nbdemetra-dfm/src/main/java/be/nbb/demetra/dfm/output/news/NewsWeightsView.java:508-509 | `x * stdev + mean` (definition, no `ensures`). `ComputedEntries` and `UpdateRowCells` tie it to the grid's expected and observed values. |
| NewsWeights.WeightTitle | nbdemetra-dfm/src/main/java/be/nbb/demetra/dfm/output/news/NewsWeightsView.java:516-524 | The HTML title of one weight column, written as the source writes it (definition, no `ensures`). |
| NewsWeights.Titles | nbdemetra-dfm/src/main/java/be/nbb/demetra/dfm/output/news/NewsWeightsView.java:516-524 | The three fixed titles, then one weight title per target period (definition, no `ensures`). `TableShape` states the layout and `CreateColumnTitles` is proved against it. |
| NewsWeights.RowLabels | nbdemetra-dfm/src/main/java/be/nbb/demetra/dfm/output/news/NewsWeightsView.java:498-513 | Each update's series description, then the three summary labels (definition, no `ensures`). `TableShape` and `DescribeUpdates` state it. |
| NewsWeights.RefPeriods | nbdemetra-dfm/src/main/java/be/nbb/demetra/dfm/output/news/NewsWeightsView.java:498-506 | Each update's reference period (definition, no `ensures`). `UpdateRowCells` states the cell it fills. |
| NewsWeights.ExpectedValues | nbdemetra-dfm/src/main/java/be/nbb/demetra/dfm/output/news/NewsWeightsView.java:498-508 | Each update's destandardised forecast (definition, no `ensures`). `ComputedEntries` states its entries. |
| NewsWeights.ObservedValues | nbdemetra-dfm/src/main/java/be/nbb/demetra/dfm/output/news/NewsWeightsView.java:498-509 | Each update's destandardised observation (definition, no `ensures`). `ComputedEntries` states its entries. |
| NewsWeights.NewsTableOf | nbdemetra-dfm/src/main/java/be/nbb/demetra/dfm/output/news/NewsWeightsView.java:444-524 | The lists `calculateData` leaves, gathered into the table the grid model reads (definition, no `ensures`). `TableOfLists`, `TableShape`, `ComputedEntries` and `GridReadable` state it, and `UpdateGridModel` is proved to produce it. |
| NewsWeights.ScanMembers | nbdemetra-dfm/src/main/java/be/nbb/demetra/dfm/output/news/NewsWeightsView.java:458-473 | A position is kept exactly when it lies in the trailing run of missing observations and its converted period is not before the domain start. A position failing the domain test does not end the scan. |
| NewsWeights.ScanStep | nbdemetra-dfm/src/main/java/be/nbb/demetra/dfm/output/news/NewsWeightsView.java:458-473 | One loop step: an observed value ends the scan with every kept position found; a missing value in the domain is appended; a missing value outside the domain is skipped and the scan goes on. |
| NewsWeights.ScanDescending | nbdemetra-dfm/src/main/java/be/nbb/demetra/dfm/output/news/NewsWeightsView.java:458 | The scan visits positions in strictly decreasing order, all below its start. |
| NewsWeights.ScanWithinTrailingRun | nbdemetra-dfm/src/main/java/be/nbb/demetra/dfm/output/news/NewsWeightsView.java:458-473 | Nothing at or before an observed position is ever kept, so the scan keeps at most as many positions as lie after it. |
| NewsWeights.ChronologicalPositions | nbdemetra-dfm/src/main/java/be/nbb/demetra/dfm/output/news/NewsWeightsView.java:458-493 | After the reversal the kept positions are strictly increasing and are exactly the trailing missing positions inside the domain. |
| NewsWeights.DotZeroNews | nbdemetra-dfm/src/main/java/be/nbb/demetra/dfm/output/news/NewsWeightsView.java:466 | With a zero news vector every revision is zero. |
| NewsWeights.PeriodsOfAt | nbdemetra-dfm/src/main/java/be/nbb/demetra/dfm/output/news/NewsWeightsView.java:460-463 | Entry `i` of the period list is the unconverted period of kept position `i`. |
| NewsWeights.WeightsOfAt | nbdemetra-dfm/src/main/java/be/nbb/demetra/dfm/output/news/NewsWeightsView.java:461-468 | Entry `i` of the weights list is the row fetched for the selected series at the converted period of kept position `i`. |
| NewsWeights.ForecastsOfAt | nbdemetra-dfm/src/main/java/be/nbb/demetra/dfm/output/news/NewsWeightsView.java:467 | Entry `i` of a forecast list is the forecast at the converted period of kept position `i`. |
| NewsWeights.RevisionsAt | nbdemetra-dfm/src/main/java/be/nbb/demetra/dfm/output/news/NewsWeightsView.java:465-466 | Entry `i` of the revision list is the dot product of the news vector with weights row `i`. |
| NewsWeights.ReversedPeriods | nbdemetra-dfm/src/main/java/be/nbb/demetra/dfm/output/news/NewsWeightsView.java:488-489 | Reversing the period list equals building it from the reversed positions. |
| NewsWeights.ReversedWeights | nbdemetra-dfm/src/main/java/be/nbb/demetra/dfm/output/news/NewsWeightsView.java:493 | Reversing the weights list equals building it from the reversed positions. |
| NewsWeights.ReversedRevisions | nbdemetra-dfm/src/main/java/be/nbb/demetra/dfm/output/news/NewsWeightsView.java:490 | Reversing the revisions equals computing them from the reversed weights. |
| NewsWeights.ReversedForecasts | nbdemetra-dfm/src/main/java/be/nbb/demetra/dfm/output/news/NewsWeightsView.java:491-492 | Reversing a forecast list equals building it from the reversed positions. |
| NewsWeights.ChronologicalNew | nbdemetra-dfm/src/main/java/be/nbb/demetra/dfm/output/news/NewsWeightsView.java:488-493 | The reversed new-scan lists are the chronological lists of periods, weights, revisions and new forecasts. |
| NewsWeights.ChronologicalOld | nbdemetra-dfm/src/main/java/be/nbb/demetra/dfm/output/news/NewsWeightsView.java:489-491 | The reversed old-scan lists are the chronological lists of periods and old forecasts. |
| NewsWeights.ChronologicalWeightsFit | nbdemetra-dfm/src/main/java/be/nbb/demetra/dfm/output/news/NewsWeightsView.java:445-466 | Carries the assumption that each weights row the scan fetches is as long as the news vector (the `WeightsFit` precondition) over to the chronological weights list, where the dot products use it. |
| NewsWeights.NewsTable.GetValueAt | nbdemetra-dfm/src/main/java/be/nbb/demetra/dfm/output/news/NewsWeightsView.java:378-407 | A cell read never fails on aligned lists. It is null exactly in the first three columns of the last three rows, and a period exactly in column 0 of an update row. |
| NewsWeights.NewsTable.GetColumnClass | nbdemetra-dfm/src/main/java/be/nbb/demetra/dfm/output/news/NewsWeightsView.java:410-417 | A column holds periods exactly when it is column 0; every other column holds numbers. |
| NewsWeights.TableOfLists | nbdemetra-dfm/src/main/java/be/nbb/demetra/dfm/output/news/NewsWeightsView.java:444-524 | Lists that satisfy the per-step postconditions of the view's computation form the table of the document. |
| NewsWeights.TableShape | nbdemetra-dfm/src/main/java/be/nbb/demetra/dfm/output/news/NewsWeightsView.java:368-375 | Rows are the updates' descriptions followed by "All revisions", "Old Forecast" and "New Forecast". Columns are three fixed titles plus one per target period. The new lists are aligned, the old lists are aligned, and target periods strictly increase. |
| NewsWeights.TargetPeriods | nbdemetra-dfm/src/main/java/be/nbb/demetra/dfm/output/news/NewsWeightsView.java:458-469 | A period heads a weight column exactly when it is a trailing missing period of the new series whose converted period is in the domain. |
| NewsWeights.KeptPeriods | nbdemetra-dfm/src/main/java/be/nbb/demetra/dfm/output/news/NewsWeightsView.java:458-469 | The same characterisation for the chronological period list of any series. |
| NewsWeights.ComputedEntries | nbdemetra-dfm/src/main/java/be/nbb/demetra/dfm/output/news/NewsWeightsView.java:458-513 | Entry by entry, the table holds each update's reference period and destandardised values. Each target has its weights row, revision and new forecast, and each old target its old forecast. |
| NewsWeights.UpdateRowCells | nbdemetra-dfm/src/main/java/be/nbb/demetra/dfm/output/news/NewsWeightsView.java:395-405 | The cells of update row `i` are its reference period, its destandardised forecast and observation, then the `i`-th weight of each column's row. Reading past a short weights row fails. |
| NewsWeights.SummaryRowCells | nbdemetra-dfm/src/main/java/be/nbb/demetra/dfm/output/news/NewsWeightsView.java:380-393 | The summary rows are null in the first three columns. In column `c` they hold the revision and the new forecast of the column's period, and the old forecast at the same list index, which fails when the old scan kept fewer positions. |
| NewsWeights.OldForecastShift | nbdemetra-dfm/src/main/java/be/nbb/demetra/dfm/output/news/NewsWeightsView.java:385-388 | In a document with one update where the old set lacks one more observation than the new set, the grid has four rows. Its only weight column, headed by period 1, shows in the "Old Forecast" row the old forecast of period 0. |
| NewsWeights.GridReadable | nbdemetra-dfm/src/main/java/be/nbb/demetra/dfm/output/news/NewsWeightsView.java:380-406 | Every cell can be read exactly when the old scan kept at least as many positions as the new one and the news vector is at least as long as the update list (when there is a target). When both scans keep the same periods, the old-forecast cell of a column is that period's old forecast. |
| NewsView.NewsWeightsView.constructor | nbdemetra-dfm/src/main/java/be/nbb/demetra/dfm/output/news/NewsWeightsView.java:118 | A new view has no document, no descriptors and no grid model. |
| NewsView.NewsWeightsView.SetResults | nbdemetra-dfm/src/main/java/be/nbb/demetra/dfm/output/news/NewsWeightsView.java:203-206 | Stores the document, possibly none, and the series descriptors. |
| NewsView.NewsWeightsView.UpdateGridModel | nbdemetra-dfm/src/main/java/be/nbb/demetra/dfm/output/news/NewsWeightsView.java:269-281 | No grid model without a document or without updates, and then the lists are untouched. Otherwise the lists become the document's table and the model shows them. |
| NewsView.NewsWeightsView.CalculateData | nbdemetra-dfm/src/main/java/be/nbb/demetra/dfm/output/news/NewsWeightsView.java:444-514 | Fills every list: chronological new and old lists, the column titles and the update lists. |
| NewsView.NewsWeightsView.CollectPeriods | nbdemetra-dfm/src/main/java/be/nbb/demetra/dfm/output/news/NewsWeightsView.java:452-493 | After both scans and the reversals, the new and old lists are the chronological lists. |
| NewsView.NewsWeightsView.ScanNewSet | nbdemetra-dfm/src/main/java/be/nbb/demetra/dfm/output/news/NewsWeightsView.java:458-473 | The backward loop with `break` leaves the periods, weights, revisions and new forecasts of the kept positions, in scan order. |
| NewsView.NewsWeightsView.ScanOldSet | nbdemetra-dfm/src/main/java/be/nbb/demetra/dfm/output/news/NewsWeightsView.java:475-486 | The independent old-set loop leaves the kept periods and old forecasts, in scan order. |
| NewsView.NewsWeightsView.ReverseScans | nbdemetra-dfm/src/main/java/be/nbb/demetra/dfm/output/news/NewsWeightsView.java:488-493 | Reversing the six scan lists in place gives the chronological lists. |
| NewsView.NewsWeightsView.DescribeUpdates | nbdemetra-dfm/src/main/java/be/nbb/demetra/dfm/output/news/NewsWeightsView.java:498-513 | One row per update, in order: its descriptor's label, reference period, and destandardised forecast and observation. Then the three summary labels. |
| NewsView.NewsWeightsView.CreateColumnTitles | nbdemetra-dfm/src/main/java/be/nbb/demetra/dfm/output/news/NewsWeightsView.java:516-524 | Three fixed titles, then one weight title per target period, in order. |
| FixedHorizons.TruthOf | nbdemetra-dfm/src/main/java/be/nbb/demetra/dfm/output/simulation/FixedHorizonsGraphView.java:241 | The true values of the chosen transformation (definition, no `ensures`). `SameTransform` states it. |
| FixedHorizons.ForecastsFor | nbdemetra-dfm/src/main/java/be/nbb/demetra/dfm/output/simulation/FixedHorizonsGraphView.java:242 | The forecast rows of the chosen transformation (definition, no `ensures`). `SameTransform` states it. |
| FixedHorizons.EntryOf | nbdemetra-dfm/src/main/java/be/nbb/demetra/dfm/output/simulation/FixedHorizonsGraphView.java:254-258 | The entry recorded for one value (definition, no `ensures`). `EntryMissingIffNull` states it. |
| FixedHorizons.Collect | nbdemetra-dfm/src/main/java/be/nbb/demetra/dfm/output/simulation/FixedHorizonsGraphView.java:253-259 | One entry per sample period. Its `ensures` gives the length; `CollectAt` and `CollectMissingIffNull` give the contents. |
| FixedHorizons.Label | nbdemetra-dfm/src/main/java/be/nbb/demetra/dfm/output/simulation/FixedHorizonsGraphView.java:276 | The name `fh(h)` (definition, no `ensures`). `LabelInjective` and `LabelNotTrueData` state what matters about it. |
| FixedHorizons.SelectedPositions | nbdemetra-dfm/src/main/java/be/nbb/demetra/dfm/output/simulation/FixedHorizonsGraphView.java:265-267 | The list positions whose horizon is selected. Its `ensures` bounds them by the list prefix; `SelectedPositionsMembers` characterises them. |
| FixedHorizons.Forecasted | nbdemetra-dfm/src/main/java/be/nbb/demetra/dfm/output/simulation/FixedHorizonsGraphView.java:264-279 | The forecast series of the selected positions, or an exception. Its `ensures` gives one series per selected position; `ForecastedIffCover`, `ForecastedAt` and `ThrownStays` give the rest. |
| FixedHorizons.Assemble | nbdemetra-dfm/src/main/java/be/nbb/demetra/dfm/output/simulation/FixedHorizonsGraphView.java:233-281 | The collection `toCollection` returns for one variable, or an exception (definition, no `ensures`). `AssembleSeries`, `ShownHorizons`, `SelectionExample` and `NothingSelected` state it. |
| FixedHorizons.TransformOf | nbdemetra-dfm/src/main/java/be/nbb/demetra/dfm/output/simulation/FixedHorizonsGraphView.java:241-242 | Type index 1 selects year-on-year, 2 selects quarter-on-quarter, and any other index selects levels. |
| FixedHorizons.SameTransform | nbdemetra-dfm/src/main/java/be/nbb/demetra/dfm/output/simulation/FixedHorizonsGraphView.java:241-242 | True values and forecasts come from the same transformation. |
| FixedHorizons.NumericNe | nbdemetra-dfm/src/main/java/be/nbb/demetra/dfm/output/simulation/FixedHorizonsGraphView.java:254 | Java's `!=` on doubles is true when either operand is NaN and otherwise when the values differ. |
| FixedHorizons.NaNGuardPasses | nbdemetra-dfm/src/main/java/be/nbb/demetra/dfm/output/simulation/FixedHorizonsGraphView.java:254 | Comparing a value with `!= Double.NaN` is always true. |
| FixedHorizons.EntryMissingIffNull | nbdemetra-dfm/src/main/java/be/nbb/demetra/dfm/output/simulation/FixedHorizonsGraphView.java:254-258 | A value is recorded as missing exactly when it is null; any boxed value, NaN included, is an observation at the period's middle. |
| FixedHorizons.CollectAt | nbdemetra-dfm/src/main/java/be/nbb/demetra/dfm/output/simulation/FixedHorizonsGraphView.java:253-259 | A collected series has one entry per period, in sample order, recording that period's value. |
| FixedHorizons.CollectMissingIffNull | nbdemetra-dfm/src/main/java/be/nbb/demetra/dfm/output/simulation/FixedHorizonsGraphView.java:269-274 | Entry `j` is at period `j`'s middle and is missing exactly when value `j` is null. |
| FixedHorizons.IntToStringRoundTrip | nbdemetra-dfm/src/main/java/be/nbb/demetra/dfm/output/simulation/FixedHorizonsGraphView.java:276 | The decimal text of a horizon reads back as the horizon. |
| FixedHorizons.LabelInjective | nbdemetra-dfm/src/main/java/be/nbb/demetra/dfm/output/simulation/FixedHorizonsGraphView.java:276 | Distinct horizons get distinct `fh(h)` names. |
| FixedHorizons.LabelNotTrueData | nbdemetra-dfm/src/main/java/be/nbb/demetra/dfm/output/simulation/FixedHorizonsGraphView.java:262-276 | No forecast series is named "True data". |
| FixedHorizons.SelectedPositionsMembers | nbdemetra-dfm/src/main/java/be/nbb/demetra/dfm/output/simulation/FixedHorizonsGraphView.java:265-267 | A list position is shown exactly when its horizon is selected; shown positions are distinct and in increasing order. |
| FixedHorizons.ForecastedIffCover | nbdemetra-dfm/src/main/java/be/nbb/demetra/dfm/output/simulation/FixedHorizonsGraphView.java:266-277 | The forecast series are built exactly when every selected position has a forecast row covering the sample. |
| FixedHorizons.ForecastedAt | nbdemetra-dfm/src/main/java/be/nbb/demetra/dfm/output/simulation/FixedHorizonsGraphView.java:266-277 | Forecast series `k` is named after the horizon at the `k`-th selected position `p` and records row `p`, indexed by position and not by horizon value. |
| FixedHorizons.ThrownStays | nbdemetra-dfm/src/main/java/be/nbb/demetra/dfm/output/simulation/FixedHorizonsGraphView.java:266-277 | Once a selected row is missing or short, no collection is produced. |
| FixedHorizons.AssembleSeries | nbdemetra-dfm/src/main/java/be/nbb/demetra/dfm/output/simulation/FixedHorizonsGraphView.java:233-281 | A collection is produced exactly when the sample is non-empty and the true values and every selected row cover it. It holds 1 + (number of selected positions) series: first "True data" with one entry per period, then the series of the selected positions in list order. |
| FixedHorizons.ShownHorizons | nbdemetra-dfm/src/main/java/be/nbb/demetra/dfm/output/simulation/FixedHorizonsGraphView.java:265-267 | A horizon gets a series exactly when it is both selected and in the horizon list; selected horizons absent from the list produce nothing. |
| FixedHorizons.SelectionExample | nbdemetra-dfm/src/main/java/be/nbb/demetra/dfm/output/simulation/FixedHorizonsGraphView.java:262-279 | With horizons 1 to 4 listed and {1, 3} selected, the series are "True data", "fh(1)", "fh(3)". |
| FixedHorizons.NothingSelected | nbdemetra-dfm/src/main/java/be/nbb/demetra/dfm/output/simulation/FixedHorizonsGraphView.java:262-279 | With no listed horizon selected, the collection is the true data alone. |
| FixedHorizons.TsDataCollector.constructor | nbdemetra-dfm/src/main/java/be/nbb/demetra/dfm/output/simulation/FixedHorizonsGraphView.java:252 | A new collector holds no entries. |
| FixedHorizons.TsDataCollector.Make | nbdemetra-dfm/src/main/java/be/nbb/demetra/dfm/output/simulation/FixedHorizonsGraphView.java:260 | The recorded entries at the given frequency (definition, no `ensures`). The conversion into a `TsData` is listed under "## Left out". |
| FixedHorizons.TsDataCollector.Clear | nbdemetra-dfm/src/main/java/be/nbb/demetra/dfm/output/simulation/FixedHorizonsGraphView.java:268 | Clearing the collector empties it. |
| FixedHorizons.TsDataCollector.AddObservation | nbdemetra-dfm/src/main/java/be/nbb/demetra/dfm/output/simulation/FixedHorizonsGraphView.java:255 | Appends an observation entry. |
| FixedHorizons.TsDataCollector.AddMissingValue | nbdemetra-dfm/src/main/java/be/nbb/demetra/dfm/output/simulation/FixedHorizonsGraphView.java:257 | Appends a missing entry. |
| FixedHorizons.FixedHorizonsGraphView.constructor | nbdemetra-dfm/src/main/java/be/nbb/demetra/dfm/output/simulation/FixedHorizonsGraphView.java:82-159 | A new view has no simulation, no variable selected, levels selected, no filter and no chart data. |
| FixedHorizons.FixedHorizonsGraphView.PanelFor | nbdemetra-dfm/src/main/java/be/nbb/demetra/dfm/output/simulation/FixedHorizonsGraphView.java:246-248 | The existing filter is kept; only an absent filter is recreated over the current horizon list. |
| FixedHorizons.FixedHorizonsGraphView.SetSimulationResults | nbdemetra-dfm/src/main/java/be/nbb/demetra/dfm/output/simulation/FixedHorizonsGraphView.java:195-199 | A null argument stores "absent". Storing the same value changes nothing. A change refreshes the selector, which discards the filter and selects the first variable if there is one. It then redraws the chart from no filter (`Drawn`): with a simulation, the filter is a new one over that variable's horizons and the chart shows the assembled collection. The redraw's exception escapes to the caller, reported as `thrown`. |
| FixedHorizons.FixedHorizonsGraphView.UpdateComboBox | nbdemetra-dfm/src/main/java/be/nbb/demetra/dfm/output/simulation/FixedHorizonsGraphView.java:217-226 | Always discards the horizon filter. The variable selector lists the variables only when a simulation is present. |
| FixedHorizons.FixedHorizonsGraphView.OnVariableSelected | nbdemetra-dfm/src/main/java/be/nbb/demetra/dfm/output/simulation/FixedHorizonsGraphView.java:97-103 | A new variable discards the filter before redrawing, so the chart is redrawn from no filter (`Drawn`). The filter becomes a new one over that variable's horizons, and the chart shows the collection assembled with it. An exception of the redraw escapes the listener, reported as `thrown`. |
| FixedHorizons.FixedHorizonsGraphView.OnTypeSelected | nbdemetra-dfm/src/main/java/be/nbb/demetra/dfm/output/simulation/FixedHorizonsGraphView.java:105-110 | A new transformation redraws from the current filter (`Drawn`) and keeps a filter that is present. The chart shows the collection assembled for the new transformation. An exception of the redraw escapes the listener, reported as `thrown`. |
| FixedHorizons.FixedHorizonsGraphView.UpdateChart | nbdemetra-dfm/src/main/java/be/nbb/demetra/dfm/output/simulation/FixedHorizonsGraphView.java:202-215 | `Drawn`: the chart has no data unless a simulation is present and both selectors are set. Otherwise the filter in use, created if absent, is stored and the chart shows the `Assemble` result. An exception leaves the collection and the chart unchanged. The method has no handler, so the exception escapes to its caller: `thrown` is true exactly when the guard passes and the variable has no results or `Assemble` throws (`RedrawThrows`). |
| FixedHorizons.FixedHorizonsGraphView.ToCollection | nbdemetra-dfm/src/main/java/be/nbb/demetra/dfm/output/simulation/FixedHorizonsGraphView.java:233-281 | Creates the filter if absent, then returns `Assemble` for the selected variable, transformation and filter selection. |
| FixedHorizons.FixedHorizonsGraphView.CollectSeries | nbdemetra-dfm/src/main/java/be/nbb/demetra/dfm/output/simulation/FixedHorizonsGraphView.java:252-259 | The period loop records the collected entries of the values, and fails exactly when the values are shorter than the sample. |
| FixedHorizons.FixedHorizonsGraphView.ForecastSeries | nbdemetra-dfm/src/main/java/be/nbb/demetra/dfm/output/simulation/FixedHorizonsGraphView.java:264-279 | The horizon loop, reusing the cleared collector, yields `Forecasted` over the whole horizon list. |
| DelimitedMatrix.Trim | jtss2/src/test/java/data/Data.java:92 | `String.trim` (definition, no `ensures`). `TrimSlice`, `TrimEnds` and `TrimIdempotent` state it. |
| DelimitedMatrix.Token | jtss2/src/test/java/data/Data.java:92-97 | The value of one token: NaN when blank after trimming, otherwise the parse of the trimmed token (definition, no `ensures`). `ReadRowsValues` states it per cell. |
| DelimitedMatrix.ParseRow | jtss2/src/test/java/data/Data.java:89-98 | The values of a line's tokens, or failure. Its `ensures` gives one value per token; `ParseRowValues` and `RowFailureStays` give the rest. |
| DelimitedMatrix.ParseLines | jtss2/src/test/java/data/Data.java:87-105 | The rows of all lines, or failure. Its `ensures` gives one row per line; `ParseLinesSome`, `ParseLinesRows` and `LineFailureStays` give the rest. |
| DelimitedMatrix.ReadRows | jtss2/src/test/java/data/Data.java:87-124 | The rows of the stream, or failure when the stream fails (definition, no `ensures`). `ReadRowsNone` and `ReadRowsValues` state it. |
| DelimitedMatrix.Width | jtss2/src/test/java/data/Data.java:106-113 | The longest row length (definition, no `ensures`). `WidthIsLongest` states it. |
| DelimitedMatrix.CellAt | jtss2/src/test/java/data/Data.java:114-118 | The matrix cell: the row's value, or NaN past the row's end (definition, no `ensures`). `ReadMatrix` is proved against it. |
| DelimitedMatrix.Separator | jtss2/src/test/java/data/Data.java:80-85 | The separator is `;` for a `,` decimal separator and `,` otherwise, and never the decimal separator. |
| DelimitedMatrix.SkipLeading | jtss2/src/test/java/data/Data.java:92 | The start of the trimmed token: every character before it is a blank (at most `' '`), and it is not. |
| DelimitedMatrix.SkipTrailing | jtss2/src/test/java/data/Data.java:92 | The end of the trimmed token: every character after it is a blank, and the last kept one is not. |
| DelimitedMatrix.TrimSlice | jtss2/src/test/java/data/Data.java:92 | Trimming keeps a contiguous part and drops only blanks around it. |
| DelimitedMatrix.TrimEnds | jtss2/src/test/java/data/Data.java:92-93 | A trimmed token is empty exactly when the token is all blanks; otherwise it starts and ends with a non-blank. |
| DelimitedMatrix.TrimIdempotent | jtss2/src/test/java/data/Data.java:92 | Trimming twice is trimming once. |
| DelimitedMatrix.ParseRowValues | jtss2/src/test/java/data/Data.java:91-98 | A row parses exactly when each token does, and then holds each token's value in order. |
| DelimitedMatrix.ParseLinesSome | jtss2/src/test/java/data/Data.java:88-105 | The lines parse exactly when each line does. |
| DelimitedMatrix.ParseLinesRows | jtss2/src/test/java/data/Data.java:88-105 | Row `i` is the row of line `i`, in input order. |
| DelimitedMatrix.RowFailureStays | jtss2/src/test/java/data/Data.java:96 | One unparsable token spoils its whole row. |
| DelimitedMatrix.LineFailureStays | jtss2/src/test/java/data/Data.java:122-123 | One unparsable line spoils the whole input. |
| DelimitedMatrix.ReadRowsNone | jtss2/src/test/java/data/Data.java:120-124 | No rows come back exactly when the stream fails or some token of some line does not parse. |
| DelimitedMatrix.ReadRowsValues | jtss2/src/test/java/data/Data.java:87-98 | One row per line, one value per token: NaN for a token that is empty after trimming, otherwise the parse of the trimmed token. |
| DelimitedMatrix.WidthIsLongest | jtss2/src/test/java/data/Data.java:106-113 | The column count bounds every row and equals some row's length, or 0 without rows. |
| DelimitedMatrix.LineReader.constructor | jtss2/src/test/java/data/Data.java:76 | The reader passed to `readMatrix`: the lines still to be read and whether reading past them fails. |
| DelimitedMatrix.LineReader.ReadLine | jtss2/src/test/java/data/Data.java:87 | Gives the next line, then the end of the stream or the failure. |
| DelimitedMatrix.ParseTokens | jtss2/src/test/java/data/Data.java:89-98 | The token loop yields `ParseRow` of the tokens, stopping at the first unparsable token. |
| DelimitedMatrix.ReadLines | jtss2/src/test/java/data/Data.java:87-124 | The read loop gives `ReadRows` of the stream: one parsed row per line, or nothing when a token does not parse or the stream fails. Rows come back only once every line was read. |
| DelimitedMatrix.MaxWidth | jtss2/src/test/java/data/Data.java:106-113 | The column-count loop gives `Width`: it bounds every row and equals some row's length, or 0 without rows. |
| DelimitedMatrix.FillNaN | jtss2/src/test/java/data/Data.java:114-115 | Every cell becomes NaN. |
| DelimitedMatrix.CopyRows | jtss2/src/test/java/data/Data.java:116-118 | Each row is copied into the start of its matrix row; the cells past its end stay NaN. |
| DelimitedMatrix.ReadMatrix | jtss2/src/test/java/data/Data.java:76-125 | The result is null exactly when reading or parsing fails. Otherwise it is a new matrix with one row per line, as many columns as the longest row, and each cell holding the row's value or NaN past the row's end. The reader keeps its failure flag, and a matrix is returned only once every line was read. |

## Left out

- The Swing parts of both views are not modelled: component creation, renderers, menus, colour schemes, drag and drop, the chart of the news view, and the horizon-filter dialog (`FixedHorizonsGraphView.java:331-336`).
- `NewsWeightsView.toCollection` and its chart are not modelled. They depend on time-series arithmetic in library code.
- Library behaviour is passed in as parameters rather than modelled:
  - the news document's model queries;
  - `TsPeriod.lastPeriod` and `TsPeriod.middle`;
  - `Tokenizer` and `Double.parseDouble`;
  - the locale's decimal separator;
  - the initial selection of a new `FilterHorizonsPanel`.
- IEEE floating point is not modelled. Values are reals with an explicit NaN. Rounding in the dot product and in destandardisation is not captured.
- `FixedHorizons.TsDataCollector.Make`: the conversion of the collected entries into a `TsData` by `TsDataCollector.make` is library code. The model keeps the entries themselves.
- `DelimitedMatrix.CopyRows`: `DataBlock.copy` is library code. The model copies a shorter source row into the start of the matrix row.
- `DelimitedMatrix.ReadMatrix`: the `Matrix` is modelled as a Dafny two-dimensional array. The intermediate `double[]` copy of each row is not a separate step.
- The `readMatrix(String)`, `readMatrix(Class, String)` and `readMatrix(InputStream)` overloads are not modelled. They only open and close streams.
- The fixture arrays and `rndAirlines` of `Data.java` are not modelled. They are data and random generation through foreign builders.
- FixedHorizons.FixedHorizonsGraphView.SetSimulationResults: Dafny equality of the stored value stands in for `Optional.equals`. The property-change event is fired only when that equality fails.
- FixedHorizons.FixedHorizonsGraphView.UpdateComboBox: after the selector is refilled, it is assumed to select its first variable, or none when the list is empty. This mirrors `DefaultComboBoxModel`; the Swing event sequence is not modelled.
- FixedHorizons.FixedHorizonsGraphView.OnVariableSelected: one selection change is one event. Swing delivers a deselection and a selection event, which repeat the same reset and redraw.
- NewsView.NewsWeightsView.SetResults only stores the document and the descriptors. The property-change event it fires, and the selector and chart refresh behind that event, are not modelled. `UpdateGridModel` is a separate call in the model.
- NewsView.NewsWeightsView.UpdateGridModel: the `Computable` precondition excludes three inputs on which the source throws:
  - no selected series, that is, index -1 of an empty selector;
  - an update whose series has no descriptor (`desc[updt.series]`, `NewsWeightsView.java:505`);
  - a weights row whose length differs from the news vector's (`n.dot(weights)`, `NewsWeightsView.java:466`).

  A consistent news document cannot produce any of them. The selector lists one entry per series of the document, the descriptors cover every series, and the weights rows have one entry per news item. The model therefore does not follow these exceptions.
- NewsView.NewsWeightsView.CalculateData: the same `Computable` precondition applies, for the same reason.
- A null list or a null row in the simulation results is not modelled. Such a value throws in the source. Rows are always present in the model, and reads past their ends are modelled as exceptions.
