# Aspire dashboard, hosting and extension core — a Dafny model

This project models the core of the Aspire dashboard, one piece of the Aspire hosting layer, and the
Aspire extension for VS Code. Each piece is stated in Dafny and the properties the code promises are
proved.

What each piece covers:

- **Dashboard resources.**
  - How a resource's health is worked out from its health reports and known state.
  - When a resource is shown by its unique name rather than its display name.
  - The two-key name order.
  - Health-report descriptions.
  - How resource properties are displayed.
  - The "source" column: the escaped command line, with DCP's default `dotnet run` arguments hidden for projects.
  - How resources are grouped into replica sets.
- **Dashboard metrics.**
  - The metrics table: direction markers, the "only value changes" filter, and keeping a time-sorted list in step with new rows.
  - The metrics page: its view model read from the route, the URL written back from it, tree selection, and its live subscription.
- **Dashboard controls.**
  - The text visualizer dialog: which formats are offered and shown, and the numbered lines.
  - The nested data grid: pre-order flattening with ancestor lists, levels, visibility and the column template.
  - The FluentUI clipboard and visualizer attribute dictionaries.
  - The desktop/mobile viewport rule.
- **Dashboard telemetry.** The dashboard telemetry service: one-time initialisation, then the eleven telemetry operations and the requests they post.
- **Hosting.** Executable launch configurations: server-ready action kinds, their wire strings, and the permissive JSON converter.
- **VS Code extension.**
  - The debug-session coordinator: child sessions of the Aspire debug session, and how ending either side ends the other.
  - Starting a session and waiting for it.
  - Attaching to the AppHost.
  - The GitHub Copilot bridge: model info, model selection, and message and tool conversion.
  - Assembling non-streaming and streaming chat completions.

How the source's form carries over:

- Pure source code becomes datatypes, functions and lemmas.
- A class whose methods update fields becomes a Dafny `class`. Its methods are proved against a pure function of the old state, through `StateOf()` or field-by-field `ensures`.
  - `ChildSessionTracker`, `AppHostAttacher`, `DashboardTelemetryService`, `TextVisualizerDialog`, `MetricTableView`, `Page` and `ResourceViewModel` follow this pattern.
- Loops of the source are `while` loops with invariants:
  - escaping a command-line argument;
  - counting replicas;
  - building and collapsing metric rows, and synchronising the sorted list;
  - posting default properties;
  - stopping children;
  - adding attributes;
  - collecting response parts.

Effects the model cannot see become parameters:

- culture-aware comparers and date formatting;
- JSON and XML formatters;
- `JSON.parse` / `JSON.stringify`;
- the telemetry sender's answer;
- the debug API's stop failures;
- how `startDebugging` ends (returns `true`, returns `false` or rejects) and the sessions that start before and after that;
- the point at which a cancellation token fires;
- `Date.now`.

`wrappers.dfy` holds `Option` and `Result`. `text.dfy` holds the .NET/JavaScript string helpers the modules share: white-space tests, `string.Join`, decimal numerals and their parsing, and `Split`.

Where the comments and the code disagree, the model follows the code:

- **Where pending health reports are ignored.**
  - The comment at `src/Aspire.Dashboard/Model/ResourceViewModel.cs:93` says a pending (null-status) health report makes the resource Unhealthy.
  - `MinBy(r => r.HealthStatus)` skips null keys, so a pending report beside a Healthy one yields Healthy.
  - `ResourceModel.PendingReportIsIgnoredBesideHealthy` proves what the code does.
- **The DCP default arguments at lines 37-39.**
  - `src/Aspire.Dashboard/Model/ResourceSourceViewModel.cs:37` declares `dcpDefaultArgumentsOptions` as a list of lists.
  - Line 39 then uses `dcpDefaultArguments`, which does not exist.
  - The model uses the evident meaning: one argument list `["run", "--no-build", "--project"]`.
- **The telemetry context name.**
  - The test at `tests/Aspire.Dashboard.Components.Tests/ComponentTelemetryContextTests.cs:24` reads the endpoint as a posted property's operation name.
  - The service itself names the context `context/postProperty` (`src/Aspire.Dashboard/Telemetry/DashboardTelemetryService.cs:301`).
  - The model follows the service.

## Model

| member | source | states |
|---|---|---|
| Text.Join | src/Aspire.Dashboard/Model/ResourceSourceViewModel.cs:82 | `string.Join` of no parts is empty and of one part is that part. |
| Text.JoinLength | src/Aspire.Dashboard/Model/ResourceSourceViewModel.cs:82 | A join's length is the total part length plus one separator between each pair of parts. |
| Text.ParseNat | extension/src/debugger/appHost.ts:17-25 | A string parses as a natural number exactly when it is a non-empty string of decimal digits. |
| Text.DecimalRoundTrip | extension/src/debugger/appHost.ts:17-25 | Parsing the decimal rendering of a natural number gives the number back. |
| Text.NatToDecimalInjective | extension/src/debugger/appHost.ts:17-25 | Distinct numbers have distinct decimal renderings. |
| Text.SplitJoin | src/Aspire.Dashboard/Components/Pages/Metrics.razor.cs:160-181 | Splitting parts joined by a separator that none of them contains gives the parts back. |
| Text.JoinSplit | src/Aspire.Dashboard/Components/Pages/Metrics.razor.cs:160-181 | Joining the pieces of a split with the separator restores the string. |
| ResourceModel.MinReportedStatus | src/Aspire.Dashboard/Model/ResourceViewModel.cs:94 | `MinBy` over the report statuses. It is absent exactly when no report has a status. Otherwise it is the status of some report and no worse than any reported status. |
| ResourceModel.ComputeHealthStatus | src/Aspire.Dashboard/Model/ResourceViewModel.cs:82-96 | There is no status unless the resource is Running. A running resource with no reports is Healthy. Otherwise the status is the worst reported status, or Unhealthy when no report has a status. |
| ResourceModel.PendingReportIsIgnoredBesideHealthy | src/Aspire.Dashboard/Model/ResourceViewModel.cs:92-95 | One pending and one Healthy report give Healthy, contrary to the comment at line 93. |
| ResourceModel.MinReportedStatusPermutation | src/Aspire.Dashboard/Model/ResourceViewModel.cs:94 | The aggregated status does not depend on the order of the reports. |
| ResourceModel.ResourceViewModel.InitHealthReports | src/Aspire.Dashboard/Model/ResourceViewModel.cs:43-51 | The reports setter stores the reports, keeps the state and recomputes the status. |
| ResourceModel.ResourceViewModel.InitKnownState | src/Aspire.Dashboard/Model/ResourceViewModel.cs:53-61 | The state setter stores the state, keeps the reports and recomputes the status. |
| ResourceModel.InitializeInEitherOrder | src/Aspire.Dashboard/Model/ResourceViewModel.cs:43-61 | Whichever init setter runs last, the status equals `ComputeHealthStatus` of both values. |
| ResourceModel.GetResourceName | src/Aspire.Dashboard/Model/ResourceViewModel.cs:98-121 | The loop returns the unique name when at least two visible resources share the display name. Otherwise it returns the display name. |
| ResourceModel.CompareNames | src/Aspire.Dashboard/Model/ResourceViewModel.cs:128-144 | Display names decide; full names only break a tie. The result is 0 exactly when both keys compare equal. |
| ResourceModel.Compare | src/Aspire.Dashboard/Model/ResourceViewModel.cs:128-144 | Two resources compare equal exactly when their display names and names compare equal. |
| ResourceModel.CompareNamesAntisymmetric | src/Aspire.Dashboard/Model/ResourceViewModel.cs:128-144 | Swapping the arguments flips the sign and keeps equality, given a comparer for strings. |
| ResourceModel.CompareNamesTransitive | src/Aspire.Dashboard/Model/ResourceViewModel.cs:128-144 | "At most" under the two-key order is transitive. |
| ResourceModel.IndexOfNewLine | src/Aspire.Dashboard/Model/ResourceViewModel.cs:370 | `IndexOfAny(['\n', '\r'])` is the first line-break index, or -1 when there is none. |
| ResourceModel.DisplayedDescription | src/Aspire.Dashboard/Model/ResourceViewModel.cs:359-376 | A non-blank description wins. Otherwise the exception text, cut at its first line break when that break is not at index 0. Otherwise null. |
| ResourceModel.DisplayedDescriptionIsFirstLine | src/Aspire.Dashboard/Model/ResourceViewModel.cs:368-372 | The exception-based description is a non-empty prefix without line breaks, ending at a break or at the end of the text. |
| ResourceModel.NewResourceProperty | src/Aspire.Dashboard/Model/ResourceViewModel.cs:269-281 | A null or blank name throws. Masking starts as the sensitivity. The key is the known key, or `unknown-` plus the name. |
| ResourceModel.GridName | src/Aspire.Dashboard/Model/ResourceViewModel.cs:264 | The grid name is the known display name, otherwise the raw name. |
| ResourceModel.DisplayValue | src/Aspire.Dashboard/Model/ResourceViewModel.cs:285-311 | A container id is cut to its first 12 characters. Any other value is date-formatted when it parses as a date and kept otherwise. |
| ResourceModel.ToolTip | src/Aspire.Dashboard/Model/ResourceViewModel.cs:283 | A string value is its own tooltip; any other value shows its rendered text. |
| ResourceModel.ToolTipHoldsDisplayedValue | src/Aspire.Dashboard/Model/ResourceViewModel.cs:283-311 | A container id's cell is a prefix of the tooltip. Any other value that does not parse as a date is displayed exactly as its tooltip. |
| ResourceModel.SetValueMasked | src/Aspire.Dashboard/Model/ResourceViewModel.cs:260 | Setting the mask changes nothing else. |
| ResourceSource.EscapeCommandLineArgument | src/Aspire.Dashboard/Model/ResourceSourceViewModel.cs:90-128 | The builder loop computes the quoting rule: `""` for empty; quoted, with `\` and `"` escaped, when the argument has a space, quote or backslash; unchanged otherwise. |
| ResourceSource.ReadEscapedArgument | src/Aspire.Dashboard/Model/ResourceSourceViewModel.cs:90-128 | Reading an escaped argument back gives the original argument and stops at the next space. |
| ResourceSource.SplitJoinedArguments | src/Aspire.Dashboard/Model/ResourceSourceViewModel.cs:81-82 | Splitting the space-joined escaped arguments recovers the argument list exactly. |
| ResourceSource.EscapeAll | src/Aspire.Dashboard/Model/ResourceSourceViewModel.cs:81 | One escaped argument per argument, in order. |
| ResourceSource.GetCommandLineInfo | src/Aspire.Dashboard/Model/ResourceSourceViewModel.cs:72-88 | No arguments property gives null. Empty arguments give just the executable path. Otherwise: the escaped list, its space-joined string, and the path plus a space plus that string. |
| ResourceSource.VisibleArgumentsString | src/Aspire.Dashboard/Model/ResourceSourceViewModel.cs:36-45 | Arguments that start with DCP's defaults and go on lose the defaults and the project path; all other argument lists are shown as given. |
| ResourceSource.GetSourceViewModel | src/Aspire.Dashboard/Model/ResourceSourceViewModel.cs:15-70 | The branches are checked first to last. A project with a command line shows its file name, its arguments with DCP's defaults hidden, and the full command line to visualise and as the tooltip. A project without one shows its file name and its path. An executable shows its file name and its command line. A container shows its image. Otherwise the string source property is shown, and otherwise nothing. |
| ResourceSource.ProjectSourceHidesDcpDefaults | src/Aspire.Dashboard/Model/ResourceSourceViewModel.cs:31-48 | A project run by DCP shows its file name followed by exactly the user's arguments. The tooltip is the full command line. |
| ResourceSource.ProjectWithOnlyDcpDefaultsShowsNoArguments | src/Aspire.Dashboard/Model/ResourceSourceViewModel.cs:34-47 | A project run by DCP with no user arguments shows an empty argument string. |
| ResourceSource.ProjectWithOtherArgumentsShowsThemAll | src/Aspire.Dashboard/Model/ResourceSourceViewModel.cs:34-47 | For every non-empty argument list that is not DCP's defaults followed by more, the project shows all the arguments, quoted as on the command line, and they split back to the list. The tooltip is the full command line. |
| ResourceSets.InsertByName | src/Aspire.Dashboard/Extensions/ResourceExtensions.cs:13 | Inserting one resource adds exactly that resource. |
| ResourceSets.OrderByName | src/Aspire.Dashboard/Extensions/ResourceExtensions.cs:13 | Ordering by name is a permutation of the resources. |
| ResourceSets.OrderByNameSorted | src/Aspire.Dashboard/Extensions/ResourceExtensions.cs:13 | `OrderBy(c => c.Name)` is sorted by name and a permutation of its input. |
| ResourceSets.DistinctDisplayNames | src/Aspire.Dashboard/Extensions/ResourceExtensions.cs:13 | The grouping keys are pairwise distinct. |
| ResourceSets.Members | src/Aspire.Dashboard/Extensions/ResourceExtensions.cs:13 | Every member carries the group's display name, and a group is no longer than the input. |
| ResourceSets.MembersOfGroup | src/Aspire.Dashboard/Extensions/ResourceExtensions.cs:13 | A group holds exactly the input resources with its display name. |
| ResourceSets.DistinctDisplayNamesOrder | src/Aspire.Dashboard/Extensions/ResourceExtensions.cs:13 | The groups come in order of first appearance: every key occurs in the input, and an earlier key first occurs before a later one. This order is the grid's order of entries. |
| ResourceSets.DistinctDisplayNamesCover | src/Aspire.Dashboard/Extensions/ResourceExtensions.cs:13 | Every display name is a key, and every key has at least one member. |
| ResourceSets.MapResourceNamesToSets | src/Aspire.Dashboard/Extensions/ResourceExtensions.cs:11-30 | One entry per key of the name-sorted grouping: a set named by the key when the group has two or more members, the lone resource otherwise. |
| ResourceSets.EveryResourceOnce | src/Aspire.Dashboard/Extensions/ResourceExtensions.cs:11-30 | Flattening the entries gives back exactly the input resources, as a multiset. |
| ResourceSets.EntriesByDisplayName | src/Aspire.Dashboard/Extensions/ResourceExtensions.cs:13-20 | Entry names are distinct display names of input resources, and every member carries its entry's name. |
| ResourceSets.SetsAreReplicaGroups | src/Aspire.Dashboard/Extensions/ResourceExtensions.cs:15-27 | An entry is a set exactly when two or more resources share its display name. A set's members are sorted by name. |
| ResourceSets.MembersSameCount | src/Aspire.Dashboard/Extensions/ResourceExtensions.cs:13 | A group's size does not depend on the input order. |
| MetricTable.CompareByTime | src/Aspire.Dashboard/Components/Controls/MetricTable.razor.cs:104-111 | The comparer orders by start time, then by end time; 0 means the same window. |
| MetricTable.CompareByTimeAntisymmetric | src/Aspire.Dashboard/Components/Controls/MetricTable.razor.cs:106-110 | Swapping the arguments flips the sign. |
| MetricTable.CompareByTimeTransitive | src/Aspire.Dashboard/Components/Controls/MetricTable.razor.cs:106-110 | "Before" is transitive. |
| MetricTable.Direction | src/Aspire.Dashboard/Components/Controls/MetricTable.razor.cs:42-55 | The marker is Up or Down when the count rose or fell from the previous value. It is Constant for the first value and for equal counts. |
| MetricTable.DimensionRows | src/Aspire.Dashboard/Components/Controls/MetricTable.razor.cs:39-58 | The rows of a dimension: one per value, with the dimension's name and attributes, the value and its direction. |
| MetricTable.DimensionRowsOf | src/Aspire.Dashboard/Components/Controls/MetricTable.razor.cs:39-58 | The inner loop over one dimension's values builds exactly that dimension's rows. |
| MetricTable.RowsOfDimensions | src/Aspire.Dashboard/Components/Controls/MetricTable.razor.cs:31-59 | There is one row per value over all dimensions, and every row is some dimension's value with its direction. |
| MetricTable.BuildRows | src/Aspire.Dashboard/Components/Controls/MetricTable.razor.cs:27-59 | The nested loops build exactly those rows. The "any dimensions" flag is set exactly when a dimension is not the no-dimensions scope. |
| MetricTable.CollapseRuns | src/Aspire.Dashboard/Components/Controls/MetricTable.razor.cs:60-76 | Collapsing never grows the list and ends with the input's last count. |
| MetricTable.CollapseRunsKeepsFirst | src/Aspire.Dashboard/Components/Controls/MetricTable.razor.cs:60-76 | The first row always survives. |
| MetricTable.CollapseRunsNoRepeats | src/Aspire.Dashboard/Components/Controls/MetricTable.razor.cs:60-76 | No two neighbouring rows have the same count. |
| MetricTable.CollapseRunsSubsequence | src/Aspire.Dashboard/Components/Controls/MetricTable.razor.cs:60-76 | The result is a subsequence of the input. |
| MetricTable.CollapseValueChanges | src/Aspire.Dashboard/Components/Controls/MetricTable.razor.cs:60-76 | The `RemoveAt(i); i--` loop computes `CollapseRuns`. |
| MetricTable.CollapseRunsKeepsEveryChange | src/Aspire.Dashboard/Components/Controls/MetricTable.razor.cs:60-76 | Exactly one row survives per run: the result has one row more than the input has changes of count between neighbours. |
| MetricTable.InsertionIndex | src/Aspire.Dashboard/Components/Controls/MetricTable.razor.cs:87 | `SortedList.Add` looks up the first key not before the new row. |
| MetricTable.SortedAddFails | src/Aspire.Dashboard/Components/Controls/MetricTable.razor.cs:87 | `Add` fails exactly when a key with the same time window is present. |
| MetricTable.SortedAddSorted | src/Aspire.Dashboard/Components/Controls/MetricTable.razor.cs:87 | A successful `Add` keeps the keys strictly sorted. |
| MetricTable.SortedAddValues | src/Aspire.Dashboard/Components/Controls/MetricTable.razor.cs:87 | A successful `Add` adds exactly its row. |
| MetricTable.SortedAdd | src/Aspire.Dashboard/Components/Controls/MetricTable.razor.cs:87 | A successful `Add` grows the list by one, with the new row at its sorted position. |
| MetricTable.AddAllProperties | src/Aspire.Dashboard/Components/Controls/MetricTable.razor.cs:83-93 | Adding rows one by one keeps the list sorted. When all succeed, exactly those rows are added. |
| MetricTable.AddAllSorted | src/Aspire.Dashboard/Components/Controls/MetricTable.razor.cs:83-93 | Adding rows one by one to a sorted list leaves it sorted by window start. |
| MetricTable.AddAllValues | src/Aspire.Dashboard/Components/Controls/MetricTable.razor.cs:83-93 | When every insertion succeeds, the list grows by exactly the added rows, as a multiset. |
| MetricTable.Overwrite | src/Aspire.Dashboard/Components/Controls/MetricTable.razor.cs:89-92 | `SetValueAtIndex` over a prefix replaces those values and keeps every key. |
| MetricTable.SynchronizeProperties | src/Aspire.Dashboard/Components/Controls/MetricTable.razor.cs:78-93 | Trimming, overwriting and adding keeps the list sorted. On success the list holds exactly the new rows, as a multiset. |
| MetricTable.Synchronize | src/Aspire.Dashboard/Components/Controls/MetricTable.razor.cs:78-93 | A successful synchronisation leaves exactly as many rows as there are new rows. |
| MetricTable.UpdatePassesStop | src/Aspire.Dashboard/Components/Controls/MetricTable.razor.cs:83-93 | Once an `Add` throws, no later pass runs. |
| MetricTable.UpdatePassesOverwrite | src/Aspire.Dashboard/Components/Controls/MetricTable.razor.cs:83-93 | The passes over existing slots only overwrite. |
| MetricTable.UpdatePassesOverwriteThenAdd | src/Aspire.Dashboard/Components/Controls/MetricTable.razor.cs:83-93 | The passes beyond the list's end add the remaining rows. |
| MetricTable.UpdateList | src/Aspire.Dashboard/Components/Controls/MetricTable.razor.cs:83-93 | The loop yields a sorted list equal to overwrite-then-add. |
| MetricTable.UpdateListMeetsSpecification | src/Aspire.Dashboard/Components/Controls/MetricTable.razor.cs:83-93 | The loop passes meet the overwrite-then-add specification. |
| MetricTable.SortedAddAfterRows | src/Aspire.Dashboard/Components/Controls/MetricTable.razor.cs:87 | Adding to a list built from rows succeeds exactly when no row there has the same window. |
| MetricTable.AddAllFromEmpty | src/Aspire.Dashboard/Components/Controls/MetricTable.razor.cs:83-93 | Filling an empty list succeeds exactly when the rows' windows are pairwise distinct, and then holds exactly the rows. |
| MetricTable.AddAll | src/Aspire.Dashboard/Components/Controls/MetricTable.razor.cs:83-93 | When every insertion succeeds, the list grows by exactly the number of rows added. |
| MetricTable.FirstUpdateShowsRowsInTimeOrder | src/Aspire.Dashboard/Components/Controls/MetricTable.razor.cs:78-93 | The first update of an empty table shows every row in time order. It fails only when two rows share a time window. |
| MetricTable.MetricTableView.FilteredMetrics | src/Aspire.Dashboard/Components/Controls/MetricTable.razor.cs:17 | "Show latest" shows the last ten values; otherwise all of them. |
| MetricTable.MetricTableView.OnInstrumentDataUpdate | src/Aspire.Dashboard/Components/Controls/MetricTable.razor.cs:25-97 | With no matched dimensions only the flag is cleared. Otherwise the list is synchronised with the built (and, with the option, collapsed) rows. |
| MetricTable.MetricTableView.TrimTo | src/Aspire.Dashboard/Components/Controls/MetricTable.razor.cs:78-81 | Rows are removed from the end until at most `n` remain. |
| MetricTable.MetricTableView.UpdateRows | src/Aspire.Dashboard/Components/Controls/MetricTable.razor.cs:83-93 | Row by row, the list becomes overwrite-then-add of the new rows. |
| MetricsPage.DurationMatches | src/Aspire.Dashboard/Components/Pages/Metrics.razor.cs:87 | Only a non-negative minute count can match a listed duration. |
| MetricsPage.DurationMatchesDistinct | src/Aspire.Dashboard/Components/Pages/Metrics.razor.cs:87 | In the repetition-free duration list a value matches once if it is listed, and never otherwise. |
| MetricsPage.DurationFromRoute | src/Aspire.Dashboard/Components/Pages/Metrics.razor.cs:87 | A listed duration is selected. Any other value, including the 0 of a missing query, selects five minutes. The lookup never throws. |
| MetricsPage.SelectDuration | src/Aspire.Dashboard/Components/Pages/Metrics.razor.cs:87 | A selected duration is one of the listed durations, and it is either the route's value or the five-minute default. |
| MetricsPage.IdMatches | src/Aspire.Dashboard/Components/Pages/Metrics.razor.cs:88 | Every match has the id, and there are no more matches than applications. |
| MetricsPage.IdMatchesMembers | src/Aspire.Dashboard/Components/Pages/Metrics.razor.cs:88 | The matches are exactly the applications with that id. |
| MetricsPage.IdMatchesFromPositions | src/Aspire.Dashboard/Components/Pages/Metrics.razor.cs:88 | Two positions holding the id give at least two matches. |
| MetricsPage.IdMatchesToPositions | src/Aspire.Dashboard/Components/Pages/Metrics.razor.cs:88 | Two or more matches come from two positions. |
| MetricsPage.SelectApplicationFor | src/Aspire.Dashboard/Components/Pages/Metrics.razor.cs:88 | `SingleOrDefault ?? placeholder`: the application with the id, or the placeholder when there is none. It throws exactly when two applications share the id. |
| MetricsPage.FirstMeter | src/Aspire.Dashboard/Components/Pages/Metrics.razor.cs:98 | Absent exactly when no instrument belongs to the meter. Otherwise it is the parent of the first instrument that does. |
| MetricsPage.ViewModelFromQuery | src/Aspire.Dashboard/Components/Pages/Metrics.razor.cs:83-111 | No tree item is selected. Instruments are read exactly for a non-empty application id. A meter is set only from those instruments, and an instrument only under a meter. |
| MetricsPage.SelectionFromRoute | src/Aspire.Dashboard/Components/Pages/Metrics.razor.cs:93-108 | The duration is a listed one, and the application is listed or the placeholder. A meter is selected only for a listed application with an instrument of that meter, and the instrument is the repository's answer. |
| MetricsPage.UriQuery | src/Aspire.Dashboard/Components/Pages/Metrics.razor.cs:183-188 | `duration` is present exactly when the duration is not the default; there are no other keys. |
| MetricsPage.UriPathIsSlashed | src/Aspire.Dashboard/Components/Pages/Metrics.razor.cs:162-181 | The path is `/Metrics` followed by one slash-prefixed segment per selection. |
| MetricsPage.UriPathSegments | src/Aspire.Dashboard/Components/Pages/Metrics.razor.cs:162-181 | When no name contains `/`, splitting the path at `/` gives exactly `Metrics` and the selections. |
| MetricsPage.QueryDurationRoundTrip | src/Aspire.Dashboard/Components/Pages/Metrics.razor.cs:160-191 | The `duration` query parameter reads back as the selected duration, whatever the path. |
| MetricsPage.UrlRoundTrip | src/Aspire.Dashboard/Components/Pages/Metrics.razor.cs:160-191 | Reading the written URL back as route parameters gives the view model's application id, meter, instrument (only under a meter) and duration. |
| MetricsPage.GetUriFromViewModel | src/Aspire.Dashboard/Components/Pages/Metrics.razor.cs:160-191 | The path starts with `/Metrics`. The query has `duration` exactly when the duration is not the default. |
| MetricsPage.RouteFromUri | src/Aspire.Dashboard/Components/Pages/Metrics.razor.cs:28-39 | A missing `duration` query reads as 0, and no duration is negative. A meter is read only with an application, an instrument only with a meter. |
| MetricsPage.SelectTreeItem | src/Aspire.Dashboard/Components/Pages/Metrics.razor.cs:139-158 | The tree selection sets the tree item and leaves the application and duration alone. |
| MetricsPage.TreeSelectionConsistent | src/Aspire.Dashboard/Components/Pages/Metrics.razor.cs:141-155 | A meter item clears the instrument. An instrument item sets the instrument and its parent meter. Anything else clears both. Selecting again changes nothing. |
| MetricsPage.InstrumentsAfterUpdate | src/Aspire.Dashboard/Components/Pages/Metrics.razor.cs:202-211 | The callback either keeps the instrument list or replaces it with the latest summary. |
| MetricsPage.InstrumentsNeverShrink | src/Aspire.Dashboard/Components/Pages/Metrics.razor.cs:204-211 | For a real application the list never shrinks. It is replaced exactly when there was none or the summary is larger. |
| MetricsPage.Page.constructor | src/Aspire.Dashboard/Components/Pages/Metrics.razor.cs:53-75 | The placeholder comes first, then the known applications; there is no view model yet. |
| MetricsPage.Page.UpdateSubscription | src/Aspire.Dashboard/Components/Pages/Metrics.razor.cs:193-215 | The page subscribes afresh exactly when it has no subscription or its subscription is for another application. |
| MetricsPage.Page.UpdateApplications | src/Aspire.Dashboard/Components/Pages/Metrics.razor.cs:113-118 | The application list is the placeholder at index 0, then the repository's applications; the subscription is then updated. |
| MetricsPage.Page.OnParametersSet | src/Aspire.Dashboard/Components/Pages/Metrics.razor.cs:77-81 | The view model and instruments are read from the route, then the subscription is updated; a throwing lookup changes nothing. |
| MetricsPage.Page.HandleSelectedTreeItemChanged | src/Aspire.Dashboard/Components/Pages/Metrics.razor.cs:139-158 | The view model becomes `SelectTreeItem` of the bound item; nothing else changes. |
| MetricsPage.Page.OnNewMetrics | src/Aspire.Dashboard/Components/Pages/Metrics.razor.cs:200-213 | The callback updates the instruments as `InstrumentsAfterUpdate` for the subscribed application. |
| TextVisualizer.SplitLines | src/Aspire.Dashboard/Components/Dialogs/TextVisualizerDialog.razor.cs:82-87 | Splitting at `\r\n`, `\r` and `\n` always gives at least one line. |
| TextVisualizer.SplitLinesCount | src/Aspire.Dashboard/Components/Dialogs/TextVisualizerDialog.razor.cs:82-87 | There is one line more than there are line breaks, with `\r\n` counting once. |
| TextVisualizer.SplitLinesHaveNoBreaks | src/Aspire.Dashboard/Components/Dialogs/TextVisualizerDialog.razor.cs:82-87 | No line contains `\r` or `\n`. |
| TextVisualizer.SplitLinesRoundTrip | src/Aspire.Dashboard/Components/Dialogs/TextVisualizerDialog.razor.cs:82-87 | Without carriage returns the lines are the `\n`-split pieces, and joining them with `\n` restores the text. |
| TextVisualizer.TextVisualizerDialog.constructor | src/Aspire.Dashboard/Components/Dialogs/TextVisualizerDialog.razor.cs:28-30 | The dialog starts with empty text, no enabled formats and plain text shown. |
| TextVisualizer.TextVisualizerDialog.TryFormatJson | src/Aspire.Dashboard/Components/Dialogs/TextVisualizerDialog.razor.cs:103-117 | On success the formatted JSON is shown; on failure nothing changes. |
| TextVisualizer.TextVisualizerDialog.TryFormatXml | src/Aspire.Dashboard/Components/Dialogs/TextVisualizerDialog.razor.cs:89-101 | On success the formatted XML is shown; on failure nothing changes. |
| TextVisualizer.TextVisualizerDialog.OnParametersSet | src/Aspire.Dashboard/Components/Dialogs/TextVisualizerDialog.razor.cs:51-75 | JSON is tried first, then XML, else plain text. The enabled formats are plain text plus the one that parsed. |
| TextVisualizer.TextVisualizerDialog.ChangeFormat | src/Aspire.Dashboard/Components/Dialogs/TextVisualizerDialog.razor.cs:121-136 | Choosing XML or JSON reformats when the parse succeeds and keeps the display when it fails. Any other choice shows the raw text as plain text. |
| TextVisualizer.TextVisualizerDialog.GetLines | src/Aspire.Dashboard/Components/Dialogs/TextVisualizerDialog.razor.cs:82-87 | There is one line per split piece, numbered from 0, holding that piece, and flagged as formatted unless plain text is shown. |
| NestedDataGrid.DataItem.constructor | src/Aspire.Dashboard/Components/Controls/NestedDataGrid/FluentNestedDataGridItem.cs:3-8 | An item is expandable exactly when it has children. It starts expanded exactly when it is not expandable. |
| NestedDataGrid.MaxHeight | src/Aspire.Dashboard/Components/Controls/NestedDataGrid/FluentNestedDataGridItem.cs:5 | The tallest child's height bounds every child. |
| NestedDataGrid.ItemsForCount | src/Aspire.Dashboard/Components/Controls/NestedDataGrid/FluentNestedDataGrid.razor.cs:18-35 | There is exactly one display item per item of the forest. |
| NestedDataGrid.ItemsFor | src/Aspire.Dashboard/Components/Controls/NestedDataGrid/FluentNestedDataGrid.razor.cs:18-35 | Every display item's parents begin with the parents passed in. |
| NestedDataGrid.GetGridItems | src/Aspire.Dashboard/Components/Controls/NestedDataGrid/FluentNestedDataGrid.razor.cs:14-17 | There is one display item per item of the forest. |
| NestedDataGrid.ParentsAreAncestors | src/Aspire.Dashboard/Components/Controls/NestedDataGrid/FluentNestedDataGrid.razor.cs:24-29 | Every display item carries the given parents followed by exactly the chain of ancestors down to its item. |
| NestedDataGrid.PreOrder | src/Aspire.Dashboard/Components/Controls/NestedDataGrid/FluentNestedDataGrid.razor.cs:20-33 | The first display item is the first item with the given parents, followed by its own descendants below it. |
| NestedDataGrid.GetGridItemsAtLevel | src/Aspire.Dashboard/Components/Controls/NestedDataGrid/FluentNestedDataGrid.razor.cs:49-52 | The result is exactly the display items with `level` parents. |
| NestedDataGrid.AtLevelAppend | src/Aspire.Dashboard/Components/Controls/NestedDataGrid/FluentNestedDataGrid.razor.cs:51 | `Where` keeps the input order: filtering distributes over concatenation. |
| NestedDataGrid.DescendantsBelowLevel | src/Aspire.Dashboard/Components/Controls/NestedDataGrid/FluentNestedDataGrid.razor.cs:24-29 | An item's descendants lie strictly deeper than the item itself. |
| NestedDataGrid.TopLevelItems | src/Aspire.Dashboard/Components/Controls/NestedDataGrid/FluentNestedDataGrid.razor.cs:49-52 | At the level of the given parents, a forest contributes exactly its own items, in order. |
| NestedDataGrid.RootsAtLevelZero | src/Aspire.Dashboard/Components/Controls/NestedDataGrid/FluentNestedDataGrid.razor.cs:14-16 | The display items at level 0 are exactly the roots. |
| NestedDataGrid.PathParentsExpandable | src/Aspire.Dashboard/Components/Controls/NestedDataGrid/FluentNestedDataGridItem.cs:6 | Every parent of a displayed item is expandable. |
| NestedDataGrid.InitiallyOnlyRootsVisible | src/Aspire.Dashboard/Components/Controls/NestedDataGrid/FluentNestedDataGridItem.cs:13 | While the parents still have their initial expansion state, an item is visible exactly when it is a root. |
| NestedDataGrid.ToggleNode | src/Aspire.Dashboard/Components/Controls/NestedDataGrid/FluentNestedDataGrid.razor.cs:43-47 | Toggling flips that one item's expansion. |
| NestedDataGrid.GridTemplateColumns | src/Aspire.Dashboard/Components/Controls/NestedDataGrid/FluentNestedDataGrid.razor.cs:38-41 | The template throws exactly for a negative level count. |
| NestedDataGrid.DefaultTemplate | src/Aspire.Dashboard/Components/Controls/NestedDataGrid/FluentNestedDataGrid.razor.cs:40 | Without a width delegate the template is `0.45fr ` once per level, then the grid's own template columns. |
| TelemetryService.ContextShapes | src/Aspire.Dashboard/Telemetry/DashboardTelemetryService.cs:89-343 | Start operations carry two properties, end operations one, and the rest none. Returning operations are named by their event; property operations use a `context/…` name. The request carries that context. |
| TelemetryService.ContextOf | src/Aspire.Dashboard/Telemetry/DashboardTelemetryService.cs:89-343 | With telemetry on, every operation creates a context. Returning operations name it by their event and give it at least one property slot; the others give it none. |
| TelemetryService.RequestOf | src/Aspire.Dashboard/Telemetry/DashboardTelemetryService.cs:89-343 | The request carries the operation's context and posts to a `/telemetry/` endpoint. Exactly the two property operations send a property. |
| TelemetryService.Perform | src/Aspire.Dashboard/Telemetry/DashboardTelemetryService.cs:76-83 | Every operation throws `InvalidOperationException` exactly before initialisation. It returns a context exactly for the operations that return one. |
| TelemetryService.DisabledIsSilent | src/Aspire.Dashboard/Telemetry/DashboardTelemetryService.cs:91-94 | With telemetry disabled, an operation posts nothing and returns the empty context where one is returned. |
| TelemetryService.EnabledEmitsOne | src/Aspire.Dashboard/Telemetry/DashboardTelemetryService.cs:89-343 | With telemetry enabled, an operation appends exactly one request with its context and returns that context where one is returned. |
| TelemetryService.DefaultProperties | src/Aspire.Dashboard/Telemetry/DashboardTelemetryService.cs:348-355 | The defaults are the version, then the build id, each with a missing attribute read as "". |
| TelemetryService.PropertyRequests | src/Aspire.Dashboard/Telemetry/DashboardTelemetryService.cs:64-67 | There is one `PostProperty` request per property, in order. |
| TelemetryService.Initialize | src/Aspire.Dashboard/Telemetry/DashboardTelemetryService.cs:40-74 | An initialised service is untouched. Otherwise the sender is asked once and its answer is stored. |
| TelemetryService.InitializeOnce | src/Aspire.Dashboard/Telemetry/DashboardTelemetryService.cs:42-55 | A second initialisation changes nothing; the sender is consulted exactly once. |
| TelemetryService.InitializePostsDefaults | src/Aspire.Dashboard/Telemetry/DashboardTelemetryService.cs:62-68 | An enabled initialisation posts one property request per default, in order; a disabled one posts nothing. |
| TelemetryService.PropertyRequestsSnoc | src/Aspire.Dashboard/Telemetry/DashboardTelemetryService.cs:64-67 | Posting one more property appends exactly its request. |
| TelemetryService.DashboardTelemetryService.constructor | src/Aspire.Dashboard/Telemetry/DashboardTelemetryService.cs:15-19 | The service starts uninitialised, with nothing posted. |
| TelemetryService.DashboardTelemetryService.IsTelemetryInitialized | src/Aspire.Dashboard/Telemetry/DashboardTelemetryService.cs:24 | True exactly once the enabled flag is set. |
| TelemetryService.DashboardTelemetryService.IsTelemetryEnabled | src/Aspire.Dashboard/Telemetry/DashboardTelemetryService.cs:34 | Before initialisation it throws `ArgumentNullException`; afterwards it returns the flag. |
| TelemetryService.DashboardTelemetryService.PostPropertyRequest | src/Aspire.Dashboard/Telemetry/DashboardTelemetryService.cs:294-307 | The new state is that of `PostProperty`. |
| TelemetryService.DashboardTelemetryService.InitializeAsync | src/Aspire.Dashboard/Telemetry/DashboardTelemetryService.cs:40-74 | The method, with its posting loop, reaches `Initialize` of the old state. |
| TelemetryService.DashboardTelemetryService.Execute | src/Aspire.Dashboard/Telemetry/DashboardTelemetryService.cs:89-343 | Each of the eleven operations returns and changes state as `Perform` does. |
| FluentUiAttributes.KeyEqualsIsEquality | src/Aspire.Dashboard/Extensions/FluentUIExtensions.cs:45-52 | The ordinal key comparer is string equality, symmetric, and case-sensitive. |
| FluentUiAttributes.ContainsKey | src/Aspire.Dashboard/Extensions/FluentUIExtensions.cs:21-24 | True exactly when some entry has the key. |
| FluentUiAttributes.Lookup | src/Aspire.Dashboard/Extensions/FluentUIExtensions.cs:13-24 | A value is found exactly when the key is present. |
| FluentUiAttributes.Keys | src/Aspire.Dashboard/Extensions/FluentUIExtensions.cs:13-24 | The keys are the entries' keys, in order. |
| FluentUiAttributes.AddAll | src/Aspire.Dashboard/Extensions/FluentUIExtensions.cs:21-24 | Success appends the extras in order. A failure names an extra whose key is already present. |
| FluentUiAttributes.AddAllSucceedsIffDistinct | src/Aspire.Dashboard/Extensions/FluentUIExtensions.cs:21-24 | Adding succeeds exactly when all keys of the result are distinct. |
| FluentUiAttributes.LookupPrefix | src/Aspire.Dashboard/Extensions/FluentUIExtensions.cs:13-24 | Adding entries after a present key does not change its value. |
| FluentUiAttributes.AddAttributes | src/Aspire.Dashboard/Extensions/FluentUIExtensions.cs:21-24 | The `Add` loop computes `AddAll`. |
| FluentUiAttributes.GetClipboardCopyAdditionalAttributes | src/Aspire.Dashboard/Extensions/FluentUIExtensions.cs:8-27 | The method builds the fixed entries and then adds the extras. |
| FluentUiAttributes.ClipboardBaseEntries | src/Aspire.Dashboard/Extensions/FluentUIExtensions.cs:13-19 | There are four distinct fixed keys, holding the texts (null read as "") and `"true"`. |
| FluentUiAttributes.ClipboardAttributes | src/Aspire.Dashboard/Extensions/FluentUIExtensions.cs:8-27 | It throws exactly on a repeated key. Otherwise: the four fixed entries, then the extras in order. |
| FluentUiAttributes.GetOpenTextVisualizerAdditionalAttributes | src/Aspire.Dashboard/Extensions/FluentUIExtensions.cs:29-43 | The method builds the two fixed entries and then adds the extras. |
| FluentUiAttributes.VisualizerAttributes | src/Aspire.Dashboard/Extensions/FluentUIExtensions.cs:29-43 | It throws exactly on a repeated key. Otherwise the keys are the two fixed keys, then the extras' keys, and the fixed keys hold the given texts. |
| Viewport.GetViewportInformation | src/Aspire.Dashboard/Components/Resize/BrowserDimensionWatcher.razor.cs:30-34 | The viewport is desktop exactly when the width is at least 768; the dimensions are copied. |
| Viewport.DesktopMonotoneInWidth | src/Aspire.Dashboard/Components/Resize/BrowserDimensionWatcher.razor.cs:32 | Widening a desktop viewport keeps it desktop. |
| LaunchConfiguration.NewAction | src/Aspire.Hosting/ExecutableLaunchConfiguration.cs:95-99 | The constructor throws exactly for a null or blank value; otherwise it stores the value. |
| LaunchConfiguration.ToString | src/Aspire.Hosting/ExecutableLaunchConfiguration.cs:160 | Constructing from `ToString` gives the same action. |
| LaunchConfiguration.FromKind | src/Aspire.Hosting/ExecutableLaunchConfiguration.cs:131-138 | Every kind gives a valid action. |
| LaunchConfiguration.TryGetKind | src/Aspire.Hosting/ExecutableLaunchConfiguration.cs:145-157 | An action is recognised exactly when it is one of the four wire strings, with `OpenExternally` as the default otherwise. |
| LaunchConfiguration.KindBijection | src/Aspire.Hosting/ExecutableLaunchConfiguration.cs:109-157 | Each kind maps to its string and back, and every recognised action is its kind's action. |
| LaunchConfiguration.FromKindInjective | src/Aspire.Hosting/ExecutableLaunchConfiguration.cs:131-138 | Distinct kinds give distinct actions. |
| LaunchConfiguration.Read | src/Aspire.Hosting/ExecutableLaunchConfiguration.cs:168-188 | Null reads as no action. A non-string token fails with "expected string or null", and a blank string fails with "cannot be empty". Any other string is accepted unvalidated. |
| LaunchConfiguration.Write | src/Aspire.Hosting/ExecutableLaunchConfiguration.cs:190-199 | No action is written as null; an action is written as its string. |
| LaunchConfiguration.ConverterRoundTrip | src/Aspire.Hosting/ExecutableLaunchConfiguration.cs:168-199 | Write-then-read gives the action back. Whatever `Read` accepts, `Write` writes back as the same token. |
| LaunchConfiguration.UnknownActionsAreCarried | src/Aspire.Hosting/ExecutableLaunchConfiguration.cs:168-188 | An unknown non-blank string is read as an action that no kind recognises. |
| LaunchConfiguration.NewDebuggerProperties | src/Aspire.Hosting/ExecutableLaunchConfiguration.cs:279-280 | `Request` defaults to `launch`; the other properties are stored. |
| DebugSessions.Started | extension/src/debugger/common.ts:9-13 | A session joins the children exactly when its parent is the Aspire session; nothing else changes. |
| DebugSessions.Remove | extension/src/debugger/common.ts:30-41 | Deleting from the set removes exactly that session, keeps the rest distinct, and shortens the set by one when the session was present. |
| DebugSessions.StopFailures | extension/src/debugger/common.ts:20-26 | Each failed stop logs one failure naming its child, and nothing else is logged. |
| DebugSessions.Terminated | extension/src/debugger/common.ts:16-42 | The termination handler never changes the Aspire session. |
| DebugSessions.StartTracksChildren | extension/src/debugger/common.ts:9-13 | Starting keeps the coordinator valid, and a session is tracked exactly when it is a child of the Aspire session. |
| DebugSessions.RootTerminationStopsEveryChild | extension/src/debugger/common.ts:18-28 | Ending the Aspire session requests one stop per child, in order, logs every failure and empties the set. |
| DebugSessions.ChildTermination | extension/src/debugger/common.ts:30-41 | An ending child is removed, and it stops the Aspire session exactly when it is an AppHost. |
| DebugSessions.UnrelatedTermination | extension/src/debugger/common.ts:16-42 | Ending an untracked, unrelated session changes nothing. |
| DebugSessions.TerminationPreservesValid | extension/src/debugger/common.ts:16-42 | Termination keeps the children distinct children of the Aspire session. |
| DebugSessions.ChildSessionTracker.constructor | extension/src/debugger/common.ts:6 | The tracker starts with no children, stops or failures. |
| DebugSessions.ChildSessionTracker.OnDidStartDebugSession | extension/src/debugger/common.ts:9-13 | The start handler reaches `Started`. |
| DebugSessions.ChildSessionTracker.StopChildren | extension/src/debugger/common.ts:20-26 | The loop requests a stop for each child, in order, and logs `StopFailures`. |
| DebugSessions.ChildSessionTracker.OnDidTerminateDebugSession | extension/src/debugger/common.ts:16-42 | The termination handler reaches `Terminated`. |
| Sequences.FirstWhere | extension/src/debugger/common.ts:46-52 | The first element satisfying the predicate: none exactly when no element satisfies it, else an element that satisfies it with no earlier one that does. |
| Sequences.FirstWhereAppend | extension/src/debugger/common.ts:46-64 | Searching a concatenation looks at the second part only when the first has no match. |
| DebugSessions.FirstNamed | extension/src/debugger/common.ts:46-52 | The listener picks the first started session with the configuration's name, or none when no session has that name. |
| DebugSessions.FirstNamedAppend | extension/src/debugger/common.ts:46-64 | Sessions seen later matter only when none seen earlier matched. |
| DebugSessions.StartAndGetDebugSession | extension/src/debugger/common.ts:44-65 | Exactly one start is requested, under the Aspire session. A resolved session has the configuration's name. The promise can fail to settle only when `startDebugging` rejects. |
| DebugSessions.SeenSessions | extension/src/debugger/common.ts:46-58 | The listener sees the sessions started before the call ends, and the later ones too unless the start returned `false`. |
| DebugSessions.StartOutcome | extension/src/debugger/common.ts:44-65 | When the start returns, the promise resolves with the first matching session the listener sees, or with nothing. After a rejection it settles with that first match, or never. |
| DebugSessions.RejectedStartSettlesOnlyOnName | extension/src/debugger/common.ts:44-65 | After a rejected `startDebugging` the promise settles exactly when a session with the configuration's name starts, and then holds such a session. |
| AppHostAttach.AttachConfig | extension/src/debugger/appHost.ts:17-25 | The attach configuration is `coreclr`, `attach`, named "Attach to AppHost", with `justMyCode` false; its process id reads back as the pid. |
| AppHostAttach.SourceRootIgnored | extension/src/debugger/appHost.ts:7-25 | The source root does not affect the configuration. |
| AppHostAttach.Attach | extension/src/debugger/appHost.ts:7-27 | A stored session is always named "Attach to AppHost". |
| AppHostAttach.AttachReplacesSlot | extension/src/debugger/appHost.ts:7-27 | The previous session, if any, is stopped and exactly one attach is started. The slot holds the first session named "Attach to AppHost" that the listener sees, and stays empty when the start never settles. |
| AppHostAttach.AppHostAttacher.constructor | extension/src/debugger/appHost.ts:5 | The slot starts empty. |
| AppHostAttach.AppHostAttacher.AttachToAppHost | extension/src/debugger/appHost.ts:7-27 | The method reaches `Attach` of the old state. |
| CopilotService.GetGhcpInfo | extension/src/copilot/CopilotService.ts:25-95 | Enabled exactly when the API exists and models were found. Unknown exactly when a query threw. Models are listed (with the VS Code launcher) only when Enabled. |
| CopilotService.ToLower | extension/src/copilot/CopilotService.ts:238-242 | Lower-casing works character by character and keeps the length. |
| CopilotService.Includes | extension/src/copilot/CopilotService.ts:238-242 | `includes` is true exactly when the substring occurs at some position. |
| CopilotService.ExactIsPartial | extension/src/copilot/CopilotService.ts:226-242 | An exact family match is also a partial match. |
| CopilotService.FirstOfFamily | extension/src/copilot/CopilotService.ts:226-234 | The result is the first model of exactly that family, or none when there is no such model. |
| CopilotService.FirstPartialMatch | extension/src/copilot/CopilotService.ts:238-242 | The result is the first model whose lower-cased family or name includes the lower-cased family, or none. |
| CopilotService.SelectModel | extension/src/copilot/CopilotService.ts:224-251 | A selected model is one of the models and matches partially. The result is undefined exactly when no model matches partially. |
| CopilotService.SelectModelPrefersExact | extension/src/copilot/CopilotService.ts:226-234 | The first exact family match wins. |
| CopilotService.SelectModelFallsBackToPartial | extension/src/copilot/CopilotService.ts:238-242 | Without an exact match, the first partial match wins. |
| CopilotService.RequestedFamily | extension/src/copilot/CopilotService.ts:104 | The requested model, or `gpt-4o` when it is missing or empty. |
| CopilotService.ResponseModel | extension/src/copilot/CopilotService.ts:141 | The response names the requested model, or the chosen model's family. |
| CopilotService.ToolCallArguments | extension/src/copilot/CopilotService.ts:278-288 | Blank or unparsable arguments become `{}`; otherwise the parsed value. |
| CopilotService.ConvertToVSCodeMessages | extension/src/copilot/CopilotService.ts:253-320 | Messages are converted one by one, in order. |
| CopilotService.ConvertMessage | extension/src/copilot/CopilotService.ts:259-318 | Only an assistant message gets the Assistant role, and every converted message has at least one part. |
| CopilotService.MessageConversion | extension/src/copilot/CopilotService.ts:253-320 | Only assistant messages get the Assistant role. System text is prefixed `[System] `. Tool results carry their call id. An assistant with calls gives its non-empty text, then one tool-call part per call, with the call's id, name and parsed arguments. |
| CopilotService.ConvertToVSCodeTools | extension/src/copilot/CopilotService.ts:344-361 | It succeeds exactly when every tool is a function. Names and descriptions are kept, and the schema is kept unless it is missing or falsy, when it becomes `{}`. Otherwise it fails at the first other type, with "Unsupported tool type: ". |
| CopilotService.ConvertTool | extension/src/copilot/CopilotService.ts:348-358 | The tool keeps its name and description. Its input schema is the parameters, or `{}` when they are missing or falsy (`null`, `false`, `0`, `""`). |
| CopilotService.PrepareRequest | extension/src/copilot/CopilotService.ts:100-113 | With no matching model, "Model … not available" is thrown. Once a model is found, the request fails exactly when a tool cannot be converted, with that error. Otherwise the selected model, converted messages and converted tools are used. |
| CopilotService.UnsupportedToolRejectsRequest | extension/src/copilot/CopilotService.ts:100-113 | Once a model is found, the first tool that is not a function fails the whole request with "Unsupported tool type: " and its type. |
| CopilotService.NoModelsNotAvailable | extension/src/copilot/CopilotService.ts:106-108 | With no models, every request fails with a message ending " not available". |
| CopilotService.ToolCallParts | extension/src/copilot/CopilotService.ts:115-137 | Only tool-call parts are collected. |
| CopilotService.ToolCallObjects | extension/src/copilot/CopilotService.ts:115-137 | There is one tool call per tool-call part, indexed 0, 1, … in order. |
| CopilotService.ResponseAssembly | extension/src/copilot/CopilotService.ts:139-151 | One choice: content is the joined texts. `tool_calls` is absent exactly when there are none, else indexed in order with their ids. The finish reason is `tool_calls` iff there are calls, else `stop`. |
| CopilotService.Completion | extension/src/copilot/CopilotService.ts:139-151 | The completion carries the creation time and the response model, with a single choice that has a finish reason. |
| CopilotService.GenerateResponseAsync | extension/src/copilot/CopilotService.ts:100-152 | The method throws as `PrepareRequest` does, or returns the `Completion` of the response parts. |
| CopilotService.CollectParts | extension/src/copilot/CopilotService.ts:115-137 | The stream loop collects exactly the texts and the tool-call objects. |
| CopilotService.DeltaChunks | extension/src/copilot/CopilotService.ts:184-193 | There is one delta chunk per text part, in order. |
| CopilotService.ProcessedCount | extension/src/copilot/CopilotService.ts:178-181 | Cancellation only shortens the processed stream. |
| CopilotService.StreamingMatchesCompletion | extension/src/copilot/CopilotService.ts:157-222 | One delta chunk per text without a finish reason, then a final chunk. The final chunk carries every tool call and the completion's finish reason; the deltas join to the completion's content. |
| CopilotService.StreamingChunks | extension/src/copilot/CopilotService.ts:157-222 | There is one chunk per text part plus a final one, and every chunk carries the creation time and the response model. |
| CopilotService.GenerateStreamingResponseAsync | extension/src/copilot/CopilotService.ts:157-222 | The method throws as `PrepareRequest` does, or yields the streaming chunks of the parts read before cancellation. |
| CopilotService.StreamParts | extension/src/copilot/CopilotService.ts:176-208 | The loop yields a delta per text part and collects the tool calls, up to the cancellation point. |

## Left out

- Rendering is not modelled, nor anything inside Razor markup.
  - This covers localisation (`Loc[...]`, duration labels), `StateHasChanged`/`InvokeAsync`, JS interop and logging.
  - They have no observable effect on the modelled state.
- `SemaphoreSlim` locking, the telemetry HTTP request lambdas and `PostRequestAsync` are not modelled.
- Concurrency: every handler and method, in every module, is modelled as atomic. No interleaving at an `await` is modelled.
  - Requests are recorded as posted values.
- `TelemetryPropertyKeys` and the assembly version attributes are parameters of the telemetry service: reflection is not modelled.
- Culture-sensitive string comparison (`StringComparers.ResourceName`), `DateTime.TryParseExact`/`FormatDateTime` and `Path.GetFileName` are parameters. Their culture and platform rules are outside Dafny.
- ResourceModel.GetResourceName: the dictionary's enumeration order and the resource-name equality are parameters.
- ResourceModel.CompareNames: proved a comparer only under the assumption that the string comparer is one (`IsComparer`).
- ResourceSets.MapResourceNamesToSets: the `ConcurrentDictionary` value order and the name comparer are parameters.
  - `OrderBy` is modelled as a stable insertion sort.
- MetricTable.MetricTableView.OnInstrumentDataUpdate: a throwing `SortedList.Add` is modelled as a failed update that leaves the partial list; the exception's propagation is not.
- MetricsPage.Page.HandleSelectedTreeItemChanged: requires a view model, since the source dereferences `ViewModel`, which is set by `OnParametersSet` before any tree event.
- MetricsPage.ViewModelFromQuery: route templates are read by `RouteFromUri`. A duration query that is not a number reads as 0, as the router's default.
- `HandleSelectedApplicationChanged`/`HandleSelectedDurationChanged` and `AfterViewModelChanged` (navigation) are not modelled: they only navigate.
- TextVisualizer.TextVisualizerDialog.OnParametersSet:
  - the `_options` list built for the format menu is not modelled;
  - the JSON and XML formatters are parameters;
  - `IAsyncDisposable` and the theme and clipboard calls are not modelled.
- NestedDataGrid.DataItem.constructor: requires the children to be well-formed (built before their parent), which gives the forest a height. The model fixes an item's children at construction; the source's children collection can still be changed after the parent is built, and that is not modelled.
  - The display item's `Children` is read as the item's own children.
- NestedDataGrid.GridTemplateColumns: the delegate `GetColumnWidthAtLevel` is an optional function parameter.
- FluentUiAttributes.AddAll: the dictionary is modelled as its entries in insertion order. Object values are known by an id; hashing plays no part.
- LaunchConfiguration.NewDebuggerProperties: only the four shared properties are modelled.
  - The `Mode` default (`Debugger.IsAttached`) is not modelled.
  - Neither is a `default` value of the `ServerReadyActionAction` struct, whose value would be null.
- LaunchConfiguration.Read: JSON tokens are abstracted to their token type and string text; the reader's position is not modelled.
- DebugSessions.ChildSessionTracker.constructor: the Aspire session is fixed when the tracker is created; the debug adapter that sets it is not part of this model.
  - Session identity is value equality.
  - The stop failures come from a parameter.
- DebugSessions.StartAndGetDebugSession: the 10-second timeout is modelled as the sessions seen before it. The listener disposal is not modelled, including the listener a rejected start leaves registered. The sessions after a rejection are a finite sequence, so "never settles" means that no session in it has the name.
- DebugSessions.ChildSessionTracker.OnDidTerminateDebugSession: the root handler awaits `stopDebugging` for each child of the live set. The interleaving at that `await` is not modelled. There, a child's own termination handler could delete the child and, for an AppHost child, request another stop of the Aspire session.
- LaunchConfiguration.FromKind: undefined `ServerReadyActionKind` values, and the `ArgumentOutOfRangeException` they raise, are not modelled; the kind is a closed datatype.
- AppHostAttach.AppHostAttacher.AttachToAppHost: the stop of the previous session is requested, not awaited (as in the source).
- CopilotService.FirstOfFamily: VS Code's exact `selectChatModels({vendor, family})` query is modelled as the first model of that family in the vendor query's order.
- CopilotTypes.JsonValue: `JsonNumber` holds integers. JSON's double-precision numbers (fractions, `NaN`, `-0`) are not modelled, so `0` is the only falsy number.
- CopilotService.ToLower: lower-cases ASCII letters only; full Unicode case mapping is not modelled.
- CopilotService.ToolCallArguments: `JSON.parse` and `JSON.stringify` are parameters.
- CopilotService.GenerateResponseAsync: `Date.now()` is a single `created` parameter. Exceptions thrown by `selectChatModels` inside generation are not modelled.
- CopilotService.GenerateStreamingResponseAsync: the source reads `Date.now()` once for each chunk; the model takes a single `created` parameter, so every chunk carries the same timestamp.
  - The `sendRequest` stream is the sequence of parts.
- CopilotService.GetGhcpInfo: the availability of `vscode.lm` and the outcome of the model queries are parameters.
- The remaining files of the repository are not part of this model:
  - the dashboard web application host;
  - the Aspire telemetry service;
  - CLI and hosting resources other than executable launch configurations;
  - the playground apps;
  - the language-specific debuggers.
