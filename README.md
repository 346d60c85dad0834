# SystemPulse core, modelled in Dafny

SystemPulse is a Windows system monitor. Its pages show live performance charts, the process list, the Windows services, the signed-in users, the startup applications and the settings. Under the UI sits a set of deterministic rules. This project models those rules and proves what they guarantee:

- **Bounded histories and statistics** (`ChartDataHelper`, the performance and overview pages).
  - A history is an append-then-evict-oldest buffer: 300 values on the performance page, 60 on the overview page.
  - Each history is always exactly the last N readings of its channel.
  - Statistics: current, minimum, maximum and average.
  - Time labels, interpolation and the moving average.
- **Monitoring switches**: idempotent start and stop, the update-interval mapping, the `[1,60]` refresh-interval guard, and the mutually exclusive time-range flags.
- **Process inventory and kill policy** (`ProcessService`, processes page).
  - Listing skips unreadable processes and orders by memory.
  - Name search ignores case.
  - The protected-name set applies to Kill. KillTree is not gated, and Suspend and Resume only look the process up.
  - The page's filter, its stable sort and its sort-toggle rule.
- **Services and users** (`WMIService`, services and users pages).
  - Service records come from WMI rows, with defaults.
  - The listing stops at the first row whose state fails to parse.
  - Restart is Stop, then Start only if Stop succeeded.
  - The status-filter toggle and the start and stop guards.
  - User sessions are projected from the user names.
- **Startup applications**: projection from the two registry Run keys, search and source filters, and enable/disable.
  - Entries are shared objects, so switching an entry through the displayed list switches it in the full list too.
- **Settings**.
  - The settings service is a key-to-value store with per-call defaults.
  - The settings page edits a nine-field snapshot. It keeps an unsaved-changes flag, has an apply/get round trip, save, cancel-restores-original, and reset.
- **Keyboard shortcuts**: a registry keyed by the text of a key and modifier combination. The key is proved injective. The model also covers key-down dispatch and the display text.
- **Formatting and CSV export**.
  - Byte-unit selection, percentage clamping and network speed.
  - The line and field structure of both CSV exports, with the numeric fields reading back as the numbers written.
- **Value converters**: process state and priority as text, and a boolean as visibility with an inverse mode.

**How the source becomes Dafny.**
- Code that changes state in place is written as classes with `modifies` clauses and loops with invariants: the view models, the settings service, the shortcut registry, the history buffers, the StringBuilder and FormatBytes loops.
- Each state-changing method is specified against a function of the old state.
- Pure logic is written as functions and lemmas.
- Everything the operating system, WMI, the registry, the file system or the clock would answer is a parameter of the operation. For example, the process enumeration, the rows of a WMI query, the outcome of a WMI method call, and what reading the settings file gives.

**Behaviour worth knowing.** The model states the code as written, including these points:
- KillTree applies no protection check, even to the root process.
- When KillTree fails on a descendant it cannot kill, .NET has already killed the killable part of the tree. The model reports the same `KillDenied` failure but leaves the process table unchanged, so those partial kills are not in its post-state.
- Suspend and Resume change nothing.
- A successful service start or stop sets the record to StartPending or StopPending before the reload. The record is updated before the system confirms the new state.
- A failed restart shows a generic "Failed to restart" status. It does not say that the stop failed.
- With an empty history, the performance page leaves its statistics unchanged rather than zeroing them.
- The WMI service parses WMI's own state spellings ("Start Pending", "Auto") with `Enum.Parse` against member names that contain no spaces and no such abbreviations. Such a row ends the listing. `WmiServices.WmiSpellingsDoNotParse` states this.
- GetActiveUsers asks for `UserName` from `Win32_ComputerSystemProduct`, a class that has no such property; `UserName` belongs to `Win32_ComputerSystem`. On Windows the query therefore fails, and the program takes the failed-query branch, which `WmiServices.GetActiveUsers` states gives an empty list. The model takes the query's answer as an input and covers both branches.

## Model

| member | source | states |
|---|---|---|
| ChartData.MinimumIsLeast | src/SystemPulse.App/Helpers/ChartDataHelper.cs:18 | the minimum of a non-empty series is one of its values and no value is below it |
| ChartData.MaximumIsGreatest | src/SystemPulse.App/Helpers/ChartDataHelper.cs:19 | the maximum of a non-empty series is one of its values and no value is above it |
| ChartData.AverageBetween | src/SystemPulse.App/Helpers/ChartDataHelper.cs:18-20 | the average lies between the minimum and the maximum, and times the count gives the sum |
| ChartData.CalculateStatistics | src/SystemPulse.App/Helpers/ChartDataHelper.cs:11-15 | an empty collection gives four zeros |
| ChartData.StatisticsMeaning | src/SystemPulse.App/Helpers/ChartDataHelper.cs:11-23 | for a non-empty collection: current is the last value; min and max are values of it bounding every value and the current one; the average is sum / count and lies between min and max |
| ChartData.StatisticsExample | src/SystemPulse.App/Helpers/ChartDataHelper.cs:11-23 | [10, 20, 30] gives current 30, min 10, max 30, average 20 |
| ChartData.TrimHistory | src/SystemPulse.App/Helpers/ChartDataHelper.cs:28-34 | with maxSize >= 0 the history becomes its last maxSize values in order; with a negative maxSize RemoveAt(0) on the emptied collection throws |
| ChartData.AddToHistory | src/SystemPulse.App/Helpers/ChartDataHelper.cs:39-46 | the history becomes the value appended, with the oldest value dropped once the count exceeds maxSize |
| ChartData.AppendedFacts | src/SystemPulse.App/Helpers/ChartDataHelper.cs:39-46 | one append ends with the new value (maxSize >= 1), grows the history by one exactly while it fits, otherwise shifts it by one, and never lets a history within maxSize outgrow it |
| ChartData.AppendedIsWindow | src/SystemPulse.App/Helpers/ChartDataHelper.cs:39-46 | appending to a history within capacity n gives the last n of the history plus the value |
| ChartData.AppendAllIsLastN | src/SystemPulse.App/Helpers/ChartDataHelper.cs:39-46 | a history filled only by AddToHistory holds exactly the last n values added, oldest first |
| ChartData.GenerateTimeLabels | src/SystemPulse.App/Helpers/ChartDataHelper.cs:51-66 | one label per data point (none for a count <= 0); label i shows (count - 1 - i) * interval as minutes:seconds with C# truncating / and % |
| ChartData.NewestLabel | src/SystemPulse.App/Helpers/ChartDataHelper.cs:58-62 | the newest point is labelled "0:00" |
| ChartData.TimeLabelDecodes | src/SystemPulse.App/Helpers/ChartDataHelper.cs:60-62 | a label of a non-negative elapsed time splits at ':' into digits and two digits that read back as minutes and seconds recombining to the elapsed time |
| ChartData.InterpolateData | src/SystemPulse.App/Helpers/ChartDataHelper.cs:71-99 | the two nested loops build exactly Interpolated(original, factor): each point followed by the factor - 1 intermediate values towards the next one, then the last point |
| ChartData.InterpolatedShape | src/SystemPulse.App/Helpers/ChartDataHelper.cs:77-96 | empty input gives empty output; otherwise (n - 1) * max(factor, 1) + 1 values, with original point t at index t * max(factor, 1) |
| ChartData.InterpolatedIdentity | src/SystemPulse.App/Helpers/ChartDataHelper.cs:84 | a factor of 1 or less adds no intermediate points and gives the data back |
| ChartData.InterpolatedBetween | src/SystemPulse.App/Helpers/ChartDataHelper.cs:84-89 | every intermediate value lies between the two points it interpolates |
| ChartData.WindowNonEmpty | src/SystemPulse.App/Helpers/ChartDataHelper.cs:112-113 | for windowSize >= -1 each smoothing window is a non-empty range of the data containing its own index |
| ChartData.Smoothed | src/SystemPulse.App/Helpers/ChartDataHelper.cs:104-119 | one smoothed value per data value |
| ChartData.SmoothData | src/SystemPulse.App/Helpers/ChartDataHelper.cs:104-119 | the loop computes the moving averages of Smoothed; for windowSize < -1 a non-empty collection makes Average throw on an empty window, an empty one returns empty |
| ChartData.SmoothedIdentity | src/SystemPulse.App/Helpers/ChartDataHelper.cs:112-114 | a window size between -1 and 1 averages each value alone and gives the data back |
| ChartData.SmoothedConstant | src/SystemPulse.App/Helpers/ChartDataHelper.cs:112-114 | constant data is left unchanged by smoothing |
| ChartData.SmoothedBounded | src/SystemPulse.App/Helpers/ChartDataHelper.cs:112-114 | every smoothed value lies between the minimum and the maximum of the data |
| Performance.IntervalSeconds | src/SystemPulse.App/ViewModels/PerformanceViewModel.cs:199-205 | the update interval is 1 s exactly for index 0, 5 s exactly for index 2, and 2 s for index 1 and every other index |
| Performance.RangeSeconds | src/SystemPulse.App/ViewModels/PerformanceViewModel.cs:235-255 | each time range sets a whole number of minutes between 60 and 3600 seconds |
| Performance.RangeSecondsInjective | src/SystemPulse.App/ViewModels/PerformanceViewModel.cs:235-255 | different ranges set different axis maxima |
| Performance.SetFlag | src/SystemPulse.App/ViewModels/PerformanceViewModel.cs:24-37 | storing one range property sets that property and leaves the other four as they were |
| Performance.Only | src/SystemPulse.App/ViewModels/PerformanceViewModel.cs:235-255 | exactly the given range is selected |
| Performance.Points | src/SystemPulse.App/ViewModels/PerformanceViewModel.cs:325-329 | one point per history value |
| Performance.PointsAt | src/SystemPulse.App/ViewModels/PerformanceViewModel.cs:326-329 | point i has x = i and y = the i-th history value |
| Performance.UpdateChartSeries | src/SystemPulse.App/ViewModels/PerformanceViewModel.cs:319-332 | the loop leaves the series holding exactly the points of the history |
| Performance.Refreshed | src/SystemPulse.App/ViewModels/PerformanceViewModel.cs:337-343 | a non-empty history sets current, average, min and max from it; an empty one leaves the previous values |
| Performance.RefreshedPartial | src/SystemPulse.App/ViewModels/PerformanceViewModel.cs:364-377 | network and disk: a non-empty history sets current, average and max from it; an empty one leaves the previous values |
| Performance.FollowSamplesAligned | src/SystemPulse.App/ViewModels/PerformanceViewModel.cs:288-292 | histories fed by the ticks all have the same length, at most 300, and each ends with its channel's reading of the last sample |
| Performance.Tick | src/SystemPulse.App/ViewModels/PerformanceViewModel.cs:288-292 | each channel's history gets that channel's reading of the sample appended, with the oldest dropped beyond 300 |
| Performance.TickFollowsSamples | src/SystemPulse.App/ViewModels/PerformanceViewModel.cs:288-292 | after a tick every history is the last 300 readings of its channel, and none is empty |
| Performance.RefreshedAgree | src/SystemPulse.App/ViewModels/PerformanceViewModel.cs:334-378 | refreshing from five non-empty histories makes every statistic property that of its history |
| Performance.PerformanceViewModel.constructor | src/SystemPulse.App/ViewModels/PerformanceViewModel.cs:20-136 | no timer, interval index 1, only one minute selected with the axes at 60, empty histories, plots and zero statistics; the invariant holds |
| Performance.PerformanceViewModel.StartMonitoring | src/SystemPulse.App/ViewModels/PerformanceViewModel.cs:194-215 | a running timer is kept; otherwise a started timer with the interval of the current index |
| Performance.PerformanceViewModel.StopMonitoring | src/SystemPulse.App/ViewModels/PerformanceViewModel.cs:217-222 | no timer remains |
| Performance.PerformanceViewModel.SetUpdateIntervalIndex | src/SystemPulse.App/ViewModels/PerformanceViewModel.cs:224-231 | the index is stored; a changed index restarts a running timer at the new interval; otherwise the timer is untouched |
| Performance.PerformanceViewModel.SetTimeRange | src/SystemPulse.App/ViewModels/PerformanceViewModel.cs:233-256 | selecting a range clears the other four and sets the axes to its seconds; clearing one, or re-selecting the selected one, changes only that flag; at most one range stays selected and the axes match it |
| Performance.PerformanceViewModel.UpdateTimeRange | src/SystemPulse.App/ViewModels/PerformanceViewModel.cs:258-277 | every chart's x-axis maximum becomes the given seconds |
| Performance.PerformanceViewModel.AddToHistory | src/SystemPulse.App/ViewModels/PerformanceViewModel.cs:310-317 | the value is appended and the oldest dropped once over 300 |
| Performance.PerformanceViewModel.UpdateCharts | src/SystemPulse.App/ViewModels/PerformanceViewModel.cs:279-308 | a sample ticks all five histories, redraws the charts and refreshes the statistics, keeping histories = last 300 samples, charts = histories, statistics = those of the histories; a null sample or a failed read changes nothing |
| Performance.PerformanceViewModel.Advance | src/SystemPulse.App/ViewModels/PerformanceViewModel.cs:288-302 | the five appends, redraws and statistics of one tick keep the view model's invariant for the samples plus the new one |
| Performance.PerformanceViewModel.RedrawCharts | src/SystemPulse.App/ViewModels/PerformanceViewModel.cs:295-299 | every chart shows its history |
| Performance.PerformanceViewModel.UpdateStatistics | src/SystemPulse.App/ViewModels/PerformanceViewModel.cs:334-378 | each channel's statistics are refreshed from its history, network and disk without a minimum |
| Performance.PerformanceViewModel.ClearHistory | src/SystemPulse.App/ViewModels/PerformanceViewModel.cs:403-430 | histories, chart points and statistics are reset, and the invariant holds for the empty run of samples |
| Overview.Push | src/SystemPulse.App/ViewModels/OverviewViewModel.cs:99-101 | the CPU, RAM and GPU trend histories each get their reading of the sample appended, the oldest dropped beyond 60 |
| Overview.PushFollows | src/SystemPulse.App/ViewModels/OverviewViewModel.cs:99-101 | if each trend history is the last 60 readings of its channel, it still is after one more sample |
| Overview.FollowsAligned | src/SystemPulse.App/ViewModels/OverviewViewModel.cs:14-27 | the three trend histories have the same length, at most 60, and end with the latest sample's readings |
| Overview.OverviewViewModel.constructor | src/SystemPulse.App/ViewModels/OverviewViewModel.cs:14-45 | no timer, not monitoring, default metrics stamped with the given time, empty histories, "Initializing..." |
| Overview.OverviewViewModel.StartMonitoring | src/SystemPulse.App/ViewModels/OverviewViewModel.cs:47-70 | while monitoring nothing changes; otherwise a started 1-second timer, monitoring on, "Monitoring active" |
| Overview.OverviewViewModel.StopMonitoring | src/SystemPulse.App/ViewModels/OverviewViewModel.cs:72-81 | while not monitoring nothing changes; otherwise the timer is stopped, monitoring off, "Monitoring stopped" |
| Overview.OverviewViewModel.AddToHistory | src/SystemPulse.App/ViewModels/OverviewViewModel.cs:126-135 | the value is appended and the oldest dropped once over 60 |
| Overview.OverviewViewModel.Take | src/SystemPulse.App/ViewModels/OverviewViewModel.cs:96-101 | the sample becomes the current metrics and is pushed onto the trend, keeping the trend the last 60 samples |
| Overview.OverviewViewModel.UpdateMetrics | src/SystemPulse.App/ViewModels/OverviewViewModel.cs:88-111 | a sample is taken and the status shows "Updated: " and the clock; a null sample changes nothing; a failed read only sets "Error updating metrics" |
| Overview.OverviewViewModel.UpdateMetricsWith | src/SystemPulse.App/ViewModels/OverviewViewModel.cs:113-124 | the overload taking metrics: a sample is taken without touching the status; null changes nothing |
| Overview.OverviewViewModel.RefreshNow | src/SystemPulse.App/ViewModels/OverviewViewModel.cs:137-142 | as UpdateMetrics: a sample becomes current, is pushed to the histories and samples and the status shows the update time; null changes nothing; a failed read only sets "Error updating metrics" |
| Settings.LookupAfterStore | src/SystemPulse.App/Services/SettingsService.cs:22-39 | a key read back at the type it was stored with gives the stored value |
| Settings.LookupWrongType | src/SystemPulse.App/Services/SettingsService.cs:30 | reading a stored key at another type fails with a cast error |
| Settings.LookupOtherKey | src/SystemPulse.App/Services/SettingsService.cs:35-39 | storing one key leaves every other key's reading unchanged |
| Settings.LookupTyped | src/SystemPulse.App/Services/SettingsService.cs:22-33 | a successful reading has the type of the default |
| Settings.SettingsService.constructor | src/SystemPulse.App/Services/SettingsService.cs:10-20 | the store is the parsed file's dictionary, or empty when there is no file, it cannot be read or parsed, or it holds null |
| Settings.SettingsService.LoadSettings | src/SystemPulse.App/Services/SettingsService.cs:71-89 | the same four outcomes as the constructor |
| Settings.SettingsService.GetSetting | src/SystemPulse.App/Services/SettingsService.cs:22-33 | a missing key gives the default; a present key gives its value exactly when it has the default's type, and otherwise fails with a cast error |
| Settings.SettingsService.SetSettingAsync | src/SystemPulse.App/Services/SettingsService.cs:35-39 | the store maps the key to the value and every other key as before |
| Settings.SettingsService.GetTheme | src/SystemPulse.App/Services/SettingsService.cs:41-44 | "System" when unset; the stored text when it is a string; a cast error otherwise |
| Settings.SettingsService.SetThemeAsync | src/SystemPulse.App/Services/SettingsService.cs:46-49 | "Theme" maps to the text |
| Settings.SettingsService.GetRefreshInterval | src/SystemPulse.App/Services/SettingsService.cs:51-54 | 2 when unset; the stored int when it is one; a cast error otherwise |
| Settings.SettingsService.SetRefreshIntervalAsync | src/SystemPulse.App/Services/SettingsService.cs:56-59 | "RefreshInterval" maps to the seconds |
| Settings.SettingsService.GetWindowOpacity | src/SystemPulse.App/Services/SettingsService.cs:61-64 | 1.0 when unset; the stored double when it is one; a cast error otherwise |
| Settings.SettingsService.SetWindowOpacityAsync | src/SystemPulse.App/Services/SettingsService.cs:66-69 | "WindowOpacity" maps to the opacity |
| Shell.ShellViewModel.constructor | src/SystemPulse.App/ViewModels/ShellViewModel.cs:31-72 | the title is "SystemPulse"; a readable stored interval (or none, giving 2) starts a timer at it, sets monitoring and takes a first sample, whose status is that of UpdateMetrics ("Ready" kept for a null sample); a stored value of the wrong type keeps the interval at 2, starts no timer and shows "Monitoring initialization failed" |
| Shell.ShellViewModel.UpdateMetrics | src/SystemPulse.App/ViewModels/ShellViewModel.cs:74-90 | a sample becomes the metrics and the status "Updated: " and the clock; null changes nothing; a failed read only sets "Error updating metrics" |
| Shell.ShellViewModel.ChangeRefreshInterval | src/SystemPulse.App/ViewModels/ShellViewModel.cs:92-109 | a value outside 1..60 changes nothing; otherwise the interval is stored in the view model and the settings, and an existing timer restarts at it |
| Shell.ShellViewModel.Shutdown | src/SystemPulse.App/ViewModels/ShellViewModel.cs:111-117 | an existing timer is stopped and monitoring is off |
| Shell.ShellViewModel.RefreshNow | src/SystemPulse.App/ViewModels/ShellViewModel.cs:119-124 | as UpdateMetrics: a sample becomes the metrics with status "Updated: " and the clock; null changes nothing; a failed read only sets "Error updating metrics" |
| ProcessServices.SystemProcessExamples | src/SystemPulse.App/Services/ProcessService.cs:170-174 | "SVCHOST", "system" and "Csrss" are protected; "svchost.exe", "explorer" and "" are not |
| ProcessServices.SystemProcessIgnoresCase | src/SystemPulse.App/Services/ProcessService.cs:173 | two names equal up to case are both protected or both not |
| ProcessServices.Record | src/SystemPulse.App/Services/ProcessService.cs:29-42 | the record carries the process id, name and working set, and the system flag of its name |
| ProcessServices.Records | src/SystemPulse.App/Services/ProcessService.cs:25-45 | a listing gives at most one record per process |
| ProcessServices.RecordsMembers | src/SystemPulse.App/Services/ProcessService.cs:25-45 | the records are exactly those of the processes whose details could be read (the others are skipped by the empty catch) |
| ProcessServices.GetProcesses | src/SystemPulse.App/Services/ProcessService.cs:19-53 | a failing enumeration gives an empty list; otherwise the records sorted by memory, largest first, stably |
| ProcessServices.GetProcessesOrder | src/SystemPulse.App/Services/ProcessService.cs:52 | the returned list is a permutation of the records in non-increasing order of memory use |
| ProcessServices.GetProcessById | src/SystemPulse.App/Services/ProcessService.cs:55-74 | a record exactly when the id is known and readable, with its id, name and memory and the system flag left false (a null user or command line is shown as the empty text); null otherwise |
| ProcessServices.SearchProcesses | src/SystemPulse.App/Services/ProcessService.cs:76-81 | the sorted process list filtered, in order, to names containing the term ignoring case; every result matches |
| ProcessServices.KillProcess | src/SystemPulse.App/Services/ProcessService.cs:83-103 | an unknown id fails with not found; a protected name fails with "Cannot kill system processes"; it succeeds exactly for a known, unprotected, killable process, which is then gone and nothing else is |
| ProcessServices.KillProcessTree | src/SystemPulse.App/Services/ProcessService.cs:105-121 | an unknown id fails; it succeeds exactly when the process and every descendant still running can be killed, removing them and nothing else |
| ProcessServices.KillTreeBypassesProtection | src/SystemPulse.App/Services/ProcessService.cs:90-93 | a protected process that KillProcessAsync refuses is killed, with its killable descendants, by KillProcessTreeAsync, which has no protection check |
| ProcessServices.SuspendProcess | src/SystemPulse.App/Services/ProcessService.cs:123-138 | fails exactly for an unknown id and otherwise changes no process |
| ProcessServices.ResumeProcess | src/SystemPulse.App/Services/ProcessService.cs:140-155 | fails exactly for an unknown id and otherwise changes no process |
| ProcessServices.SuspendResumeChangeNothing | src/SystemPulse.App/Services/ProcessService.cs:123-155 | suspending then resuming a known process leaves the process table as it was |
| Processes.DisplayedMeaning | src/SystemPulse.App/ViewModels/ProcessesViewModel.cs:100-118 | the displayed list is a permutation of the filtered processes, sorted by the chosen column and direction; a process is shown, as often as it occurs, exactly when the query is blank or its name contains the query ignoring case |
| Processes.UnknownColumnSortsByMemory | src/SystemPulse.App/ViewModels/ProcessesViewModel.cs:112 | an unknown column ignores the direction and sorts by memory, largest first |
| Processes.BlankQueryKeepsAll | src/SystemPulse.App/ViewModels/ProcessesViewModel.cs:104-105 | a blank or whitespace query shows every process |
| Processes.ProcessesViewModel.constructor | src/SystemPulse.App/ViewModels/ProcessesViewModel.cs:13-34 | no processes, empty query, sorted by "Memory" descending, nothing selected |
| Processes.ProcessesViewModel.ApplyFiltersAndSort | src/SystemPulse.App/ViewModels/ProcessesViewModel.cs:100-118 | the shown list becomes the filtered, sorted view of all processes |
| Processes.ProcessesViewModel.RefreshProcesses | src/SystemPulse.App/ViewModels/ProcessesViewModel.cs:36-48 | all processes are re-read from the service and the shown list recomputed |
| Processes.ProcessesViewModel.SearchProcesses | src/SystemPulse.App/ViewModels/ProcessesViewModel.cs:50-54 | the shown list is recomputed for the current query |
| Processes.ProcessesViewModel.SortByColumn | src/SystemPulse.App/ViewModels/ProcessesViewModel.cs:56-65 | the same column flips the direction; another column is selected with the direction kept; the shown list is re-sorted |
| Processes.ProcessesViewModel.KillProcessAsync | src/SystemPulse.App/ViewModels/ProcessesViewModel.cs:67-82 | null does nothing; otherwise the service's kill outcome, and only a successful kill re-reads the process list |
| Processes.ProcessesViewModel.SuspendProcessAsync | src/SystemPulse.App/ViewModels/ProcessesViewModel.cs:84-98 | null does nothing; otherwise succeeds exactly for a known id and changes no process |
| WmiServices.ParseStateMeaning | src/SystemPulse.App/Services/WMIService.cs:63 | a state text parses to exactly the member whose name it spells, ignoring case |
| WmiServices.ParseStartModeMeaning | src/SystemPulse.App/Services/WMIService.cs:64 | a start-mode text parses to exactly the member whose name it spells, ignoring case |
| WmiServices.WmiSpellingsDoNotParse | src/SystemPulse.App/Services/WMIService.cs:54-64 | WMI's own spellings "Start Pending" and "Auto", and the fallback "Unknown", make Enum.Parse throw |
| WmiServices.ServiceOf | src/SystemPulse.App/Services/WMIService.cs:52-65 | a row's record takes the name or "Unknown", the display name or else the name, and the description or "N/A" |
| WmiServices.ServicesFromIsPrefix | src/SystemPulse.App/Services/WMIService.cs:50-71 | the services are the records of the rows up to the first row whose state or start mode fails to parse, in order; all rows when all parse |
| WmiServices.GetServices | src/SystemPulse.App/Services/WMIService.cs:41-74 | a failed query gives an empty list; otherwise the records collected before the first parse failure |
| WmiServices.Control | src/SystemPulse.App/Services/WMIService.cs:76-124 | StartServiceAsync and StopServiceAsync report true exactly when a matching service was found and its method call did not throw |
| WmiServices.RestartServiceAsync | src/SystemPulse.App/Services/WMIService.cs:126-135 | the start is attempted exactly when the stop succeeded, and the restart succeeds exactly when both did |
| WmiServices.UserNamesMembers | src/SystemPulse.App/Services/WMIService.cs:146-151 | a name is listed exactly when some row holds it and it is not empty |
| WmiServices.GetActiveUsers | src/SystemPulse.App/Services/WMIService.cs:137-159 | a failed query gives an empty list; otherwise the non-null, non-empty user names in row order |
| WmiServices.LogoffUser | src/SystemPulse.App/Services/WMIService.cs:161-176 | always reports success |
| WmiServices.GpuUsage | src/SystemPulse.App/Services/WMIService.cs:15-34 | 0 whatever the query finds |
| WmiServices.GpuMemoryUsage | src/SystemPulse.App/Services/WMIService.cs:36-39 | always 0 |
| ServiceManagement.DisplayedMeaning | src/SystemPulse.App/ViewModels/ServiceManagementViewModel.cs:187-212 | the displayed list is a permutation of the filtered services sorted by display name; a service is shown exactly when the query is blank or matches its name, display name or description ignoring case, and it has the filtered state if a filter is set |
| ServiceManagement.StatusFilterKeepsState | src/SystemPulse.App/ViewModels/ServiceManagementViewModel.cs:201-204 | with a status filter every shown service has that state |
| ServiceManagement.ToggledFilter | src/SystemPulse.App/ViewModels/ServiceManagementViewModel.cs:66 | choosing the active status clears the filter; any other status becomes the filter |
| ServiceManagement.ToggleTwice | src/SystemPulse.App/ViewModels/ServiceManagementViewModel.cs:66 | toggling the same status twice leaves that status selected if it was, and otherwise no filter |
| ServiceManagement.WithState | src/SystemPulse.App/ViewModels/ServiceManagementViewModel.cs:89-126 | every record of the named service takes the new state and every other record is unchanged |
| ServiceManagement.ServiceManagementViewModel.constructor | src/SystemPulse.App/ViewModels/ServiceManagementViewModel.cs:13-37 | no services, empty query, no filter or selection, "Loading services...", not loading |
| ServiceManagement.ServiceManagementViewModel.ApplyFiltersAndSort | src/SystemPulse.App/ViewModels/ServiceManagementViewModel.cs:187-212 | the shown list becomes the filtered view of all services, sorted by display name |
| ServiceManagement.ServiceManagementViewModel.LoadServices | src/SystemPulse.App/ViewModels/ServiceManagementViewModel.cs:39-61 | all services are re-read from the service query, the shown list recomputed, the status "Loaded n services" for the n shown, and loading ends |
| ServiceManagement.ServiceManagementViewModel.FilterByStatus | src/SystemPulse.App/ViewModels/ServiceManagementViewModel.cs:63-68 | the filter is toggled and the shown list recomputed |
| ServiceManagement.ServiceManagementViewModel.SearchServices | src/SystemPulse.App/ViewModels/ServiceManagementViewModel.cs:70-74 | the shown list is recomputed for the current query |
| ServiceManagement.ServiceManagementViewModel.StartServiceAsync | src/SystemPulse.App/ViewModels/ServiceManagementViewModel.cs:76-111 | null or a running service changes nothing; a successful start marks the service start-pending, then reloads; a failed one shows "Failed to start" and the display name; loading always ends |
| ServiceManagement.ServiceManagementViewModel.StopServiceAsync | src/SystemPulse.App/ViewModels/ServiceManagementViewModel.cs:113-148 | null or a stopped service changes nothing; a successful stop marks the service stop-pending, then reloads; a failed one shows "Failed to stop" and the display name; loading always ends |
| ServiceManagement.ServiceManagementViewModel.RestartServiceAsync | src/SystemPulse.App/ViewModels/ServiceManagementViewModel.cs:150-185 | null changes nothing; a restart whose stop and start both succeed reloads; otherwise "Failed to restart" and the display name; loading always ends |
| Users.Sessions | src/SystemPulse.App/ViewModels/UsersViewModel.cs:50-57 | one session per active user |
| Users.SessionsMeaning | src/SystemPulse.App/ViewModels/UsersViewModel.cs:50-57 | session i has the i-th user as user name and session id, type "Console", logon time now and no idle time |
| Users.SessionsOfRows | src/SystemPulse.App/ViewModels/UsersViewModel.cs:49-57 | a session is listed for a name exactly when some WMI row holds that name and it is not empty |
| Users.UsersViewModel.constructor | src/SystemPulse.App/ViewModels/UsersViewModel.cs:21-39 | no sessions or selection, "Loading user sessions...", not loading |
| Users.UsersViewModel.LoadUserSessions | src/SystemPulse.App/ViewModels/UsersViewModel.cs:41-76 | the sessions are rebuilt from the active users, shown in order, with "Loaded n user session(s)"; loading ends |
| Users.UsersViewModel.LogoffUserAsync | src/SystemPulse.App/ViewModels/UsersViewModel.cs:78-109 | null changes nothing; a successful logoff reloads the sessions; a failed one shows "Failed to logoff" and the name; loading ends |
| Users.UsersViewModel.LogoffThroughWmi | src/SystemPulse.App/ViewModels/UsersViewModel.cs:87-93 | with the WMI service, whose logoff always succeeds, a logoff always reloads and never shows the failure text |
| Users.UsersViewModel.SendMessageToUserAsync | src/SystemPulse.App/ViewModels/UsersViewModel.cs:111-128 | null or a blank message changes nothing; otherwise the status is "Message sent to" and the user name |
| StartupApps.StartupApp.constructor | src/SystemPulse.App/ViewModels/StartupAppsViewModel.cs:140-147 | a new entry has the given name, path and source, no delay, and is enabled |
| StartupApps.RegistryEntriesMeaning | src/SystemPulse.App/ViewModels/StartupAppsViewModel.cs:123-183 | an entry is read exactly for a value with a non-empty text under the user Run key (source "User") or the machine Run key (source "Windows"), when that key exists |
| StartupApps.KeyEntriesMeaning | src/SystemPulse.App/ViewModels/StartupAppsViewModel.cs:133-151 | one key gives an entry exactly for each of its values whose text is neither null nor empty |
| StartupApps.DisplayedMeaning | src/SystemPulse.App/ViewModels/StartupAppsViewModel.cs:185-209 | the displayed list is a permutation of the filtered apps sorted by name; an app is shown exactly when the query is blank or matches its name or path ignoring case, and its source is the filter unless the filter is "All" |
| StartupApps.ShowAll | src/SystemPulse.App/ViewModels/StartupAppsViewModel.cs:190-201 | a blank query with the "All" filter shows every app |
| StartupApps.NewApps | src/SystemPulse.App/ViewModels/StartupAppsViewModel.cs:140-170 | one new, distinct, enabled app object per registry entry, in order |
| StartupApps.LoadFromRegistry | src/SystemPulse.App/ViewModels/StartupAppsViewModel.cs:123-183 | new enabled apps, one per registry entry (user key first, then machine key), returned sorted by name stably |
| StartupApps.StartupAppsViewModel.constructor | src/SystemPulse.App/ViewModels/StartupAppsViewModel.cs:21-43 | no apps, empty query, source filter "All", "Loading startup apps...", not loading |
| StartupApps.StartupAppsViewModel.ApplyFiltersAndSort | src/SystemPulse.App/ViewModels/StartupAppsViewModel.cs:185-209 | the shown list becomes the filtered view of all apps, sorted by name |
| StartupApps.StartupAppsViewModel.LoadStartupApps | src/SystemPulse.App/ViewModels/StartupAppsViewModel.cs:45-69 | all apps become the new apps read from the registry, sorted by name; the shown list is recomputed; the status is "Loaded n startup applications"; loading ends |
| StartupApps.StartupAppsViewModel.ShowLoaded | src/SystemPulse.App/ViewModels/StartupAppsViewModel.cs:55-58 | the loaded apps are stored and shown through the filters, and the count reported |
| StartupApps.StartupAppsViewModel.FilterBySource | src/SystemPulse.App/ViewModels/StartupAppsViewModel.cs:71-76 | the source filter is stored and the shown list recomputed |
| StartupApps.StartupAppsViewModel.SearchApps | src/SystemPulse.App/ViewModels/StartupAppsViewModel.cs:78-82 | the shown list is recomputed for the current query |
| StartupApps.StartupAppsViewModel.ToggleApp | src/SystemPulse.App/ViewModels/StartupAppsViewModel.cs:84-101 | null does nothing; otherwise the app's enabled flag flips, and the change is seen through every list sharing the object |
| StartupApps.StartupAppsViewModel.EnableAll | src/SystemPulse.App/ViewModels/StartupAppsViewModel.cs:103-111 | every shown app is enabled; apps hidden by the filters keep their flag |
| StartupApps.StartupAppsViewModel.DisableAll | src/SystemPulse.App/ViewModels/StartupAppsViewModel.cs:113-121 | every shown app is disabled; apps hidden by the filters keep their flag |
| StartupApps.SetAll | src/SystemPulse.App/ViewModels/StartupAppsViewModel.cs:106-119 | the loop sets the flag of every app in the list |
| StartupApps.DisplayedAreShared | src/SystemPulse.App/ViewModels/StartupAppsViewModel.cs:185-209 | every shown app is one of the objects of the full list, so a flag changed through the view is changed in the full list too |
| SettingsPage.ThemeFor | src/SystemPulse.App/ViewModels/SettingsViewModel.cs:173-179 | Light exactly for index 0, Dark exactly for index 1, Default for every other index |
| SettingsPage.ThemeForOutOfRange | src/SystemPulse.App/ViewModels/SettingsViewModel.cs:177-178 | an index outside 0..2 gives the theme of index 2 |
| SettingsPage.LoadedSettings | src/SystemPulse.App/ViewModels/SettingsViewModel.cs:284-308 | a file that deserializes to settings gives those settings; no file, a null result or a failed read gives the defaults |
| SettingsPage.Dirtied | src/SystemPulse.App/ViewModels/SettingsViewModel.cs:84-90 | the unsaved-changes flag after assigning settings: kept if set, otherwise raised exactly when the change handler is attached and some setting changed |
| SettingsPage.SettingsViewModel.constructor | src/SystemPulse.App/ViewModels/SettingsViewModel.cs:67-91 | the settings are the loaded ones and are also the original ones; no unsaved changes; the handler is attached afterwards; a loaded non-zero theme index applies its theme |
| SettingsPage.SettingsViewModel.LoadSettings | src/SystemPulse.App/ViewModels/SettingsViewModel.cs:284-308 | settings read from the file are applied (raising the flag if the handler sees a change and applying a changed theme); otherwise nothing changes |
| SettingsPage.SettingsViewModel.SettingChanged | src/SystemPulse.App/ViewModels/SettingsViewModel.cs:84-90 | a property change raises the flag once the handler is attached |
| SettingsPage.SettingsViewModel.SetSelectedThemeIndex | src/SystemPulse.App/ViewModels/SettingsViewModel.cs:109-112 | the index is stored; a changed index applies its theme and, with the handler attached, raises the flag |
| SettingsPage.SettingsViewModel.SetWindowOpacity | src/SystemPulse.App/ViewModels/SettingsViewModel.cs:23-24 | the opacity is stored; a changed value raises the flag once the handler is attached |
| SettingsPage.SettingsViewModel.SetRefreshInterval | src/SystemPulse.App/ViewModels/SettingsViewModel.cs:30-31 | the interval is stored; a changed value raises the flag once the handler is attached |
| SettingsPage.SettingsViewModel.SetChartHistory | src/SystemPulse.App/ViewModels/SettingsViewModel.cs:33-34 | the history length is stored; a changed value raises the flag once the handler is attached |
| SettingsPage.SettingsViewModel.SetAlwaysOnTop | src/SystemPulse.App/ViewModels/SettingsViewModel.cs:40-41 | the flag is stored; a changed value raises the unsaved flag once the handler is attached |
| SettingsPage.SettingsViewModel.SetStartWithWindows | src/SystemPulse.App/ViewModels/SettingsViewModel.cs:43-44 | the flag is stored; a changed value raises the unsaved flag once the handler is attached |
| SettingsPage.SettingsViewModel.SetMinimizeToTray | src/SystemPulse.App/ViewModels/SettingsViewModel.cs:46-47 | the flag is stored; a changed value raises the unsaved flag once the handler is attached |
| SettingsPage.SettingsViewModel.SetStartMinimized | src/SystemPulse.App/ViewModels/SettingsViewModel.cs:49-50 | the flag is stored; a changed value raises the unsaved flag once the handler is attached |
| SettingsPage.SettingsViewModel.SetShowNotifications | src/SystemPulse.App/ViewModels/SettingsViewModel.cs:52-53 | the flag is stored; a changed value raises the unsaved flag once the handler is attached |
| SettingsPage.SettingsViewModel.ApplySettings | src/SystemPulse.App/ViewModels/SettingsViewModel.cs:326-337 | the nine settings become the given ones, the flag as Dirtied says, and a changed theme index applies its theme |
| SettingsPage.SettingsViewModel.AssignSettings | src/SystemPulse.App/ViewModels/SettingsViewModel.cs:326-337 | the nine assignments alone: the settings become the given ones and a changed theme index applies its theme |
| SettingsPage.SettingsViewModel.GetSettings | src/SystemPulse.App/ViewModels/SettingsViewModel.cs:310-339 | the nine current settings |
| SettingsPage.SettingsViewModel.SaveAsync | src/SystemPulse.App/ViewModels/SettingsViewModel.cs:190-213 | a successful write makes the current settings the original ones, clears the flag and shows "Settings saved successfully" before clearing the status; a failed write only shows "Failed to save settings" |
| SettingsPage.SettingsViewModel.Cancel | src/SystemPulse.App/ViewModels/SettingsViewModel.cs:215-230 | the original settings are restored, a changed theme index applies its theme, the flag is cleared and "Changes cancelled" shown |
| SettingsPage.SettingsViewModel.ResetToDefaultsAsync | src/SystemPulse.App/ViewModels/SettingsViewModel.cs:263-282 | the defaults are applied and saved, and the default theme is applied when the theme index changes (otherwise the theme is left as it was); after a successful write they are the original settings with no unsaved changes; the status ends empty |
| SettingsPage.SaveThenCancel | src/SystemPulse.App/ViewModels/SettingsViewModel.cs:190-230 | after a successful save, any edit followed by Cancel restores the saved settings and leaves no unsaved changes |
| SettingsPage.EditMarksDirty | src/SystemPulse.App/ViewModels/SettingsViewModel.cs:84-90 | changing a setting once the handler is attached raises the unsaved flag |
| KeyboardShortcuts.ModifiersTextFlags | src/SystemPulse.App/Helpers/KeyboardShortcutHelper.cs:82-85 | the modifiers part of a shortcut key shows each flag by its capital initial exactly when the flag is set, and never contains "+" |
| KeyboardShortcuts.ModifiersTextChar | src/SystemPulse.App/Helpers/KeyboardShortcutHelper.cs:82-85 | a character other than "," and " " is in the modifiers text exactly when it is in "None" (no flag) or in the name of a set flag |
| KeyboardShortcuts.ModifiersTextInjective | src/SystemPulse.App/Helpers/KeyboardShortcutHelper.cs:82-85 | different modifier combinations give different modifiers text |
| KeyboardShortcuts.ShortcutKeyInjective | src/SystemPulse.App/Helpers/KeyboardShortcutHelper.cs:82-85 | two key and modifier combinations share a dictionary key only when they are the same combination |
| KeyboardShortcuts.CurrentModifiers | src/SystemPulse.App/Helpers/KeyboardShortcutHelper.cs:57-80 | no modifiers without a core window; otherwise Control, Shift, Menu and Windows are set exactly for the keys reported down |
| KeyboardShortcuts.DisplayTextParts | src/SystemPulse.App/Helpers/KeyboardShortcutHelper.cs:87-103 | the display text splits at "+" into Ctrl, Shift, Alt and Win for the flags present, in that order, followed by the key name |
| KeyboardShortcuts.DisplayTextExample | src/SystemPulse.App/Helpers/KeyboardShortcutHelper.cs:87-103 | Control and Shift with Escape display as "Ctrl+Shift+Escape" |
| KeyboardShortcuts.KeyboardShortcutHelper.constructor | src/SystemPulse.App/Helpers/KeyboardShortcutHelper.cs:12-16 | the registry starts empty |
| KeyboardShortcuts.KeyboardShortcutHelper.RegisterShortcut | src/SystemPulse.App/Helpers/KeyboardShortcutHelper.cs:23-27 | the action is stored under the combination's key, replacing any earlier one; other entries are kept |
| KeyboardShortcuts.KeyboardShortcutHelper.RegisterKey | src/SystemPulse.App/Helpers/KeyboardShortcutHelper.cs:29-32 | the action is stored under the key with no modifiers |
| KeyboardShortcuts.KeyboardShortcutHelper.UnregisterShortcut | src/SystemPulse.App/Helpers/KeyboardShortcutHelper.cs:34-38 | the combination's entry is removed, whether or not it was present; other entries are kept |
| KeyboardShortcuts.KeyboardShortcutHelper.ClearAllShortcuts | src/SystemPulse.App/Helpers/KeyboardShortcutHelper.cs:40-43 | the registry becomes empty |
| KeyboardShortcuts.KeyboardShortcutHelper.OnKeyDown | src/SystemPulse.App/Helpers/KeyboardShortcutHelper.cs:45-55 | the event is handled exactly when the pressed key with the current modifiers is registered, and then the stored action (possibly null) is the one invoked; nothing is invoked otherwise |
| KeyboardShortcuts.RegisterFindsAction | src/SystemPulse.App/Helpers/KeyboardShortcutHelper.cs:23-38 | after registering, the combination finds its action and every other combination finds what it found before; after unregistering, the combination finds nothing and others are unaffected |
| KeyboardShortcuts.RegisterTwiceThenPress | src/SystemPulse.App/Helpers/KeyboardShortcutHelper.cs:23-55 | registering a key twice keeps only the second action, and pressing the key then invokes that action |
| Formatting.FixedChars | src/SystemPulse.App/Helpers/FormattingHelpers.cs:17 | the fixed-point text holds only digits, a point and a leading minus sign, and starts with "-" exactly for a negative value |
| Formatting.FixedDigitsChars | src/SystemPulse.App/Helpers/FormattingHelpers.cs:17 | the digits of a fixed-point text are decimal digits and one point, and begin with a digit |
| Formatting.Scaled | src/SystemPulse.App/Helpers/FormattingHelpers.cs:11-15 | dividing from unit index `order` never moves past the last unit, index 4 |
| Formatting.ScaledFacts | src/SystemPulse.App/Helpers/FormattingHelpers.cs:11-15 | from any starting unit, the loop ends within the unit table, the value shown times 1024 per division equals the input, and the loop stopped because the value fell below 1024 or the unit reached TB |
| Formatting.ScaledRange | src/SystemPulse.App/Helpers/FormattingHelpers.cs:11-15 | the loop ends within the unit table, below 1024 unless at TB, at least 1 after a division, and unchanged when no division was taken |
| Formatting.ScaledProduct | src/SystemPulse.App/Helpers/FormattingHelpers.cs:11-15 | the displayed value times 1024 for each division taken equals the input |
| Formatting.ScaledAbove | src/SystemPulse.App/Helpers/FormattingHelpers.cs:11 | every division taken was taken from a value of at least 1024 |
| Formatting.BytesScaleMeaning | src/SystemPulse.App/Helpers/FormattingHelpers.cs:5-18 | the unit index is below 5, the displayed value is bytes / 1024^order, below 1024 unless the unit is TB and at least 1 once divided, and each division was taken from a value of at least 1024 |
| Formatting.SmallBytes | src/SystemPulse.App/Helpers/FormattingHelpers.cs:11 | values below 1024, negative ones included, are shown in bytes, undivided |
| Formatting.FormatBytes | src/SystemPulse.App/Helpers/FormattingHelpers.cs:5-18 | the loop's text is the value of BytesScaleMeaning with two decimals, a space and its unit |
| Formatting.UptimeParts | src/SystemPulse.App/Helpers/FormattingHelpers.cs:20-24 | for a start not in the future, days, hours below 24 and minutes below 60 of the elapsed time, with the elapsed ticks at least those minutes and short of one more minute |
| Formatting.UptimeSplit | src/SystemPulse.App/Helpers/FormattingHelpers.cs:22-23 | the truncating TimeSpan components of a non-negative tick count agree with Euclidean division and recombine to within one minute of the count |
| Formatting.Clamp | src/SystemPulse.App/Helpers/FormattingHelpers.cs:28 | the value is kept inside 0..100 and moved to the nearer bound outside it |
| Formatting.PercentageClamped | src/SystemPulse.App/Helpers/FormattingHelpers.cs:26-29 | the percentage text never starts with a minus sign, ends in "%", and clamping first changes nothing |
| Formatting.PercentageBounds | src/SystemPulse.App/Helpers/FormattingHelpers.cs:26-29 | values at or below 0 read "0.0%"; values at or above 100 read as 100 does |
| Formatting.FormatNetworkSpeed | src/SystemPulse.App/Helpers/FormattingHelpers.cs:31-34 | the byte text of the speed truncated toward zero, followed by "/s" |
| Formatting.SlowNetworkSpeed | src/SystemPulse.App/Helpers/FormattingHelpers.cs:31-34 | below 1024 bytes per second, negatives included, the truncated speed is shown in "B/s" |
| Export.LinesAppend | src/SystemPulse.App/Helpers/ExportHelper.cs:14-29 | each AppendLine adds its row and the line terminator at the end of the text |
| Export.LinesSplit | src/SystemPulse.App/Helpers/ExportHelper.cs:14-29 | splitting the text at line feeds gives back every row, in order, with its carriage return, then one empty piece |
| Export.CsvLines | src/SystemPulse.App/Helpers/ExportHelper.cs:14-53 | an export is the header line, then one line per item, in order |
| Export.AppendLines | src/SystemPulse.App/Helpers/ExportHelper.cs:14-53 | the StringBuilder loop's text is the header and then each item's line, each followed by "\r\n" |
| Export.MetricFields | src/SystemPulse.App/Helpers/ExportHelper.cs:19-26 | a sample gives eight fields, one per header column |
| Export.ExportMetricsToCSV | src/SystemPulse.App/Helpers/ExportHelper.cs:10-30 | the header line and then one line per sample, in order; the file name is not used |
| Export.MetricsEmpty | src/SystemPulse.App/Helpers/ExportHelper.cs:14-29 | with no samples the export is the header line alone |
| Export.NumberTextsFree | src/SystemPulse.App/Helpers/ExportHelper.cs:20-26 | no fixed-point or integer text contains a comma or a line feed |
| Export.MetricFieldsFree | src/SystemPulse.App/Helpers/ExportHelper.cs:19-26 | no field of a sample contains a comma or a line feed when its date text has none |
| Export.MetricLineFields | src/SystemPulse.App/Helpers/ExportHelper.cs:15-26 | a sample's line splits at commas into as many fields as the header has columns, and its process and thread counts read back as the numbers written |
| Export.HeaderFields | src/SystemPulse.App/Helpers/ExportHelper.cs:15-38 | both headers split at commas into their eight column names and contain no line feed |
| Export.MetricsCsvLines | src/SystemPulse.App/Helpers/ExportHelper.cs:10-30 | the metrics export splits into the header line, one line per sample in order, and a trailing empty piece |
| Export.MemoryMBMeaning | src/SystemPulse.App/Helpers/ExportHelper.cs:42 | for a non-negative size the memory column is the whole number of mebibytes, rounded down; for a negative size it is the negation of that of its magnitude |
| Export.EnumTextsFree | src/SystemPulse.App/Helpers/ExportHelper.cs:49-50 | the state and priority texts contain no comma or line feed |
| Export.ProcessFields | src/SystemPulse.App/Helpers/ExportHelper.cs:43-50 | a process gives eight fields, one per header column |
| Export.ExportProcessesToCSV | src/SystemPulse.App/Helpers/ExportHelper.cs:35-54 | the header line and then one line per process, in order |
| Export.ProcessFieldsFree | src/SystemPulse.App/Helpers/ExportHelper.cs:43-50 | no field of a process contains a comma or line feed when its name and user have none |
| Export.ProcessFieldsRead | src/SystemPulse.App/Helpers/ExportHelper.cs:43-47 | the PID, memory and thread fields read back as the numbers written, and the name field is the name between double quotes |
| Export.ProcessLineFields | src/SystemPulse.App/Helpers/ExportHelper.cs:38-50 | a process line without commas in its name and user splits into as many fields as the header has columns, which read back as ProcessFieldsRead says |
| Export.ProcessesCsvLines | src/SystemPulse.App/Helpers/ExportHelper.cs:35-54 | the process export splits into the header line, one line per process in order, and a trailing empty piece |
| Converters.StatusConvert | src/SystemPulse.App/Converters/StatusTextConverter.cs:8-22 | each named state shows its name; any other value, null included, shows "Unknown" |
| Converters.StatusTextIdentifiesState | src/SystemPulse.App/Converters/StatusTextConverter.cs:8-22 | the text is "Unknown" exactly when the value is no named state, and a text other than "Unknown" identifies the value |
| Converters.StatusConvertBack | src/SystemPulse.App/Converters/StatusTextConverter.cs:24-27 | always fails with NotImplemented |
| Converters.PriorityConvert | src/SystemPulse.App/Converters/PriorityToStringConverter.cs:7-25 | each priority shows its display name ("Realtime", "Above Normal", "Below Normal", ...); anything else shows "Normal" |
| Converters.PriorityTextIdentifiesPriority | src/SystemPulse.App/Converters/PriorityToStringConverter.cs:7-25 | "Normal" is shown exactly for Normal, an undefined priority or a non-priority, and every other text identifies the value |
| Converters.PriorityConvertBack | src/SystemPulse.App/Converters/PriorityToStringConverter.cs:27-30 | always fails with NotImplemented |
| Converters.VisibilityConvert | src/SystemPulse.App/Converters/BoolToVisibilityConverter.cs:8-21 | a bool is visible exactly when it differs from the inverse mode; a non-bool collapses |
| Converters.VisibilityConvertBack | src/SystemPulse.App/Converters/BoolToVisibilityConverter.cs:23-30 | true exactly for Visible |
| Converters.VisibilityRoundTrip | src/SystemPulse.App/Converters/BoolToVisibilityConverter.cs:8-30 | converting a bool and back gives it back without inverse mode and its negation in inverse mode |
| Converters.VisibilityBackRoundTrip | src/SystemPulse.App/Converters/BoolToVisibilityConverter.cs:8-30 | converting a visibility back and forth without inverse mode gives it back |
| Converters.InverseIgnoresCase | src/SystemPulse.App/Converters/BoolToVisibilityConverter.cs:13 | inverse mode ignores the case of the parameter and needs a parameter |
| Sorting.StableSort | src/SystemPulse.App/ViewModels/ProcessesViewModel.cs:107-113 | OrderBy and OrderByDescending give the same elements with the same multiplicities, sorted in the requested direction, with elements of equal key in their input order |
| Sorting.SortSortedIsIdentity | src/SystemPulse.App/ViewModels/ProcessesViewModel.cs:107-113 | a list already in order comes back unchanged |
| Sorting.KeyLessTotal | src/SystemPulse.App/ViewModels/ProcessesViewModel.cs:109-111 | two sort keys neither of which precedes the other are equal, so the key order is total |
| Sorting.KeyLessTransitive | src/SystemPulse.App/ViewModels/ProcessesViewModel.cs:109-111 | the key order is transitive |
| Queries.Where | src/SystemPulse.App/ViewModels/ProcessesViewModel.cs:105 | the filtered list is never longer than the list |
| Queries.WhereMembers | src/SystemPulse.App/ViewModels/ProcessesViewModel.cs:105 | an element is kept exactly when it is in the list and passes the test |
| Queries.WhereCounts | src/SystemPulse.App/ViewModels/ProcessesViewModel.cs:105 | a kept element occurs as often as in the list, a rejected one not at all |
| Queries.WhereAll | src/SystemPulse.App/ViewModels/ProcessesViewModel.cs:105 | a test every element passes keeps the whole list |
| Queries.WhereAppend | src/SystemPulse.App/ViewModels/ServiceManagementViewModel.cs:194-203 | filtering a concatenation filters each part |
| Queries.TakeWhileSomeIsPrefix | src/SystemPulse.App/Services/WMIService.cs:50-71 | the rows collected before an exception are the parsed values of the leading rows, and the row after them failed |
| Queries.TakeWhileSomeAll | src/SystemPulse.App/Services/WMIService.cs:50-71 | with no failing row every row is collected |
| Queries.CollectWhile | src/SystemPulse.App/Services/WMIService.cs:50-71 | the foreach collects the parsed rows up to the first one that throws |
| Queries.Refill | src/SystemPulse.App/ViewModels/ProcessesViewModel.cs:115-117 | clearing the collection and adding each item in turn leaves exactly the items, in order |
| Channels.SeriesAt | src/SystemPulse.App/ViewModels/PerformanceViewModel.cs:288-292 | the i-th reading of a channel comes from the i-th sample |
| Channels.SeriesAppend | src/SystemPulse.App/ViewModels/PerformanceViewModel.cs:288-292 | one more sample adds its reading at the end of each channel's run |
| Channels.WindowStep | src/SystemPulse.App/ViewModels/PerformanceViewModel.cs:288-317 | adding a sample to a history that holds the last n readings of its channel gives the last n readings of the longer run, ending with the new reading |
| Numerics.TruncDivModFacts | src/SystemPulse.App/Helpers/FormattingHelpers.cs:23 | C#'s truncating quotient and remainder recombine to the dividend, agree with Euclidean ones on non-negative operands, and the remainder takes the dividend's sign |
| Numerics.TruncateToInt | src/SystemPulse.App/Helpers/FormattingHelpers.cs:33 | the cast drops the fraction toward zero |
| Text.Contains | src/SystemPulse.App/ViewModels/ProcessesViewModel.cs:105 | true exactly when the needle occurs at some offset |
| Text.ContainsEmpty | src/SystemPulse.App/ViewModels/ProcessesViewModel.cs:105 | an empty search text is contained in every name |
| Text.IntToStringRoundTrip | src/SystemPulse.App/Helpers/ExportHelper.cs:25-26 | the decimal text of an integer is an optional minus sign and digits, and parses back to the integer |
| Text.LexLessTotal | src/SystemPulse.App/ViewModels/ProcessesViewModel.cs:111 | ordinal string order is total: two strings neither of which precedes the other are equal |
| Text.LexLessTransitive | src/SystemPulse.App/ViewModels/ProcessesViewModel.cs:111 | ordinal string order is transitive |
| Text.SplitJoin | src/SystemPulse.App/Helpers/ExportHelper.cs:43-50 | joining fields free of the separator and splitting again gives the fields back |

## Left out

- Floating point: samples, percentages and averages are exact reals. Float and double rounding, and float accumulation in averages and interpolation, are not modelled.
- Formatting.Fixed: "F1"/"F2" text is exact-real rounding, half away from zero, in the invariant culture. Culture-specific decimal separators are not modelled.
- Export.MetricFields: the "yyyy-MM-dd HH:mm:ss" timestamp text is a parameter (`dateText`), because it needs a calendar the model does not have.
- ChartData.GenerateTimeLabels: `(dataPointCount - 1) * intervalSeconds` is computed in 32-bit arithmetic in the source and can overflow for very large arguments; the model uses unbounded integers. The histories it labels hold at most 300 points.
- Numerics.TruncateToInt: a `(long)` cast of a value outside the long range is not modelled.
- Text.Upper: OrdinalIgnoreCase and ToLowerInvariant fold the ASCII letters only, not the full Unicode case tables.
- Sorting.KeyLess: names are ordered ordinally. OrderBy on strings uses the current culture's comparer, which is not modelled.
- Timers, `async`/`await` and `Task.Delay`: timer presence and interval are state fields, each tick is an explicit method call, and delays are left out. Only the final status text of a command is modelled. Intermediate texts that a later assignment overwrites before the command returns are not: "Starting X...", "Stopping X...", "Restarting X...", and the loading status of LoadStartupApps.
- File I/O is left out because it only calls the file system. The affected operations:
  - `ExportHelper.SaveToFileAsync`.
  - `PerformanceViewModel.ExportDataAsync`.
  - `SettingsService.SaveSettingsAsync`. The write is modelled only as a success or failure outcome of the page's save.
  - `SettingsViewModel.ClearLogsAsync`.
- Settings.SettingsService.GetSetting: the re-deserialisation branch for a JsonElement value is not modelled, because it depends on the JSON library.
- Window wiring in the settings page is not modelled, because it calls Win32 and XAML: `SetMainWindow`, `ApplyWindowSettings`, `ApplyOpacity` and `ApplyAlwaysOnTop`. Applying a theme is recorded as the theme last applied.
- Plot construction on the performance page (`InitializePlotModels`, `CreatePlotModel`, colours and axes) is left out, because it is charting-library configuration. A chart series is modelled as its list of points.
- Process details are inputs of the process table: user names, command lines and icons (`GetProcessUser`, `GetCommandLine`, `GetProcessIcon`).
- Logging: every logger call is a no-op, because it never affects control flow.
- Catch branches that no modelled input can reach are not modelled.
- WmiServices.ParseState: only the member names are parsed. `Enum.Parse` would also accept numeric strings, comma-separated lists and names with surrounding whitespace, and those are not modelled; the same holds for `WmiServices.ParseStartMode`, which uses the same call. WMI does not pad these values.
- StartupApps.LoadFromRegistry: each Run key is either read in full or missing (`None`). A registry exception part-way through a key is not modelled; in the source it also skips every value and key after it.
- Models.ProcessPriority and SettingsPage.AppSettings are declared here, because their source files are not part of this model. ProcessPriority has the seven named classes plus any undefined value. AppSettings has the nine fields the settings page saves.
- The converters ProcessStateColorConverter, PercentageConverter and BytesToReadableConverter are not modelled. The first builds brushes. The other two only dispatch on the type and call the formatting helpers, which are modelled.
- Concurrency between commands and timer ticks is not modelled. Every operation runs to completion before the next one starts.
