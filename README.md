# A verified model of the cyperf-ce dashboard and control services

This project models, in Dafny, the logic at the centre of the cyperf-ce all-in-one repository. The repository drives the Cyperf CE traffic generator, and the model covers three of its parts.

- **The Flask web dashboard.**
  - Configuration validation, and the translation of a configuration into server and client requests (`DataProcessor`).
  - The test registry and its workflow (`TestManager`).
  - The in-memory log buffer and the status-code mapping of the routes (`app.py`).
- **The browser scripts.**
  - The parameters page: form validation, the stats table, and status polling.
  - The API trace panel.
  - `formatDuration`.
  - Chart series shaping and the chart handles.
  - The statistics page's selection and polling interval.
  - The logs page's panes, styling, toggles and export.
- **The FastAPI side.**
  - The shell commands that `CyperfService` assembles, and its `active_tests` registry.
  - The PID it reads back, and the `ALLOWED_KEYS` row filter.
  - The two MCP endpoints, which share a JSON-RPC 2.0 dispatcher using the error codes of section 5.1 of the JSON-RPC 2.0 Specification (-32700, -32601, -32000).

Each source file has its own module. Pure code is written as functions and lemmas. Code that changes things step by step is written as methods with loops and invariants, each proved against a specification function. An object whose fields its methods update is written as a class:
- `TestManager`, `CyperfService.Service`, `APITrace`;
- the chart handles, the statistics page and the logs page;
- the Flask log buffer;
- the status poll of the parameters page.

Three helper modules are shared by the others:
- `Wrappers` holds `Option` and `Result`.
- `Text` holds splitting, joining, substring tests and decimal digits.
- `Values` holds JSON values and the operations the code applies to them: Python truthiness, `in`, `[...]`, `int()` and `str()`, and JavaScript truthiness and `parseInt`.

The model treats I/O as follows:
- SSH and HTTP calls are parameters, or sinks that record what was sent.
- Clocks and timers are parameters.
- Browser intervals are numbered handles.

## Model

| member | source | states |
|---|---|---|
| DataProcessor.DottedQuadAccepted | cce_flask/utils/data_processor.py:370-381 | a canonical dotted quad a.b.c.d is a valid address exactly when each of the four numbers is at most 255 |
| DataProcessor.DottedQuadParts | cce_flask/utils/data_processor.py:372-373 | splitting a dotted quad at '.' gives back the decimal digits of its four numbers |
| DataProcessor.IpNeedsFourParts | cce_flask/utils/data_processor.py:373-375 | a string that does not split into exactly four parts is rejected, whatever the parts hold |
| DataProcessor.OutOfRangeOctetRejected | cce_flask/utils/data_processor.py:376-378 | "999.0.0.1" has the address shape but is rejected, because 999 is not in 0..255 |
| DataProcessor.CheckRequired | cce_flask/utils/data_processor.py:319-322 | the required-field loop yields one "Missing required field" error per absent or falsy field, in field order |
| DataProcessor.CheckAddresses | cce_flask/utils/data_processor.py:324-329 | the address loop yields one "Invalid IP address format" error per present address field that is not a valid address |
| DataProcessor.CheckRanges | cce_flask/utils/data_processor.py:345-361 | the numeric loop yields an error per present field that `int()` rejects and a warning per value outside its range |
| DataProcessor.ValidateTestConfig | cce_flask/utils/data_processor.py:305-367 | the result is the one the rules define, and `valid` holds exactly when the error list is empty |
| DataProcessor.MissingErrorsEmpty | cce_flask/utils/data_processor.py:319-322 | no missing-field error exactly when every listed field is present and truthy |
| DataProcessor.IpErrorsEmpty | cce_flask/utils/data_processor.py:324-329 | no address error exactly when every present address field is a valid address |
| DataProcessor.RangeErrorsOnlyForNonIntegers | cce_flask/utils/data_processor.py:345-361 | the numeric rules give no error exactly when every present field parses as an integer; out-of-range values only warn |
| DataProcessor.RequiredErrorsEmpty | cce_flask/utils/data_processor.py:319-322 | no missing-field error exactly when test_type, duration, server_ip and client_ip are all present and truthy |
| DataProcessor.AddressErrorsEmpty | cce_flask/utils/data_processor.py:324-329 | no address error exactly when the present server and client addresses are valid |
| DataProcessor.BandwidthErrorsEmpty | cce_flask/utils/data_processor.py:332-343 | a throughput bandwidth gives no error exactly when it is present, an integer and positive |
| DataProcessor.ValidationVerdict | cce_flask/utils/data_processor.py:315-367 | a configuration is valid exactly when the required fields are present, the addresses are valid, a throughput bandwidth is a positive integer and every numeric field parses |
| DataProcessor.MissingReportedOnce | cce_flask/utils/data_processor.py:319-322 | over distinct fields, a missing field is reported exactly once and a present one never |
| DataProcessor.RequiredFieldErrors | cce_flask/utils/data_processor.py:319-322 | each required field that is absent or falsy adds exactly one error, which appears in the result |
| DataProcessor.MissingFieldReported | cce_flask/utils/data_processor.py:319-322 | every missing-field error the loop produces is in the returned error list |
| DataProcessor.MissingErrorsComeFirst | cce_flask/utils/data_processor.py:315-322 | the missing-field errors open the returned error list |
| DataProcessor.HighBandwidthOnlyWarns | cce_flask/utils/data_processor.py:338-341 | a bandwidth above 10000 adds the warning and no error |
| DataProcessor.IntField | cce_flask/utils/data_processor.py:240-241 | succeeds exactly when Python's `int()` accepts the value or the default, with that integer |
| DataProcessor.ConvertWebConfigToApi | cce_flask/utils/data_processor.py:228-302 | both requests share cps, port, length, bidi, reverse and server_ip; cps holds iff the lower-cased type is 'cps'; bitrate and cps_rate_limit are set exactly for their test type; a bad bandwidth raises the ValueError |
| DataProcessor.BitrateRoundTrip | cce_flask/utils/data_processor.py:268-278 | a bitrate ends in "M/s" and its number parses back to the submitted, positive bandwidth |
| DataProcessor.CpsRateRoundTrip | cce_flask/utils/data_processor.py:281-290 | a cps_rate_limit ends in "/s" and its number parses back to the submitted, positive rate |
| DataProcessor.ConversionSucceeds | cce_flask/utils/data_processor.py:228-302 | conversion succeeds exactly when the fields it reads convert, both addresses are present and each rate it must set is a positive integer |
| DataProcessor.ValidFieldsConvert | cce_flask/utils/data_processor.py:239-263 | what validation checks makes every field the conversion reads convertible, except port and the session count |
| DataProcessor.ValidThroughputConfigConverts | cce_flask/utils/data_processor.py:268-275 | a valid throughput configuration whose port and session count parse converts, with bitrate "<bandwidth>M/s" |
| DataProcessor.ThroughputBitrate | cce_flask/utils/data_processor.py:268-275 | a converted throughput configuration with a bandwidth has bitrate "<bandwidth>M/s" |
| DataProcessor.ZeroCpsRateValidatesButFailsConversion | cce_flask/utils/data_processor.py:281-290 | a CPS test with target rate 0 and valid addresses passes validation (the range rule only warns) but the conversion raises |
| DataProcessor.UnitIndexIsLargest | cce_flask/utils/data_processor.py:201-207 | the unit is the largest index k <= 4 with bytes >= 1024^k |
| DataProcessor.FormatBytes | cce_flask/utils/data_processor.py:196-209 | the division loop computes the value and unit the specification function gives: "0 B" for 0, otherwise the largest fitting unit |
| DataProcessor.LogLevelPrecedence | cce_flask/utils/data_processor.py:212-225 | the level is ERROR exactly when the upper-cased message contains "ERR", else WARNING exactly when it contains "WARN", else DEBUG exactly when it contains "DEBUG" and not "INFO", and INFO otherwise |
| DataProcessor.FormatChartData | cce_flask/utils/data_processor.py:88-148 | the loop returns what `ChartDataOf` defines: empty history gives empty labels and datasets; otherwise one label and one throughput point of each series per entry, 0 for a missing metric, '' for a falsy timestamp; the first entry that is not a dict, has a truthy timestamp that is not an in-range number, or has non-dict server or client stats raises |
| DataProcessor.ChartDataOf | cce_flask/utils/data_processor.py:98-148 | the chart data exists exactly when every entry is readable, and otherwise is the exception of the first unreadable entry |
| DataProcessor.FirstFailure | cce_flask/utils/data_processor.py:111-128 | there is no failing entry exactly when every entry is readable |
| DataProcessor.FormatLogsForDisplay | cce_flask/utils/data_processor.py:151-193 | an empty or error reply gives the error message; otherwise the entries of the "logs" value (a list's items, a text's lines, a dict's keys) are formatted and counted; None, a bool or a number under "logs" raises because it cannot be iterated |
| DataProcessor.DictLogLines | cce_flask/utils/data_processor.py:169-181 | a dict under "logs" gives one text line per key, in key order, and every key of the dict has its line |
| DataProcessor.FormattedLogCount | cce_flask/utils/data_processor.py:174-187 | every string or dict entry gives exactly one line and other entries none |
| DataProcessor.TextLogLines | cce_flask/utils/data_processor.py:170-181 | raw log text gives one line per '\n'-separated piece, stripped, with its extracted level |
| DataProcessor.FormattedMetricsKeys | cce_flask/utils/data_processor.py:44-85 | the formatted metrics are exactly the known metric keys present in the stats, each with its raw value and its display |
| DataProcessor.StatsBytesUnit | cce_flask/utils/data_processor.py:52-56 | a numeric byte count is shown in the unit `_format_bytes` picks |
| DataProcessor.FormatSingleStats | cce_flask/utils/data_processor.py:43-85 | a falsy value gives nothing; a shown value is kept as the raw data; a value that is not a dict is shown (without metrics) exactly when it is a text or a list holding no metric name, and an int or bool raises |
| DataProcessor.RowsKeptRaw | cce_flask/utils/data_processor.py:43-85 | a non-empty list of row dicts is kept as raw data with no metrics, and an empty one gives nothing |
| DataProcessor.RowSnapshotShownButNotCharted | cce_flask/utils/data_processor.py:17-41 | a snapshot holding server and client rows, as the combined-stats call builds it, is displayed successfully, but charting a history that holds it raises on the server rows' missing `.get` |
| Parameters.CheckAddressShapes | cce_flask/static/js/parameters.js:137-143 | the address loop pushes the server and client shape errors exactly as the browser rules define them |
| Parameters.CheckTimings | cce_flask/static/js/parameters.js:146-154 | the timing loop pushes a duration error for a parsed value outside 1..3600 and an interval error outside 1..60, and nothing for NaN |
| Parameters.ValidateConfigClient | cce_flask/static/js/parameters.js:132-183 | errors and warnings are the ones the browser rules define, and `valid` holds exactly when no error was pushed |
| Parameters.ErrorMessagesDistinct | cce_flask/static/js/parameters.js:138-153 | the four error messages are pairwise different, so each one identifies its rule |
| Parameters.WarningMessagesDistinct | cce_flask/static/js/parameters.js:156-174 | the four warning messages are pairwise different |
| Parameters.ClientErrorsMeaning | cce_flask/static/js/parameters.js:137-154 | each error is present exactly when its rule fails; a NaN duration or interval fails no rule; no errors exactly when both addresses have the shape and both timings are in range or unparsable |
| Parameters.ClientWarningsMeaning | cce_flask/static/js/parameters.js:156-182 | the bandwidth and packet-size warnings appear exactly for throughput tests out of range, the CPS and concurrency warnings exactly for CPS tests out of range; never more than two |
| Parameters.DottedQuadShape | cce_flask/static/js/parameters.js:137 | the browser accepts a dotted quad exactly when every number has at most three digits; it does not check 0..255 |
| Parameters.BrowserAcceptsWhatServerRejects | cce_flask/static/js/parameters.js:137-143 | "999.0.0.1" passes the browser's address check but fails the server's `_is_valid_ip` |
| Parameters.ScanCpsFinds | cce_flask/static/js/parameters.js:907-911 | a row set counts as CPS exactly when some row has ConnectionRate, ConnectionsSucceeded or ConnectionsAccepted |
| Parameters.ColumnsAreFilter | cce_flask/static/js/parameters.js:917 | the columns are exactly the allow-listed fields that the first row has, in allow-list order |
| Parameters.ColumnsChosen | cce_flask/static/js/parameters.js:907-917 | the columns come from the (CPS or throughput, server or client) allow-list picked by the scan, filtered to the first row's keys, in allow-list order |
| Parameters.DisplayNameRoundTrip | cce_flask/static/js/parameters.js:928-929 | a header is its key with spaces inserted before capitals and trimmed; removing the spaces gives the key back |
| Parameters.SpaceCapitalsRoundTrip | cce_flask/static/js/parameters.js:929 | inserting a space before every capital letter is undone by removing spaces |
| Parameters.HeaderCells | cce_flask/static/js/parameters.js:927-931 | the header loop produces one display name per column, in column order |
| Parameters.RowCells | cce_flask/static/js/parameters.js:935-980 | the cell loop produces one cell per column, each holding the row's value or '0' |
| Parameters.RenderRows | cce_flask/static/js/parameters.js:935-983 | the row loop produces one row per stats row in input order, and raises on a null row when there are columns |
| Parameters.GenerateStatsTable | cce_flask/static/js/parameters.js:860-986 | the method renders the table the specification function defines: "No data available" for a non-array or empty input, otherwise headers and rows |
| Parameters.HeadersLength | cce_flask/static/js/parameters.js:927-931 | there is one header per column |
| Parameters.CellsLength | cce_flask/static/js/parameters.js:939-980 | every row has one cell per column |
| Parameters.RowsShape | cce_flask/static/js/parameters.js:935-983 | one rendered row per input row, in input order, each with one cell per column |
| Parameters.TableShape | cce_flask/static/js/parameters.js:860-986 | the "No data" result comes exactly from a non-array or empty input; otherwise row i is numbered i+1, shaded by parity and has one cell per header |
| Parameters.MissingValueShowsZero | cce_flask/static/js/parameters.js:941 | a missing or falsy value shows as '0', which parses to 0 and is never coloured as an error count |
| Parameters.CellClassPrecedence | cce_flask/static/js/parameters.js:961-974 | a cell is red exactly for an error-like key with a positive count and green for one without; otherwise the first of Throughput, Latency, Connections or Rate, Bytes or Packets that the key contains picks the colour |
| Parameters.ToneClassDistinct | cce_flask/static/js/parameters.js:961-974 | the six colour classes and the plain class are pairwise different |
| Parameters.Remaining | cce_flask/static/js/parameters.js:265-269 | the remaining time is duration minus elapsed when elapsed is at most the duration and 0 otherwise, elapsed defaulting to 0 |
| Parameters.PollingUntilTerminal | cce_flask/static/js/parameters.js:273-326 | polling is still running after a reply sequence exactly when no reply was completed, error, cancelled or a failed request |
| Parameters.ProgressMonitor.constructor | cce_flask/static/js/parameters.js:255-256 | monitoring starts polling with the progress dialog open, no status text, no remaining time, no alert and no pending close |
| Parameters.ProgressMonitor.OnReply | cce_flask/static/js/parameters.js:261-324 | one poll: a terminal status or failed request stops polling; a successful reply updates the remaining time and status text, a failed or unsuccessful one neither; error, cancelled and lost-connection replies close the dialog with their alerts, every other reply keeps the alert; completed starts one close timer |
| Parameters.ProgressMonitor.OnCloseTimer | cce_flask/static/js/parameters.js:296-300 | the timer a completed reply starts closes the dialog and shows the success alert |
| TestManagement.ValidConfigHasDuration | cce_flask/utils/test_manager.py:88-105 | a configuration that passes validation has an integer duration, which is the one the new test records |
| TestManagement.AppendHistory | cce_flask/utils/test_manager.py:255-259 | appending a snapshot keeps it last and the result a suffix of the old history plus the snapshot; past 1000 entries only the last 500 are kept, in order, otherwise nothing is dropped |
| TestManagement.HistoryStaysBounded | cce_flask/utils/test_manager.py:245-259 | whatever snapshots are appended, a history of at most 1000 entries stays at most 1000 entries |
| TestManagement.Recent | cce_flask/utils/test_manager.py:381-382 | the reported history is the last min(50, length) entries of the full history |
| TestManagement.StartOutcomeMeaning | cce_flask/utils/test_manager.py:88-123 | an invalid configuration is rejected with its errors and warnings; a valid one starts a test with the new id, status INITIALIZING, empty history and the configured integer duration |
| TestManagement.StatusOf | cce_flask/utils/test_manager.py:326-356 | an unknown id gives "Test <id> not found"; a known one reports its id, status value, duration and test type |
| TestManagement.CancelOutcome | cce_flask/utils/test_manager.py:270-304 | cancelling succeeds exactly for a known test that is not finished; then it becomes CANCELLED with the end time and its history kept; otherwise nothing changes; other tests are never touched |
| TestManagement.CancelTwice | cce_flask/utils/test_manager.py:288-293 | cancelling the same test a second time fails with "already finished" |
| TestManagement.CleanupOutcome | cce_flask/utils/test_manager.py:447-468 | cleanup removes exactly the expired finished tests, keeps every unfinished test unchanged, and running it twice with the same cutoff removes nothing more |
| TestManagement.CancelledThenCleanedUp | cce_flask/utils/test_manager.py:454-468 | a cancelled test whose end time precedes the cutoff is removed by cleanup |
| TestManagement.TraceOrder | cce_flask/utils/test_manager.py:136-231 | a run assigns a prefix of STARTING_SERVER, STARTING_CLIENT, RUNNING, STOPPING, COMPLETED; a failure (conversion, a raising request, an error reply) ends it with ERROR after as many phases as it reached, which is never past RUNNING for a start-up failure and is STOPPING for a raising stop request; a successful start-up ends at RUNNING and the stop phases complete the sequence |
| TestManagement.RunLaunch | cce_flask/utils/test_manager.py:147-195 | the start-up phases assign the statuses of the trace in order; a failure, including a start request that raises, records its reason and end time, a success the start time and both started flags; history and duration are kept |
| TestManagement.StartServices | cce_flask/utils/test_manager.py:157-189 | starting the server and then the client fails on a raising request, an error reply or a missing api test id, in that order, otherwise leaves the test RUNNING |
| TestManagement.TestManager.constructor | cce_flask/utils/test_manager.py:58-63 | a new manager has no tests, no collection threads and no stop flags |
| TestManagement.TestManager.StartTest | cce_flask/utils/test_manager.py:77-123 | the reply is the start outcome, and exactly one entry (the new test) is added exactly when the test is started |
| TestManagement.TestManager.LaunchWorkflow | cce_flask/utils/test_manager.py:136-195 | the registry entry becomes the launched state, for replies and raising requests alike; a failed start-up sets the stop flag, a successful one starts stats collection with the flag cleared |
| TestManagement.TestManager.FinishWorkflow | cce_flask/utils/test_manager.py:211-231 | the stop phases assign STOPPING, set the stop flag, and then COMPLETED with the end time, or ERROR with the request's text and the end time when a server address is configured and the stop request raises |
| TestManagement.TestManager.CollectStats | cce_flask/utils/test_manager.py:245-266 | one collection step appends the raw snapshot to the history (trimmed as above) and stores the formatted stats, unless collection was stopped or formatting raised; other tests are untouched |
| TestManagement.TestManager.CancelTest | cce_flask/utils/test_manager.py:270-304 | the reply and the new registry are the cancel outcome; the stop flag is set exactly when the cancel succeeds |
| TestManagement.TestManager.GetTestStatus | cce_flask/utils/test_manager.py:326-356 | the reply is the status the specification function gives for the registry |
| TestManagement.TestManager.GetTestStats | cce_flask/utils/test_manager.py:358-383 | an unknown id gives the "not found" error reply; a known id whose last at most 50 history entries hold an unreadable one raises that entry's exception (`FirstFailure`) out of the call; otherwise the success reply holds exactly those entries and their chart data as `ChartDataOf` defines it |
| TestManagement.TestManager.ExpiredTests | cce_flask/utils/test_manager.py:454-461 | the collected ids are exactly the finished tests whose end time precedes the cutoff |
| TestManagement.TestManager.CleanupCompletedTests | cce_flask/utils/test_manager.py:447-471 | the registry keeps exactly the non-expired tests, and their threads and stop flags are removed with them |
| ApiTracing.Newest | cce_flask/static/js/api-trace.js:211-217 | the new trace goes to index 0 followed by the old traces in order, and the length is capped at 100 |
| ApiTracing.NewestStaysBounded | cce_flask/static/js/api-trace.js:211-217 | any number of additions keeps at most 100 traces, the most recent one first |
| ApiTracing.FindTrace | cce_flask/static/js/api-trace.js:224 | the index found is the first trace with the id, and none is found exactly when no trace has it |
| ApiTracing.UpdateOutcome | cce_flask/static/js/api-trace.js:223-229 | the length is kept; an unknown id changes nothing; the only trace that can change is the first one with the id, which gains the update's fields and keeps the others |
| ApiTracing.ReplyLandsOnItsRequest | cce_flask/static/js/api-trace.js:109-137 | an update for the trace just added lands on it, at index 0, merging the reply into the request |
| ApiTracing.BadgeMeaning | cce_flask/static/js/api-trace.js:475-486 | the badge is hidden exactly for 0 traces, shows "99+" exactly above 99, and otherwise shows the count |
| ApiTracing.StatusClass | cce_flask/static/js/api-trace.js:394-401 | the grey default class is chosen exactly for statuses other than success, error and pending |
| ApiTracing.MethodClass | cce_flask/static/js/api-trace.js:403-411 | the grey default class is chosen exactly for methods other than GET, POST, PUT and DELETE |
| ApiTracing.FormatData | cce_flask/static/js/api-trace.js:376-392 | falsy data gives "No data"; a string is re-indented when it parses as JSON and returned as is otherwise; an object or array is stringified; true gives "true" and a non-zero number its decimal text |
| ApiTracing.AssignedMeaning | cce_flask/static/js/api-trace.js:418-423 | the value stored for a header name is the last one given for it |
| ApiTracing.AssignedKeys | cce_flask/static/js/api-trace.js:418-423 | a header name is present exactly when some kept line names it |
| ApiTracing.ParseHeaderText | cce_flask/static/js/api-trace.js:417-424 | the CRLF loop builds the object that keeps every line splitting on ': ' into exactly two parts, later duplicates winning |
| ApiTracing.CopyEntries | cce_flask/static/js/api-trace.js:428-432 | copying fetch headers keeps every entry, later duplicates winning |
| ApiTracing.ParseHeaders | cce_flask/static/js/api-trace.js:413-436 | falsy input gives {}; header text gives the parsed lines; fetch headers give their entries; any other object is returned unchanged |
| ApiTracing.FindFirst | cce_flask/static/js/api-trace.js:224 | when index i holds the first trace with the id, the lookup finds i |
| ApiTracing.ApiTrace.constructor | cce_flask/static/js/api-trace.js:7-11 | a new panel has no traces and is hidden |
| ApiTracing.ApiTrace.AddTrace | cce_flask/static/js/api-trace.js:211-221 | the traces become the capped, newest-first list with the new trace at index 0 |
| ApiTracing.ApiTrace.UpdateTrace | cce_flask/static/js/api-trace.js:223-229 | the traces become the updated list: only the matching trace changes |
| ApiTracing.ApiTrace.UpdateBadge | cce_flask/static/js/api-trace.js:475-486 | the badge shows the state the count defines |
| ApiTracing.ApiTrace.ClearTraces | cce_flask/static/js/api-trace.js:488-491 | no traces remain |
| ApiTracing.ApiTrace.Toggle | cce_flask/static/js/api-trace.js:447-457 | visibility flips |
| ApiTracing.ApiTrace.Show | cce_flask/static/js/api-trace.js:459-465 | the panel is visible afterwards, whatever it was before, so showing twice is showing once |
| ApiTracing.ApiTrace.Hide | cce_flask/static/js/api-trace.js:467-473 | the panel is hidden afterwards, whatever it was before |
| AppScript.FieldsDecompose | cce_flask/static/js/app.js:36-39 | hours·3600 + minutes·60 + seconds gives back the input, minutes and seconds stay below 60, and hours is positive exactly from 3600 seconds on |
| AppScript.FormatDurationShape | cce_flask/static/js/app.js:36-45 | two fields exactly below one hour and three from one hour on; the leading field is unpadded, the others two digits below 60 |
| AppScript.DurationRoundTrip | cce_flask/static/js/app.js:36-45 | reading the formatted text back gives the number of seconds |
| AppScript.SplitFields | cce_flask/static/js/app.js:41-44 | the formatted text splits at ':' into exactly its fields |
| Charts.MetricMeaning | cce_flask/static/js/charts.js:471-481 | a series point is the role's metric when that metric is present and truthy, and 0 otherwise |
| Charts.ProcessStatsForCharts | cce_flask/static/js/charts.js:444-533 | a missing or empty history gives empty labels and series; a history with a null entry raises; otherwise one label and one point per entry in all six series, in entry order |
| Charts.SomeCpsRow | cce_flask/static/js/charts.js:588-600 | the scan finds CPS data exactly when a row before any null row has a CPS field, and finds none exactly when no row has one and none is null |
| Charts.DetermineTestType | cce_flask/static/js/charts.js:588-601 | the type is "cps" exactly when some server or client row has ConnectionRate, ConnectionsSucceeded or ConnectionsPerSecond, and "throughput" otherwise; it is defined whenever no row is null |
| Charts.CpsDetectionDiffers | cce_flask/static/js/charts.js:588-601 | a row with only ConnectionsAccepted is CPS for the stats table but throughput for the charts, and a row with only ConnectionsPerSecond the other way round |
| Charts.CpsValue | cce_flask/static/js/charts.js:715-722 | a CPS point is ConnectionRate when truthy, and otherwise ConnectionsSucceeded or 0 |
| Charts.Labels | cce_flask/static/js/charts.js:611-615 | one time label per server row, in row order |
| Charts.Points | cce_flask/static/js/charts.js:611-622 | one point per row, in row order, up to the count asked for |
| Charts.SeriesOf | cce_flask/static/js/charts.js:604-624 | the run chart raises exactly when it reads a null row; otherwise it has one label and one server point per server row and min(client rows, server rows) client points |
| Charts.ServerSeries | cce_flask/static/js/charts.js:610-615 | the server loop builds the labels and points the specification functions give, and raises exactly on a null row |
| Charts.ClientSeries | cce_flask/static/js/charts.js:618-622 | the client loop keeps at most as many points as there are labels, and raises exactly on a null row among those it reads |
| Charts.BuildSeries | cce_flask/static/js/charts.js:604-624 | the two loops together build the series the specification function gives |
| Charts.EnhancedMeaning | cce_flask/static/js/charts.js:278-312 | the labels are replaced; only datasets whose index exists are overwritten, the rest are kept; legends, title and axis title read CPS exactly when the test type is 'cps' |
| Charts.ResetChart | cce_flask/static/js/charts.js:349-357 | a reset chart has no labels and the same datasets with empty data |
| Charts.ChartBoard.constructor | cce_flask/static/js/charts.js:4-6 | no chart exists at first |
| Charts.ChartBoard.InitializeAllCharts | cce_flask/static/js/charts.js:536-540 | each chart whose canvas exists is created afresh; the others are kept |
| Charts.ChartBoard.UpdateEnhancedChart | cce_flask/static/js/charts.js:278-312 | the performance chart, if any, becomes the updated chart; without data or chart nothing changes |
| Charts.ChartBoard.ResetAllCharts | cce_flask/static/js/charts.js:359-363 | every existing chart is emptied, and no chart is created or dropped |
| Charts.ChartBoard.DestroyAllCharts | cce_flask/static/js/charts.js:543-556 | all three chart handles are null afterwards |
| Charts.ChartBoard.UpdateRunChart | cce_flask/static/js/charts.js:604-800 | the throughput or CPS chart is replaced by the run chart exactly when no null row is read and its canvas exists; the other chart is untouched |
| Charts.ChartBoard.UpdateChartsWithRows | cce_flask/static/js/charts.js:559-585 | the chart the detected test type names is redrawn; raising happens exactly when detection or the series reads a null row |
| Statistics.StatusClass | cce_flask/static/js/statistics.js:259-267 | 'bg-secondary' is chosen exactly for statuses other than running, completed, error and cancelled |
| Statistics.Cards | cce_flask/static/js/statistics.js:60-86 | one card per test, in order, with its upper-cased status, highlighted exactly when it is the selected test |
| Statistics.StatusPanelOf | cce_flask/static/js/statistics.js:161-177 | cancel is disabled exactly for statuses other than running, starting_server and starting_client; the remaining and elapsed texts read back as their numbers of seconds |
| Statistics.StatisticsPage.constructor | cce_flask/static/js/statistics.js:3-4 | nothing is selected and no interval runs at first |
| Statistics.StatisticsPage.StartStatisticsMonitoring | cce_flask/static/js/statistics.js:115-128 | the old interval is cleared and exactly one new interval, for this test, runs afterwards |
| Statistics.StatisticsPage.SelectTest | cce_flask/static/js/statistics.js:99-113 | the test becomes the selection, the content is shown, and exactly one interval runs, for that test |
| Statistics.StatisticsPage.DisplayActiveTests | cce_flask/static/js/statistics.js:43-97 | an empty list hides the content and changes nothing else; otherwise the cards are drawn and the first test is selected exactly when nothing was selected |
| Statistics.StatisticsPage.Unload | cce_flask/static/js/statistics.js:389-398 | no interval runs after the page unloads |
| Statistics.AtMostOneInterval | cce_flask/static/js/statistics.js:115-128 | when every running interval is the current handle, at most one interval runs, and none without a handle |
| Logs.Filter | cce_flask/static/js/logs.js:65-66 | a filter keeps only entries the predicate accepts, taken from the input, never more than the input |
| Logs.FilterKeepsAll | cce_flask/static/js/logs.js:65-66 | every entry the predicate accepts is kept |
| Logs.FilterAppend | cce_flask/static/js/logs.js:65-66 | filtering a concatenation filters each part and keeps their order |
| Logs.PanesMeaning | cce_flask/static/js/logs.js:57-72 | an entry is in the server pane exactly when its source is SERVER or SYSTEM, in the client pane exactly when CLIENT or TEST, never in both, and the terminal view gets every entry |
| Logs.StyleOf | cce_flask/static/js/logs.js:121-137 | the grey default style is chosen exactly for levels other than ERROR, SUCCESS and INFO |
| Logs.LastEight | cce_flask/static/js/logs.js:147 | the test tag is the last eight characters of the id, or the whole id when shorter |
| Logs.EntryViewOf | cce_flask/static/js/logs.js:110-155 | an entry has a test tag exactly when it has a test id, the tag ends the id, and the style is the level's style |
| Logs.Reindented | cce_flask/static/js/logs.js:241-254 | a re-indented message either stays as it was or starts with its marker |
| Logs.TerminalText | cce_flask/static/js/logs.js:237-262 | a message without payload or response markers is shown unchanged |
| Logs.ApiCallWins | cce_flask/static/js/logs.js:237-238 | an [API CALL] line is bold blue whatever else it contains, and its text is unchanged |
| Logs.LevelColoursPlainLines | cce_flask/static/js/logs.js:255-262 | a line without API markers or a banner is red for ERROR, green for SUCCESS and light grey otherwise |
| Logs.ExportLineShape | cce_flask/static/js/logs.js:290-295 | each export line is "[ts] [LEVEL] [SOURCE]", then " [TEST: id]" exactly when the entry has a test id, then " message" and a newline |
| Logs.ExportLogs | cce_flask/static/js/logs.js:283-296 | the export loop builds the header with the total count followed by one line per entry, in order |
| Logs.ExportCountReadsBack | cce_flask/static/js/logs.js:287 | the count line's number reads back as the number of entries |
| Logs.LogsPage.constructor | cce_flask/static/js/logs.js:3-5 | auto-scroll and live updates start on, with no interval |
| Logs.LogsPage.StartLogUpdates | cce_flask/static/js/logs.js:30-40 | the old interval is cleared and exactly one new interval runs |
| Logs.LogsPage.OnLoad | cce_flask/static/js/logs.js:8-27 | loading the page leaves exactly one interval running, although it starts updates twice |
| Logs.LogsPage.ToggleAutoScroll | cce_flask/static/js/logs.js:165-171 | auto-scroll flips and the label shows ON exactly when it is now on |
| Logs.LogsPage.ToggleLiveUpdates | cce_flask/static/js/logs.js:174-185 | live updates flip; turning them off leaves no interval and a null handle, turning them on leaves exactly one interval |
| Logs.AutoScrollLabel | cce_flask/static/js/logs.js:168-170 | the label reads "Auto Scroll: ON" exactly when auto-scroll is on |
| FlaskApp.LastN | cce_flask/app.py:25 | a deque capped at n holds min(length, n) entries |
| FlaskApp.LastNSnoc | cce_flask/app.py:25 | appending to a full deque and then capping equals capping the whole sequence |
| FlaskApp.AppendAllKeepsNewest | cce_flask/app.py:25-37 | any number of additions keeps exactly the newest at most 1000 entries, in order |
| FlaskApp.EntryJson | cce_flask/app.py:29-36 | the stored dictionary reads back as the entry it was built from |
| FlaskApp.LogBuffer.constructor | cce_flask/app.py:25 | the buffer starts empty |
| FlaskApp.LogBuffer.AddLog | cce_flask/app.py:28-37 | exactly one entry with the given level, source, message and test id is appended last; the oldest one is dropped when 1000 are already held |
| FlaskApp.LogBuffer.ClearLogs | cce_flask/app.py:76-81 | afterwards the buffer holds exactly the "Logs cleared by user" entry, and the reply is a success |
| FlaskApp.LogBuffer.GetLogs | cce_flask/app.py:68-74 | the reply lists every entry in order and its count is the length of that list |
| FlaskApp.BaseUrlMeaning | cce_flask/app.py:53-55 | the base URL is a prefix of the API URL made of its first three '/'-separated segments |
| FlaskApp.BaseUrlOfHost | cce_flask/app.py:53-55 | for "scheme//host/path" the base URL is "scheme//host" |
| FlaskApp.DocsUrlMeaning | cce_flask/app.py:103-107 | after stripping trailing '/', a final "api" segment is replaced by "docs"; any other URL gets "/docs" appended |
| FlaskApp.ApiSegmentDropped | cce_flask/app.py:104-105 | a URL ending in "/api" loses that segment before "/docs" is added |
| FlaskApp.OtherUrlKept | cce_flask/app.py:106-107 | a URL not ending in an "api" segment keeps all its text before "/docs" |
| FlaskApp.HealthReply | cce_flask/app.py:94-123 | the reply is 200 exactly when the backend answers, with the docs URL and environment; otherwise 503 with the error and timestamp |
| FlaskApp.LookupCode | cce_flask/app.py:160-163 | a lookup route answers 200 exactly when the manager's status is 'success', and 404 otherwise |
| FlaskApp.TestStatusRoute | cce_flask/app.py:153-169 | the status route answers 200 exactly for a known test, and 404 otherwise |
| FlaskApp.CurrentStatsCode | cce_flask/app.py:171-187 | 404 exactly for an unknown test, 500 exactly when the chart data of a known test's 50 newest snapshots raises, 200 exactly otherwise |
| FlaskApp.CurrentStatsRoute | cce_flask/app.py:171-187 | the route's code is `CurrentStatsCode` of the registry: the success reply 200, the error reply 404, an exception from `get_test_stats` 500 |
| FlaskApp.RowSnapshotAnswers500 | cce_flask/app.py:171-187 | a known test whose 50 newest snapshots include one with a list of server rows always gets 500 |
| FlaskApp.RunTestCode | cce_flask/app.py:126-151 | the run route answers 200 exactly when a configuration was sent and the test started, 500 exactly when starting raised, and 400 otherwise |
| FlaskApp.RunTestRoute | cce_flask/app.py:126-151 | the reply is the run code, and the registry gains the new test exactly when the code is 200 |
| CyperfService.SettingsOf | app/services/cyperf_service.py:33-40 | one setting per flag, in flag order, each the flag's parameter as the command would render it or absent when falsy |
| CyperfService.ReadFlags | app/services/cyperf_service.py:61-81 | the reader recovers one setting per flag from a word list |
| CyperfService.ReadFlagsRoundTrip | app/services/cyperf_service.py:61-81 | reading back the words the flags emit, followed by a word no flag starts with, gives the settings and the rest unchanged |
| CyperfService.ReadTailRoundTrip | app/services/cyperf_service.py:41 | the option words followed by the csv and log redirect read back as the settings and the test id |
| CyperfService.CommandRoundTrip | app/services/cyperf_service.py:32-41 | a command assembled from a head, the option words and the redirect splits back into its words, and the options and test id read back |
| CyperfService.ServerCommandRoundTrip | app/services/cyperf_service.py:32-41 | the server command is "nohup sudo cyperf -s", then --cps, --port, --length and --csv-stats in that order, each exactly when its parameter is truthy, then the csv and log redirect; reading it back gives the test id and the settings |
| CyperfService.ClientCommandRoundTrip | app/services/cyperf_service.py:61-82 | the client command is "nohup sudo cyperf -c <server>" with cps, port, length, time, bitrate, parallel, reverse, --bidir, interval and csv-stats in that order, each exactly when truthy, then the client redirect; reading it back gives the test id, server address and settings |
| CyperfService.ClientOptionsRoundTrip | app/services/cyperf_service.py:62-82 | the client options and redirect after any head read back as the client settings and the test id |
| CyperfService.AddOption | app/services/cyperf_service.py:33-40 | one `if params.get(...)` step appends exactly the words of the next flag to the command built so far |
| CyperfService.BuildServerCommand | app/services/cyperf_service.py:32-41 | the assembly loop yields the server command defined above |
| CyperfService.BuildClientCommand | app/services/cyperf_service.py:61-82 | the assembly loop yields the client command defined above |
| CyperfService.CsvArgument | app/services/cyperf_service.py:41 | the csv file named fifth word from the end is "<id>_server.csv" for the server and "<id>_client.csv" for the client, whether or not --csv-stats is among the flags |
| CyperfService.PidOf | app/services/cyperf_service.py:47-48 | no PID exactly when the stripped output is empty; a failure carries a first line that is not an integer |
| CyperfService.PidOfListing | app/services/cyperf_service.py:45-48 | for a listing of PIDs one per line, the PID is the first one |
| CyperfService.Service.constructor | app/services/cyperf_service.py:11-12 | the registry starts empty and no command has been run |
| CyperfService.Service.StartServer | app/services/cyperf_service.py:31-56 | the command and the PID lookup run on the server host; the PID is the first output line or None; the registry records PID, command, csv path and server address under the test id |
| CyperfService.Service.StartClient | app/services/cyperf_service.py:58-96 | an unregistered id fails with "Server not started for this test_id" before anything runs; otherwise the command and lookup run on the client host and the client PID, log, csv and address are added to the test's record |
| CyperfService.Service.RecordClient | app/services/cyperf_service.py:87-92 | the client PID, log path, csv path and address are added to the test's record when the PID parses, and nothing changes otherwise |
| CyperfService.Service.StopServer | app/services/cyperf_service.py:98-105 | the listing and kill commands run on the server host and the reply names that host |
| CyperfService.Service.ServerStats | app/services/cyperf_service.py:107-149 | an unknown id fails with "Test not found"; otherwise the rows of "<id>_server.csv" on the recorded server host |
| CyperfService.Service.ClientStats | app/services/cyperf_service.py:113-133 | an unknown id fails with "Test not found"; otherwise the rows of "<id>_client.csv" on the recorded client host, or on the configured default host when none was recorded |
| CyperfService.FilterRow | app/services/cyperf_service.py:170-173 | a filtered row has exactly the allowed keys in order, each with the row's value or "" when missing |
| CyperfService.AsRowLookup | app/services/cyperf_service.py:171 | a key-value list read as a dictionary maps each key to its value when repeated keys agree on their values |
| CyperfService.FilteredStats | app/services/cyperf_service.py:170-173 | one filtered row per input row, in input order |
| CyperfService.FilterColumns | app/services/cyperf_service.py:151-173 | every filtered row has exactly the allowed keys as its columns |
| CyperfService.FilterIdempotent | app/services/cyperf_service.py:170-173 | filtering a filtered row changes nothing |
| Values.PyIn | app/api/routes.py:96 | Python's `in` raises exactly for None, booleans and numbers; on a dict it tests the keys, on a list the items, on a string the substrings |
| Values.Subscript | app/api/routes.py:97 | subscripting succeeds exactly for a dict holding the key; a missing key raises KeyError with the quoted key, other types raise their TypeError |
| JsonRpc.Get | app/api/routes.py:98-99 | `.get` succeeds exactly on a dict, giving the value or the default; on anything else it raises AttributeError |
| JsonRpc.ReplyJson | app/api/routes.py:102-173 | every response has exactly the keys jsonrpc, id and one of result or error, with jsonrpc "2.0" and the request id echoed |
| JsonRpc.ReplyRoundTrip | app/api/routes.py:102-173 | a response object reads back as the reply it encodes, and only that object encodes it |
| JsonRpc.Route | app/api/routes.py:101-164 | unknown methods give -32601 "Method not found: <method>"; a failing tools/call gives -32000 with the exception text; tools/call with non-dict params gives -32700 with id null; every other known method succeeds with the request id; initialize and tools/list give their fixed results |
| JsonRpc.Handle | app/api/routes.py:92-174 | no response exactly when the body has no "method"; a body that fails to parse gives -32700 "Parse error: ..." with id null; otherwise the method is routed with params defaulting to {} and id to null |
| JsonRpc.Respond | app/api/routes.py:92-174 | the response object returned reads back as the reply the handler defines |
| JsonRpc.ParseErrorOnlyFromShape | app/api/routes.py:129-174 | for a dict body with a method, there is always a response, and it is a parse error exactly for tools/call with params that are not a dict |
| McpRoutes.McpEndpoint | app/api/routes.py:87-174 | every response carries jsonrpc "2.0" and exactly one of result or error, there is none exactly for a body without "method", and it is the reply of the dispatcher with the tools capability |
| McpRoutes.InitializeAdvertisesTools | app/api/routes.py:101-116 | initialize answers with protocolVersion "2024-11-05" and the tools capability alone, echoing the id |
| McpSse.InitializeAdvertisesToolsAndLogging | mcp_sse_server.py:230-246 | initialize answers with protocolVersion "2024-11-05" and both the tools and the logging capability, echoing the id |
| McpSse.ToolJson | mcp_sse_server.py:323-442 | every tool dictionary carries its name under "name" |
| McpSse.ToolDicts | mcp_sse_server.py:323-442 | one tool dictionary per tool, in declaration order |
| McpSse.ListedNames | mcp_sse_server.py:199-206 | collecting names succeeds exactly when every tool is a dict with a name, and gives those names in order |
| McpSse.GetInfo | mcp_sse_server.py:193-211 | GET /mcp answers exactly when the names can be collected, listing them under available_tools |
| McpSse.GetListsToolNames | mcp_sse_server.py:199-206 | for the declared tools, available_tools is their names in declaration order |
| McpSse.ListedToolsRouted | mcp_sse_server.py:444-472 | each of the nine listed tools is routed to its own proxy, in list order |
| McpSse.RoutedToolsListed | mcp_sse_server.py:444-472 | every routed name is a listed tool |
| McpSse.WithDefaults | mcp_sse_server.py:480-485 | the filled parameters have exactly the default keys, each with the given value when present and the default otherwise |
| McpSse.WithDefaultsIdempotent | mcp_sse_server.py:480-485 | filling in defaults twice is filling them in once |
| McpSse.StartServerPayload | mcp_sse_server.py:478-486 | the payload exists exactly for a dict with server_ip, raising the KeyError otherwise; it holds server_ip and the parameters filled with cps=False, port=5202, length="1k", csv_stats=True |
| McpSse.StartClientPayload | mcp_sse_server.py:503-520 | the payload needs test_id, server_ip and client_ip, looked up in that order with the first missing one raising its KeyError; the parameters are filled with the client defaults |
| McpSse.ServerDefaultsTransparent | mcp_sse_server.py:480-485 | filling in the proxy's server defaults before the request model's gives the same parameters as the model's defaults alone |
| McpSse.DefaultsAgreeExcept | mcp_sse_server.py:480-519 | two default sets that agree except on one key fill in the same parameters except on that key |
| McpSse.ClientDefaultsTransparent | mcp_sse_server.py:507-519 | the client defaults agree with the request model's except cps, whose null and false are equally falsy |
| McpSse.LogsContent | mcp_sse_server.py:459-470 | a log tool returns a single text item whose text is exactly "Server/Client Logs for Test ID: <id>", a blank line, then the log content; a missing test_id or content raises |
| McpSse.ToolCall | mcp_sse_server.py:444-474 | an unknown name raises "Unknown tool: <name>"; start tools send their filled payloads; log tools wrap their content; the others return what their proxy returns |
| McpSse.McpEndpoint | mcp_sse_server.py:214-308 | no response exactly for a body without "method"; otherwise the reply of the dispatcher with the tools and logging capabilities and this server's tool call |
| McpSse.UnknownToolIsServerError | mcp_sse_server.py:275-285 | a call of a tool the server does not list is answered with -32000 "Unknown tool: <name>", not with -32601 |

## Left out

- HTTP, SSH and SFTP plumbing is not modelled. This covers the API client of the dashboard, the paramiko connections, the `_proxy_*` HTTP round trips of the MCP server, the stdio MCP proxy, and `run_test_simple`, which sleeps between remote calls. Remote replies, `ps` listings and CSV rows are parameters, and commands sent over SSH are recorded as (host, command) pairs. A dashboard request that raises (a timeout, a connection failure or an HTTP error status) is an `Err` answer carrying the exception's text. The stop request that `_cleanup_test` sends after a failure is caught by the code, so its outcome is not modelled.
- app/api/mcp_helpers.py is not part of this model. In the FastAPI MCP endpoint, its tool list and its tool-call function are parameters (`tools`, `call`).
- Floating point is not modelled. Timestamps are whole seconds. This covers `toFixed`, the byte and throughput display divisions, progress percentages and `Math.round`. `_format_bytes` keeps the chosen unit and the scaled value as a real number, without the two-decimal rounding.
- Locale and time rendering are parameters: `toLocaleTimeString`, `toISOString`, `strftime` and `datetime.now()`. The chart label `datetime.fromtimestamp(t).strftime(...)` is the `clock` parameter, which is `None` where `fromtimestamp` finds `t` out of range.
- Python's `str()` of a dict or a list is a parameter (`repr`), because it depends on key insertion order. For the same reason, the order in which a dict's keys are iterated is a parameter (`keyOrder`). The error texts of `in`, `[...]` and `.get` are those of CPython 3.11.
- Background threads, `time.sleep` and the wait for a test's duration are not modelled. A test's workflow is split into its start-up phases and its stop phases, and a stats-collection thread is one step (`CollectStats`) applied any number of times.
- The stop phases overwrite a cancellation with COMPLETED, as the code does. The race between `cancel_test` and the workflow thread is not modelled.
- CyperfService.ServerCommandRoundTrip: reading a command back assumes that the test id, the server address and every parameter contain no space. The code does not quote them, so a value with a space would split into several shell words.
- CyperfService.ClientCommandRoundTrip: the same no-space assumption holds for the client command, including the server address.
- CyperfService.PidOf: when the first line of the `ps` output is not an integer, the model returns that line as the error. Python instead raises a ValueError with its own message.
- `stats_to_image` is modelled only up to the `ALLOWED_KEYS` filter. The pandas frame and the matplotlib drawing are left out.
- The MCP tool list keeps each tool's name, description and required arguments. The per-property entries of the input schemas are left out.
- pydantic validation and coercion of the FastAPI request models are not modelled. The request model's defaults appear only to compare them with the MCP proxy's defaults.
- The HTML of every page, the DOM updates, jQuery AJAX calls, Chart.js rendering, colours, the CSV and image exports of the statistics page, and the file download of the log export are not modelled. The exported text itself is modelled.
- Python's `int()` accepts ASCII whitespace, a sign, digits and single underscores. JavaScript's `parseInt` accepts leading whitespace, a sign, a `0x` prefix and the longest digit prefix. Unicode digits and whitespace are left out of both.
- DataProcessor.LogLevelPrecedence: upper-casing maps only the ASCII letters, whereas Python's `str.upper()` maps all of Unicode (for example 'ı' becomes 'I'). A message such as "debug ınfo" therefore gets DEBUG in the model and INFO in Python.
- The redirect to the statistics page two seconds after the completion alert of the parameters page is navigation and is not modelled.
