# Electronic nose: bridge protocol, session buffers and export, in Dafny

This project models the deterministic core of an electronic-nose system.

An Arduino streams `SENSOR:` lines to a Rust bridge (`backend/src/main.rs`). The bridge:

- parses each line into a reading;
- broadcasts the reading to every subscribed GUI data connection;
- executes the GUI's text commands on a single serial-port slot: connect, disconnect, or forward to the Arduino.

The Python/Qt GUI:

- sends those commands (`BridgeCommander`);
- reads the JSON data stream (`NetworkWorker`);
- keeps per-sensor sampling buffers and a real-time plot;
- fills a control page, a statistics page and a file library;
- exports a session as CSV;
- converts an exported CSV into the Edge Impulse data-acquisition JSON document.

## Modules

- `Backend` (backend.dfy):
  - the sensor-line parser;
  - the command dispatcher, as a step on the serial slot;
  - the `AppState` class, whose subscriber list is changed in place by push and `retain`.
- `NetworkComm` (network_comm.dfy): the four command lines, `_send`, and their round trip through the bridge's dispatcher.
- `DataStream` (data_stream.dfy): the `NetworkWorker` thread as a class. It covers its socket, its emitted signals, and the rule that a connection yields the longest prefix of lines that decode.
- `FileHandler` (file_handler.dfy) covers four things:
  - the CSV layout, as rows of cells;
  - the row-major values matrix and the JSON document;
  - the output file name;
  - the CSV→JSON converter: metadata scan, data loop, and interval estimate.
- `Widgets` (widgets.dfy): the plot buffers, sample info, port list and connection settings.
- `MainWindow` (main_window.dfy): the sampling session: start, tick, stop, clear and save.
- `LibraryPage`, `ControlPage`, `StatsPage` (library_page.dfy, control_page.dfy, stats_page.dfy): the three pages.
- `TableGrid` (table_grid.dfy) is the Qt table grid behind the pages.
- `Text` and `Decimal` hold the string and number primitives the code relies on:
  - trim and split;
  - `split_whitespace`, `trim_start_matches` and `str.replace`;
  - `str(n)`;
  - `f"{x:.Nf}"` and `float()`;
  - `parse::<i32>()`.
- `Constants` holds the configuration values.
- `Wrappers` holds `Option` and `Result`.

## How the environment is modelled

Everything external is an input:

- "the port opens" is `SerialIo.openable`, and "writes succeed" is `SerialIo.writable`;
- "`tx.send` succeeds" is the set `alive`;
- "`json.loads` succeeds" is a `decode` oracle;
- "the file exists / is writable" are booleans;
- the clock is `now`, and the export date and timestamp are strings;
- the tick's random sensor values are a parameter;
- the session `duration` is a parameter;
- the standard deviation is a function parameter.

Numbers are modelled as exact reals:

- `f"{x:.Nf}"` rounds half away from zero;
- `float()` reads plain signed decimals;
- so "format, then parse back" is provably the value rounded, within 0.5·10^-N.

## Behaviour of the code worth noting

The model follows the code as written, including these points:

- **Malformed JSON.** The data reader does not skip a line that fails to decode. On the first such line it breaks out of the read loop and ends the connection (frontend/utils/network_comm.py:84-88). `DataStream.ReadPrefixStopsAtError` states this.
- **Retry delay.** The reader sleeps 2 s whenever an exception escapes the read loop's own `try` (frontend/utils/network_comm.py:90-92). That covers a failed socket setup or connect, such as a refused or timed-out connection (line 70), and any error inside the read loop that is neither a decode error nor a socket error. A stream end, or a decode or socket error inside the read loop (lines 80-88), reconnects at once. `DataStream.AttemptEvents` states both cases.
- **Metadata rows.** The main window's own save writes six metadata rows, without "Mode", so its header is line 6 (frontend/gui/main_window.py:303-308). `FileHandler.save_as_csv` writes seven rows, with the header at line 7. `MainWindow.SessionThenConvert` shows that the converter handles both.

## Model

| member | source | states |
|---|---|---|
| Backend.ParseSensorLine | backend/src/main.rs:44-64 | An accepted line starts with "SENSOR:"; the reading carries the receive time, and its state name is the one the table gives for its state |
| Backend.ParseSensorLineAccepts | backend/src/main.rs:45-49 | A line is accepted exactly when it starts with "SENSOR:" and, after every leading copy of the prefix is stripped, has at least 8 commas (at least 9 fields) |
| Backend.ParseSensorLineRepeatedPrefix | backend/src/main.rs:46 | A line with a repeated prefix parses like the line with one copy of the prefix |
| Backend.ParseSensorLineFields | backend/src/main.rs:47-64 | Fields 0-6 become no2, eth, voc, co, co_mics, eth_mics, voc_mics, in order; field 7 is the state and field 8 the level; later fields are ignored; each field is trimmed and defaults to 0 when it does not parse |
| Backend.StateField | backend/src/main.rs:51-58 | A non-numeric state gives 0 and "IDLE"; the text of k gives state k; its name is the table entry when k < 7 and "UNKNOWN" otherwise; the raw number is kept |
| Backend.ParseCommand | backend/src/main.rs:126-147 | After trimming: a connect carries a non-empty, whitespace-free port token and occurs only for text starting with CONNECT_SERIAL; a disconnect occurs exactly for DISCONNECT_SERIAL; a forward occurs exactly when neither applies, and it carries the trimmed text |
| Backend.ConnectRule | backend/src/main.rs:130-134 | A line connects exactly when its trim starts with CONNECT_SERIAL and splits into at least two tokens, and the port is then the second token; with fewer tokens it is an incomplete connect that does nothing |
| Backend.ConnectFirstArgument | backend/src/main.rs:130-134 | For the keyword, one whitespace character and a rest: the port is the rest's first token, and a rest without tokens gives an incomplete connect |
| Backend.WordsAfterKeyword | backend/src/main.rs:132 | The tokens of the keyword, whitespace and a rest are the keyword followed by the rest's tokens |
| Backend.StepEffect | backend/src/main.rs:130-164 | An accepted connect puts a fresh port in the slot; a failed or nameless connect keeps the slot; a disconnect empties it; any other command keeps the same port (or none) and, when writable, appends the trimmed text and "\n" to that port's output |
| Backend.Step | backend/src/main.rs:126-164 | An opened report means the slot holds a fresh port with that name, which is openable; a disconnect report means the slot is empty; a port left in the slot is either the one that was there or an openable one |
| Backend.ForwardKeepsConnection | backend/src/main.rs:152-164 | An ordinary command never opens or closes the port; with no port it is dropped with a "not connected" report |
| Backend.RunCommandsAppend | backend/src/main.rs:124-126 | Handling the lines of a connection in order composes: the slot after a+b is the slot after b, started from the slot after a |
| Backend.RunCommands | backend/src/main.rs:122-126 | After a connection's lines, the port in the slot is either the starting one or an openable one |
| Backend.DisconnectLast | backend/src/main.rs:147-150 | Whatever came before, a final line that trims to DISCONNECT_SERIAL leaves no port open |
| Backend.Retained | backend/src/main.rs:85 | `retain` never lengthens the list, and every survivor's send succeeded |
| Backend.RetainedMembers | backend/src/main.rs:85 | `retain` keeps a client exactly when it was subscribed and its send succeeds |
| Backend.RetainedConcat | backend/src/main.rs:85 | `retain` works piecewise over a concatenation, so survivors keep their relative order |
| Backend.RetainedStable | backend/src/main.rs:85 | With every send succeeding nothing is dropped; a second `retain` drops nothing more |
| Backend.AppState.constructor | backend/src/main.rs:200-204 | The bridge starts with no subscribers and an empty serial slot |
| Backend.AppState.HandleCommand | backend/src/main.rs:125-166 | One command line moves the slot as the dispatcher step says; the subscriber list is untouched |
| Backend.AppState.ServeCommandConnection | backend/src/main.rs:122-168 | A command connection's lines are handled in order: the final slot is the fold of the step over the lines, with one report per line |
| Backend.AppState.AddClient | backend/src/main.rs:181-184 | A new data connection appends exactly one subscriber at the end |
| Backend.AppState.Broadcast | backend/src/main.rs:85 | The in-place loop leaves the list equal to the retained list, and that list is the set of delivered clients |
| Backend.AppState.OnArduinoLine | backend/src/main.rs:79-87 | A valid reading is parsed and broadcast, dropping dead subscribers; any other line changes nothing |
| Text.Trim | backend/src/main.rs:126 | The result neither starts nor ends with whitespace |
| Text.TrimStartMatches | backend/src/main.rs:46 | The result is a suffix of the input that no longer starts with the pattern, and the input itself when it does not start with the pattern |
| Text.TrimStartMatchesPrefix | backend/src/main.rs:46 | One more leading copy of the pattern is stripped too: the result for p+s is the result for s |
| Text.Split | backend/src/main.rs:47 | At least one piece; no piece contains the separator; the pieces joined by the separator give the input back |
| Text.SplitJoin | backend/src/main.rs:47 | Splitting separator-free pieces joined by the separator gives the pieces back |
| Text.SplitCount | backend/src/main.rs:47-49 | A split has one more piece than the input has separators |
| Text.Words | backend/src/main.rs:132 | `split_whitespace` yields non-empty tokens without whitespace |
| Text.WordsSplit | backend/src/main.rs:132 | A whitespace character splits the text: the tokens of a+[c]+b are the tokens of a followed by those of b; with `WordsOfToken` this determines every split |
| Text.WordsOfToken | backend/src/main.rs:132 | Text that is one non-empty token without whitespace splits into that token alone |
| Text.WordsOfPair | backend/src/main.rs:132 | Two tokens with a space between them split into exactly those two |
| Text.Lines | backend/src/main.rs:124 | No line contains a newline, and text without a newline is one line |
| Text.LinesOfOne | backend/src/main.rs:124 | A single line terminated by "\n" reads back as itself |
| Text.ReplaceAll | frontend/utils/file_handler.py:90 | A replacement as long as the pattern keeps the length |
| Text.ReplaceAllAbsent | frontend/utils/file_handler.py:90 | Text in which the pattern does not occur is returned unchanged |
| Text.ReplaceAllSuffix | frontend/utils/file_handler.py:90 | For a base without the pattern's first character, replacing in base+pattern gives base+replacement |
| Decimal.NatToString | frontend/utils/file_handler.py:30 | `str(n)` is a digit string of value n without leading zeros |
| Decimal.FormatFixed | frontend/utils/file_handler.py:42 | The text is non-empty and starts with '-' exactly for a negative value; with N >= 1 decimals it has a '.' followed by exactly N digits at its end |
| Decimal.ParseDecimal | frontend/utils/file_handler.py:139 | A parsed value is non-negative without a leading '-' and non-positive with one; a digit string parses to its value |
| Decimal.RoundedExact | frontend/utils/file_handler.py:42 | A value with at most N decimals is unchanged by rounding to N decimals |
| Decimal.ParseFormatFixed | frontend/utils/file_handler.py:139 | `float(f"{x:.Nf}")` is x rounded to N decimals |
| Decimal.RoundedNear | frontend/utils/file_handler.py:42 | Rounding to N decimals moves a value by at most 0.5·10^-N |
| Decimal.FormatFixedEdges | frontend/utils/file_handler.py:42 | Fixed-point text is non-empty, starts with '-' or a digit and ends with a digit |
| Decimal.ParseI32 | backend/src/main.rs:52 | A parsed integer lies in the 32-bit range and comes from non-empty text; a digit string of value at most 2^31-1 parses to that value |
| Decimal.ParseI32Range | backend/src/main.rs:52 | A parsed integer lies in the 32-bit range; the text of k ≤ 2^31-1 parses back to k |
| NetworkComm.Send | frontend/utils/network_comm.py:19-29 | `_send` reports success exactly when connect and sendall complete; only then is something sent, namely the command text and one "\n" |
| NetworkComm.PlainCommand | frontend/utils/network_comm.py:35-45 | A single word not starting with 'C' is one line and its own trim, dispatched as a disconnect exactly when it is DISCONNECT_SERIAL, otherwise forwarded unchanged |
| NetworkComm.ConnectLine | frontend/utils/network_comm.py:33 | For a whitespace-free name, "CONNECT_SERIAL name" is one line, its own trim, and exactly the two tokens keyword and name |
| NetworkComm.CommandRoundTrip | frontend/utils/network_comm.py:31-45 | The bridge reads each sent command back as one line and classifies it as meant: connect with the same port name, disconnect, or a forward of START_SAMPLING/STOP_SAMPLING |
| NetworkComm.DeliveredCommandEffect | frontend/utils/network_comm.py:31-45 | A delivered command moves the bridge's slot as meant: connect opens the named port when possible, disconnect empties the slot, start/stop are appended to the open port's output |
| NetworkComm.EmptyPortIgnored | frontend/utils/network_comm.py:33 | `connect_serial("")` sends a line the bridge sees as a connect without a port name |
| NetworkComm.LoneHead | backend/src/main.rs:132-133 | A command that trims to the bare connect keyword is an incomplete connect |
| DataStream.ReadPrefix | frontend/utils/network_comm.py:78-88 | A connection yields no more readings than it has lines |
| DataStream.ReadPrefixLongest | frontend/utils/network_comm.py:78-88 | The readings are the longest run of leading lines that decode: each decodes to its reading, and the next line (if any) does not decode |
| DataStream.ReadPrefixStopsAtError | frontend/utils/network_comm.py:84-88 | A line that fails to decode ends the connection: every later line is lost, decodable or not |
| DataStream.AttemptEvents | frontend/utils/network_comm.py:67-96 | Every connection attempt ends with a False status |
| DataStream.NetworkWorker.constructor | frontend/utils/network_comm.py:57-62 | A new worker is not running and has no socket |
| DataStream.NetworkWorker.Cleanup | frontend/utils/network_comm.py:98-102 | The socket is closed and cleared; with no socket nothing happens |
| DataStream.NetworkWorker.Stop | frontend/utils/network_comm.py:104-106 | The worker stops running and holds no socket; a held socket is closed |
| DataStream.NetworkWorker.ReadStream | frontend/utils/network_comm.py:78-88 | The inner loop emits exactly the longest decodable prefix, one data signal per reading, in order |
| DataStream.NetworkWorker.RunAttempt | frontend/utils/network_comm.py:66-96 | One attempt opens a new socket, emits that attempt's signals, then closes the socket, clears it and emits False |
| DataStream.NetworkWorker.Run | frontend/utils/network_comm.py:64-96 | While running, the signals are those of every attempt in turn; one socket per attempt, none left open |
| FileHandler.Metadata | frontend/utils/file_handler.py:25-31 | Seven rows: the name row, the "Number of Points" row with its count, and an empty seventh row |
| FileHandler.Header | frontend/utils/file_handler.py:34-35 | "Time (s)" followed by one cell per sensor name, in order |
| FileHandler.DataRow | frontend/utils/file_handler.py:38-45 | One time cell with 3 decimals, then one cell per sensor: its value with 2 decimals, or "0" past the end of its list |
| FileHandler.CsvTable | frontend/utils/file_handler.py:25-45 | The metadata, then the header at row 7, then exactly one data row per time |
| FileHandler.SaveAsCsv | frontend/utils/file_handler.py:15-49 | Succeeds exactly when the file is writable; then it writes the table above, with missing name/type shown as "Unknown" |
| FileHandler.CsvRow | frontend/utils/file_handler.py:39-44 | The row loop builds exactly the data row |
| FileHandler.Matrix | frontend/utils/file_handler.py:59-69 | len(sensor 0) rows (none without sensor 0), each with one entry per sensor name, 0.0 for a missing sensor or point |
| FileHandler.ValuesMatrix | frontend/utils/file_handler.py:59-69 | The nested transposition loops build exactly that matrix |
| FileHandler.MatrixRow | frontend/utils/file_handler.py:65-69 | The inner loop builds row i of the matrix |
| FileHandler.SensorInfos | frontend/utils/file_handler.py:84 | One sensor entry per name, in order, with units "V" |
| FileHandler.EdgeImpulseDocument | frontend/utils/file_handler.py:73-86 | The unsigned document carries the interval and the iat; one sensor per name; one value row per point, each with one entry per sensor, entry j of row i being sensor j's value at point i |
| FileHandler.JsonFileName | frontend/utils/file_handler.py:89-90 | A name ending in ".json", or one without ".csv", is kept as it is |
| FileHandler.JsonFileNameOfCsv | frontend/utils/file_handler.py:89-90 | For a base without '.', both "base.csv" and "base.json" are written as "base.json" |
| FileHandler.SaveEdgeImpulseJson | frontend/utils/file_handler.py:52-98 | When the file is writable, writes the unsigned document (alg "none", signature "0", device names, interval, sensors, matrix) under the JSON name; otherwise it reports failure |
| FileHandler.FirstHeader | frontend/utils/file_handler.py:118-123 | Finds the first line within the first 15 whose first cell starts with "Time", or reports that there is none |
| FileHandler.LastName | frontend/utils/file_handler.py:118-120 | The value of the last "Sample Name" row seen, or none exactly when there is no such row |
| FileHandler.ScanOf | frontend/utils/file_handler.py:115-123 | A start index above 0 is a header line |
| FileHandler.ScanMetadata | frontend/utils/file_handler.py:115-123 | The scan loop with its early break computes the scan |
| FileHandler.Numbers | frontend/utils/file_handler.py:139-142 | `float()` applied to every cell of a row |
| FileHandler.RowValues | frontend/utils/file_handler.py:141-145 | The sensor values read from a row number no more than the sensors still to read |
| FileHandler.ReadRow | frontend/utils/file_handler.py:137-145 | A parsed row has at most one value per sensor |
| FileHandler.ReadRowInto | frontend/utils/file_handler.py:138-145 | The per-row body: a short row is skipped; a bad time skips the row; the time is appended before the values; a bad value stops the row; a missing cell aborts the conversion |
| FileHandler.ParseRows | frontend/utils/file_handler.py:133-145 | The collected series has one list per sensor |
| FileHandler.ParseDataRows | frontend/utils/file_handler.py:133-145 | The data loop computes the series row by row |
| FileHandler.ParseRowsNone | frontend/utils/file_handler.py:142 | Once a row lacks a value cell, the conversion fails whatever follows |
| FileHandler.ParseRowsBound | frontend/utils/file_handler.py:136-145 | No more times than rows, and no sensor list longer than the times: lists can fall behind but never run ahead |
| FileHandler.PartialRow | frontend/utils/file_handler.py:139-145 | A row whose second value is bad appends a time and sensor 0's value only, so the lists diverge |
| FileHandler.Telescope | frontend/utils/file_handler.py:153-156 | The sum of the first k successive differences is times[k] - times[0] |
| FileHandler.IntervalOfUniform | frontend/utils/file_handler.py:151-157 | For evenly spaced times, the estimated interval is the spacing in milliseconds |
| FileHandler.IntervalMs | frontend/utils/file_handler.py:151-157 | 100 ms for fewer than two times; otherwise 1000 × the mean of the first min(5, n-1) successive differences |
| FileHandler.IntervalNear | frontend/utils/file_handler.py:151-157 | Moving every time by at most 0.5 ms moves the estimated interval by at most 1 ms |
| FileHandler.EstimateIntervalMs | frontend/utils/file_handler.py:151-157 | Gives 100 ms for fewer than two times; otherwise 1000 × the mean of the first min(5, n-1) differences |
| FileHandler.Convert | frontend/utils/file_handler.py:101-167 | Success requires an existing file, a recognised format and a writable output; the output is the ".csv"→".json" name |
| FileHandler.ConvertFailures | frontend/utils/file_handler.py:101-167 | Each failure in the order the code checks it: a missing file, an unrecognised layout, a data row without a value cell (the caught IndexError), no times, then a failed write; with times and a writable output the conversion succeeds |
| FileHandler.ConvertCsvToJson | frontend/utils/file_handler.py:101-167 | The step-by-step conversion, covering its five failure cases (missing file, unknown format, short row, no times, write failure) |
| FileHandler.ParseFixedText | frontend/utils/file_handler.py:139 | A cell written with N decimals reads back through `float()` as the value rounded to N decimals |
| FileHandler.ParseDataCell | frontend/utils/file_handler.py:42-44 | Every exported sensor cell reads back as its value rounded to 2 decimals, or 0 |
| FileHandler.ReadDataRow | frontend/utils/file_handler.py:139-143 | An exported data row reads back as its rounded time and every sensor's read-back value |
| FileHandler.ReadExportRows | frontend/utils/file_handler.py:136-145 | The data loop over the first m exported rows collects exactly the read-back series |
| FileHandler.ScanOfHeads | frontend/utils/file_handler.py:118-123 | A file that begins as an export scans to its sample name, with the header at line 7 |
| FileHandler.ScanExport | frontend/utils/file_handler.py:118-123 | The scan of any export finds the name from line 1 and the header at line 7 |
| FileHandler.ExportHeaderNames | frontend/utils/file_handler.py:130 | The converter takes back exactly the exported sensor names |
| FileHandler.ExportBody | frontend/utils/file_handler.py:136-145 | An export's data rows read back as the rounded series |
| FileHandler.ReadExportAll | frontend/utils/file_handler.py:136-145 | All exported rows read back as the rounded series |
| FileHandler.ConvertOfParts | frontend/utils/file_handler.py:115-163 | A file whose scan finds the name and a header at any line, whose header gives the names, and whose later rows read as the series, converts to their document |
| FileHandler.ExportThenConvert | frontend/utils/file_handler.py:101-163 | Export then convert gives "base.json" holding the document of the read-back series: names survive, times round to 3 decimals, values to 2 (0 for short lists), the number of samples is kept, and the interval comes from the rounded times and lies within 1 ms of the true one |
| FileHandler.ReadBackTimesNear | frontend/utils/file_handler.py:151-157 | The times read back from an export are as many as were written, and their interval lies within 1 ms of the true one |
| FileHandler.ReadBackNear | frontend/utils/file_handler.py:42 | Every converted value lies within 0.005 of the exported one, and is 0 where the sensor's list ran short |
| Widgets.SensorLabel | frontend/gui/widgets.py:87 | Every plot line has a non-empty legend name |
| Widgets.SensorNamesShape | frontend/config/constants.py:20-28 | The configured names are non-empty, distinct and do not start with 'S' |
| Widgets.LabelsDistinct | frontend/gui/widgets.py:87 | Different plot lines never share a legend name |
| Widgets.LabelsOfConfiguredSensors | frontend/gui/widgets.py:87 | Each of the 7 lines carries its configured sensor name |
| Widgets.PlotColor | frontend/gui/widgets.py:83 | Each line's colour is taken from the palette |
| Widgets.ColorsCycle | frontend/gui/widgets.py:83 | Colours repeat with the palette's length and differ within one turn of it |
| Widgets.Grown | frontend/gui/widgets.py:95-96 | Buffer i gains values[i] when the reading reaches it; buffers past the reading stay unchanged |
| Widgets.GrownBounded | frontend/gui/widgets.py:92-96 | A reading grows each buffer by at most one value, and keeps buffers equal to the time count when the reading covers them all |
| Widgets.SensorPlot.constructor | frontend/gui/widgets.py:57-89 | Empty buffers; 7 lines with their names and colours; max_points stored |
| Widgets.SensorPlot.AddDataPoint | frontend/gui/widgets.py:91-100 | Exactly one time is appended; the buffers grow as `Grown` says; nothing is trimmed |
| Widgets.SensorPlot.ClearData | frontend/gui/widgets.py:102-106 | The time buffer and every sensor buffer become empty |
| Widgets.GetSampleInfo | frontend/gui/widgets.py:169-174 | The name is never empty: the typed text, or "Unnamed Sample" for an empty field; the type is the selection; the mode is "Auto (FSM)" |
| Widgets.GetAvailablePorts | frontend/gui/widgets.py:246-253 | The list is never empty: the device names, ["No Ports"], or ["Error Scanning"] when scanning raises |
| Widgets.GetConnectionSettings | frontend/gui/widgets.py:259-266 | The host is trimmed; the settings hold the command port, the selected serial port and 9600 baud |
| Widgets.SettingsOfTrimmedHost | frontend/gui/widgets.py:259-266 | The default field gives the default host, and re-entering the trimmed host changes nothing |
| Widgets.ConnectionPanel.constructor | frontend/gui/widgets.py:194-210 | The address field holds the default host; the port list comes from a first scan |
| Widgets.ConnectionPanel.RefreshPorts | frontend/gui/widgets.py:255-257 | The selector is refilled from a new scan and its first entry selected; the address field is kept |
| Widgets.ConnectionPanel.ConnectionSettings | frontend/gui/widgets.py:259-266 | The settings of the current field contents |
| MainWindow.Window.constructor | frontend/gui/main_window.py:37-39 | Not sampling, with four empty sensor lists and no times |
| MainWindow.Window.ClearSession | frontend/gui/main_window.py:205-207 | The lists and the plot become empty |
| MainWindow.Window.StartSampling | frontend/gui/main_window.py:191-210 | An empty name changes nothing; otherwise the lists are cleared, sampling starts and the clock is 0 |
| MainWindow.Window.StopSampling | frontend/gui/main_window.py:256-258 | Sampling stops; the data is kept |
| MainWindow.Window.Tick | frontend/gui/main_window.py:223-254 | Does nothing when not sampling; otherwise the clock advances one interval, each of the 4 lists and the times gain one entry, the plot mirrors them, and sampling stops once the clock reaches the duration |
| MainWindow.SpacedIncreasing | frontend/gui/main_window.py:228 | Session times are strictly increasing and exactly (j-i)·0.25 s apart |
| MainWindow.SessionStep | frontend/gui/main_window.py:228-242 | A tick keeps the times one interval apart |
| MainWindow.Window.ClearPlot | frontend/gui/main_window.py:330-340 | Only a confirmed clear empties the lists and the plot |
| MainWindow.Window.SaveData | frontend/gui/main_window.py:284-328 | Saving the current session gives the session-save outcome |
| MainWindow.Underscored | frontend/gui/main_window.py:294 | Every space becomes '_', everything else is kept, and the length is unchanged |
| MainWindow.SessionFileName | frontend/gui/main_window.py:294 | The file lies under "data/" and ends in ".csv" |
| MainWindow.SessionMetadata | frontend/gui/main_window.py:303-308 | Six rows (no mode row): the name row, the point count, and an empty last row |
| MainWindow.SessionTable | frontend/gui/main_window.py:303-322 | The metadata, the header "Time (s)", "Sensor 1".."Sensor 4", then one 5-cell row per time with "0" padding |
| MainWindow.SessionSave | frontend/gui/main_window.py:284-328 | Refused exactly when there are no times; otherwise the path is the session file name, and the save succeeds exactly when the file is writable |
| MainWindow.SaveSession | frontend/gui/main_window.py:296-322 | The row-writing loop produces exactly that outcome |
| MainWindow.ScanOfSessionHeads | frontend/utils/file_handler.py:115-123 | A file that begins like a session file scans to its sample name, with the header at line 6 |
| MainWindow.SessionHeaderNames | frontend/utils/file_handler.py:130 | The converter reads "Sensor 1".."Sensor 4" from a session file's header |
| MainWindow.SessionBody | frontend/utils/file_handler.py:136-145 | A session file's data rows read back as the rounded series |
| MainWindow.SessionThenConvert | frontend/utils/file_handler.py:101-163 | Converting a file the save button wrote gives the document of the read-back series under the converted name, with columns "Sensor 1".."Sensor 4"; the number of samples is kept and the interval lies within 1 ms of the true one |
| MainWindow.SessionInterval | frontend/gui/main_window.py:228 | Times a whole number of 0.25 s ticks apart, from a whole tick, read back unchanged and convert to a 250 ms interval |
| LibraryPage.UploadLabel | frontend/gui/pages/library_page.py:186 | The label contains neither '_' nor '-', is a prefix of the file name, and stops at the name's first '_' or '-' |
| LibraryPage.JsonName | frontend/gui/pages/library_page.py:173 | A name without ".csv" is kept as it is |
| LibraryPage.PngPath | frontend/gui/pages/library_page.py:97 | The preview path has the CSV path's length, and a path without ".csv" is kept |
| LibraryPage.DerivedNames | frontend/gui/pages/library_page.py:173 | "base.csv" gives "base.json" and the preview "base.png" |
| LibraryPage.LabelOfSessionFile | frontend/gui/pages/library_page.py:186 | A file saved under a one-word sample name is labelled with that name |
| LibraryPage.Insert | frontend/gui/pages/library_page.py:86 | Inserting adds exactly the one entry |
| LibraryPage.SortNewestFirst | frontend/gui/pages/library_page.py:86 | The sorted list is a permutation of the files |
| LibraryPage.InsertNewestFirst | frontend/gui/pages/library_page.py:86 | Inserting into a newest-first list keeps it newest first |
| LibraryPage.InsertWithTime | frontend/gui/pages/library_page.py:86 | Inserting an entry leaves the order of the entries with any one time alone |
| LibraryPage.SortedNewestFirst | frontend/gui/pages/library_page.py:86 | The library list is ordered newest first by modification time |
| LibraryPage.SortStable | frontend/gui/pages/library_page.py:86 | The sort is stable: files with equal times keep their listing order |
| LibraryPage.RowOf | frontend/gui/pages/library_page.py:93-117 | A row shows its file's name, and an icon exactly when the PNG beside it exists |
| LibraryPage.Library.constructor | frontend/gui/pages/library_page.py:80 | The table starts empty |
| LibraryPage.Library.RefreshLibrary | frontend/gui/pages/library_page.py:78-117 | The table is emptied; without `data/` the folder is created and the table stays empty; otherwise there is one row per file, newest first |
| LibraryPage.UploadPlan | frontend/gui/pages/library_page.py:155-187 | Cases: an empty stripped key stops, and a missing selection stops; only the first selected row is used; conversion is tried exactly when the JSON is absent and the CSV exists; with neither present it returns silently; a failed conversion aborts, naming the CSV path, and an upload after a conversion happens only when the conversion succeeded; an upload sends the JSON path, the key and the label |
| LibraryPage.ConvertedFileIsUploaded | frontend/gui/pages/library_page.py:170-178 | For a plain "base.csv", the conversion writes exactly the JSON file the upload then sends |
| ControlPage.Controls | frontend/gui/pages/control_page.py:76-84 | Connect is enabled exactly when disconnected and reads "Connected" exactly when connected; start is enabled exactly when connected and not sampling; stop exactly when connected and sampling |
| ControlPage.ControlsExclusive | frontend/gui/pages/control_page.py:83-84 | Start and stop are never enabled together; both are off when disconnected; exactly one is on when connected |
| ControlPage.ControlsShowState | frontend/gui/pages/control_page.py:79-84 | The buttons tell states apart exactly when the connection differs, or sampling differs while connected |
| ControlPage.InfoKeysDistinct | frontend/gui/pages/control_page.py:52-58 | The five information keys are distinct |
| ControlPage.ControlPage.constructor | frontend/gui/pages/control_page.py:42-46 | The table is filled with its defaults; connect and start are enabled and stop is not |
| ControlPage.ControlPage.PopulateInfoTable | frontend/gui/pages/control_page.py:51-61 | Row r holds the r-th key and its default value, in order |
| ControlPage.ControlPage.UpdateInfo | frontend/gui/pages/control_page.py:63-65 | Only cell (k, 1) changes |
| ControlPage.UpdateInfoOnlyValue | frontend/gui/pages/control_page.py:63-65 | No key changes, no other row changes, and row k becomes [key, value] |
| ControlPage.ControlPage.EnableControls | frontend/gui/pages/control_page.py:76-84 | The buttons show the connection and sampling state; the table is kept |
| TableGrid.Blank | frontend/gui/pages/stats_page.py:26 | A rows×cols table with every cell empty |
| TableGrid.SetCell | frontend/gui/pages/control_page.py:65 | `setItem` changes cell (r, c) only; a position outside the table changes nothing |
| StatsPage.Min | frontend/gui/pages/stats_page.py:67 | The minimum is one of the values and no greater than any of them |
| StatsPage.Max | frontend/gui/pages/stats_page.py:68 | The maximum is one of the values and no smaller than any of them |
| StatsPage.Mean | frontend/gui/pages/stats_page.py:69 | The count times the mean is the sum |
| StatsPage.MeanBetween | frontend/gui/pages/stats_page.py:69 | Values between lo and hi have their mean between lo and hi |
| StatsPage.MinMeanMax | frontend/gui/pages/stats_page.py:67-69 | min ≤ mean ≤ max |
| StatsPage.ConstantStats | frontend/gui/pages/stats_page.py:67-69 | Equal values have that value as min, max and mean |
| StatsPage.ZeroShown | frontend/gui/pages/stats_page.py:49 | Zero is shown as "0.00" |
| StatsPage.StatCells | frontend/gui/pages/stats_page.py:67-76 | Columns 1-4 hold min, max, mean and standard deviation |
| StatsPage.UpdatedStats | frontend/gui/pages/stats_page.py:51-76 | With no data, or none for sensor 0, the table is kept; names are always kept; rows without values or outside the data are kept; other rows' columns 1-4 show their statistics |
| StatsPage.FillRow | frontend/gui/pages/stats_page.py:73-76 | Writing columns 1-4 of a row replaces exactly those cells |
| StatsPage.RoundedNear2 | frontend/gui/pages/stats_page.py:73-75 | Two-decimal display moves a value by at most 0.005 |
| StatsPage.ShownStats | frontend/gui/pages/stats_page.py:67-76 | An updated row shows min, max and mean of the sensor's values, in order; min and max are among the values; each text reads back as the statistic rounded to 2 decimals, within 0.005 |
| StatsPage.StatsPage.constructor | frontend/gui/pages/stats_page.py:26-37 | 7 rows, each named, with every statistic "0.00" |
| StatsPage.StatsPage.PopulateRows | frontend/gui/pages/stats_page.py:40-49 | Row r holds sensor r's name and "0.00" in columns 1-4 |
| StatsPage.StatsPage.UpdateStatistics | frontend/gui/pages/stats_page.py:51-76 | The cell-by-cell loop yields the updated table |
| StatsPage.StatsPage.ClearStats | frontend/gui/pages/stats_page.py:78-82 | Columns 1-4 of every row go back to "0.00"; column 0 is untouched |

## Left out

- Backend.AppState.Broadcast: each subscriber receives a copy of the JSON text. As written, the `retain` closure at backend/src/main.rs:85 moves `json_str` out of an `FnMut` closure (Rust error E0507), so the bridge does not compile in this revision; the model follows the evident intent of sending one copy per subscriber.
- TCP and serial plumbing in the bridge is not modelled: listeners, `incoming()` loops, thread spawning and mutex locking. The model handles commands and readings one at a time in a sequential order; interleavings of concurrent connections are not modelled.
- The InfluxDB write, the actix HTTP route, `upload_to_edge_impulse`, `webbrowser` and the gnuplot `subprocess` calls (including `generate_png`) are outside the model. They are foreign calls; `UploadPlan` ends at the upload call.
- frontend/utils/serial_comm.py is not part of this model: it is serial I/O, and the main window never starts it.
- Timestamps and the Edge Impulse `iat` come from clocks, so they are inputs. The same goes for `datetime.now()`, file existence, mtime and size.
- Backend.ParseSensorLine: `f64`/`float` parsing accepts only plain signed decimals. Exponents, "inf", "nan" and '_' digit separators are not accepted.
- Text.Trim: only ASCII whitespace is trimmed, not the full Unicode set. The same applies to `split_whitespace`.
- Decimal.RoundedNear: formatting rounds exact reals half away from zero. Binary floating point is not modelled; it can round a decimal tie the other way.
- The `csv` module's quoting and escaping are not modelled. A file is its rows of cells, and reading a file back gives each cell's text.
- JSON serialisation of the reading and of the Edge Impulse document is not modelled. The document is a datatype, and the data reader's `json.loads` is an oracle.
- `NetworkWorker`:
  - the 2-second sleep is recorded as an event, and socket timeouts are not modelled;
  - stopping from another thread while it reads is not modelled;
  - errors other than decode errors inside the read loop are not modelled.
- `MainWindow.on_update_plot`:
  - its random sensor values and the session duration are parameters;
  - `sample_info['duration']` is missing from `get_sample_info` in this revision;
  - `start_time` is 0.0 before the first start, since ticks never read it while not sampling.
- Some main-window updates are not modelled.
  - The info-table and status-bar updates are not modelled: `on_start_sampling` writes rows 0-2 and a tick writes rows 3-4.
  - `populate_info_table`, `populate_stats_table` and `update_statistics` of the window's own tables are not modelled either. They repeat the page logic that ControlPage and StatsPage model.
- `on_connect` is not modelled: it reads a `settings['source']` key that `get_connection_settings` does not supply.
- MainWindow.Window.StartSampling: the empty-name guard is modelled, but the text it tests always comes from `GetSampleInfo`, which never returns an empty name. As written, `on_start_sampling` reads `sample_info['duration']` at frontend/gui/main_window.py:202, a key `get_sample_info` does not supply; the KeyError comes before the clears and `is_sampling = True` at lines 205-210. So in this revision the start that the model describes never happens; the model shows what the handler does once the key exists.
- The standard deviation is a function parameter. Square roots are not modelled.
- `np.mean` is the exact real mean, so float accumulation error is not modelled.
- StatsPage.StatsPage.UpdateStatistics: the per-sensor dictionary is a sequence indexed 0..n-1, so an input without key 0 cannot arise.
- ControlPage.ControlPage.UpdateInfo: the value is given as text, so `str(value)` is not modelled.
- `get_connection_settings`, `get_sample_info` and `set_status` on the control page are not modelled: they only delegate to the panels (Widgets). Status colours and indicator painting are not modelled.
- `clear_clicked` on the control page is not modelled, because the panel class has no such signal. The import of a missing `utils.data_processor` module in main_window.py is not modelled either.
- The library's size text is not modelled (`f"{size_kb:.1f} KB"` on the size in bytes / 1024), and neither is the date text, which is an input. `on_double_click` is not modelled; it opens gnuplot.
- Styling, layout and the dashboard page are presentation only, so they are not modelled.
