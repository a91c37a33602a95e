# IAC energy-monitoring data logger: configuration parser and control loop

The firmware reads a board configuration file and builds a `BoardSpecs` record. That
record holds connection settings, board identity, sensor types and ports. The firmware
then loops forever:

- it samples every port;
- it clamps each sample to the port's valid range;
- it keeps the Wi-Fi link up within a retry budget;
- it sends the readings to a remote database.

Readings it cannot send go to a backup file on the SD card. That file is drained,
oldest entry first, in later cycles.

This project models two pieces:

- **The configuration parser** `readConfigText` and its helpers `setUnitMultiplier`,
  `getSensorName` and `setBoundsFromID` (`BoardConfig.dfy`, with the C string routines
  it relies on in `CText.dfy`).
  - A line is a `seq<char>`, as `fgets` leaves it in the buffer, its `'\n'` included.
  - The file is a `seq<seq<char>>`.
  - `strtok` has its C semantics: leading delimiters are skipped, runs of delimiters
    collapse, and NULL is returned when only delimiters remain.
  - `ReadConfigText` keeps the source's two loops and field-by-field updates. It is
    proved equal to `ParseConfig`, a line-by-line specification.
  - `LineFields.dfy` proves what each kind of line yields: a SensorID, ConnInfo, Board
    or port line of the documented shape gives exactly its fields.
  - The properties of `ParseConfig` are proved in `ConfigProperties.dfy`:
    - sensor ids follow file order;
    - every stored port resolves to a usable sensor;
    - ports keep file order;
    - the last ConnInfo or Board line wins.
- **The decisions of the main loop** (`Controller.dfy`).
  - The startup offline check.
  - Sample clamping to the `±HUGE_VAL` sentinels (`AboveRange`/`BelowRange`).
  - The Wi-Fi retry budget with its one-way `OfflineMode` flag.
  - The deliver-or-persist step, with its polling-interval updates.
  - The class `DataLogger` holds `OfflineMode`, `wifi_tries`, `PollingInterval`, the
    ports and the backup file. The backup file is a sequence of snapshots, `backlog`.
  - A ghost sequence `delivered` records what the database received.
  - `Cycle` proves no loss and FIFO order: `delivered + backlog` grows by exactly this
    cycle's snapshot, at the end.

`StartupConfig.dfy` links the two pieces: it shows which configuration texts make the
run start offline.

The network and storage calls are not modelled; their answers are oracles:

- `startESP`, `checkESPWiFiConnection` and `connectESPWiFi` give booleans;
- `sendBackupDataTCP` and `sendBulkDataTCP` give a `SendOutcome`: success, and the
  interval the server wrote back;
- the drain loop's `PollingTimer.read() <= PollingInterval` test is a boolean per
  iteration.

The backup-file calls are assumed to act on the head and tail of the backlog:

- `checkForBackupFile` is `backlog != []`;
- `sendBackupDataTCP` sends `backlog[0]`;
- `deleteDataEntry` removes `backlog[0]`;
- `dumpSensorDataToFile` appends the current snapshot.

The model follows the code where it does something other than its names and comments
suggest:

- The loop commented "remove whitespace" calls `erase(pos)`, which truncates the port
  name at its first space rather than deleting the spaces (`TruncateAtSpace`).
- Board lines are split with the same `':'` delimiter as ConnInfo lines. The board id is
  the first token itself, the text before the first `':'` including the leading `'B'`.
  The table name is the fourth token, and it keeps the line's trailing `'\n'`.
- `setBoundsFromID` assigns `RangeEnd` twice and never touches `RangeFloor` or
  `RangeCeiling`. A parsed port therefore keeps the default floor and ceiling of
  `PortInfo`. The declaring header is not part of this model, so those defaults are
  the parameter `unset`. Clamping works against them.
- A reconnect failure that sets `OfflineMode` does not stop the same cycle. The cycle
  still checks the link and may drain and send (`Cycle` does the same).

## Model

| member | source | states |
|---|---|---|
| CText.Strtok | BoardConfig/BoardConfig.cpp:124-138 | strtok returns NULL exactly when only delimiters remain. Otherwise the token is non-empty and delimiter-free, and the rest is a suffix of the input. |
| CText.StrtokSplitsAt | BoardConfig/BoardConfig.cpp:165 | A token that starts at once ends at the first delimiter, and that delimiter is consumed. |
| CText.StrtokSkipsLeadingDelims | BoardConfig/BoardConfig.cpp:85-105 | Leading delimiters are skipped, so a run of delimiters between fields counts as one. |
| CText.Atoi | BoardConfig/BoardConfig.cpp:131 | For a token starting with a digit, atoi gives the non-negative decimal value of its leading digits. |
| CText.AtoiReadsDigits | BoardConfig/BoardConfig.cpp:167 | atoi skips leading isspace characters, then reads the value of the digits up to the first non-digit. A port line's id token " 0" reads as 0. |
| CText.AtoiReadsSign | BoardConfig/BoardConfig.cpp:167 | After the isspace characters, a '-' or '+' sign is read and the digits after it give the value, negated for '-'. A sign with no digits after it reads as 0. |
| CText.Atof | BoardConfig/BoardConfig.cpp:98-106 | A token starting with a digit reads as a value that is not negative. |
| CText.AtoiReadsNoNumber | BoardConfig/BoardConfig.cpp:167 | Isspace characters followed by neither a digit nor a sign read as 0, so a port line such as "PA:x\n" binds its port to sensor id 0. |
| CText.AtofReadsFraction | BoardConfig/BoardConfig.cpp:98-106 | Isspace characters, then digits, '.', and digits, then a non-digit, read as the integer part plus the fraction digits' value over 10 to the number of fraction digits. Either run of digits may be empty, so ".5" reads as 0.5. |
| CText.AtofReadsInteger | BoardConfig/BoardConfig.cpp:98-106 | Isspace characters, then digits followed by neither a digit nor '.', read as the digits' value. |
| CText.AtofReadsPlus | BoardConfig/BoardConfig.cpp:98-106 | A '+' after the isspace characters is skipped, and the unsigned decimal after it is the value. |
| CText.UnsignedDecimalInteger | BoardConfig/BoardConfig.cpp:98-106 | Digits followed by neither a digit nor '.' read as their value, and no digits read as 0. |
| CText.AtofReadsNegativeInteger | BoardConfig/BoardConfig.cpp:102-106 | Isspace characters, '-', then digits followed by neither a digit nor '.' read as minus their value, so a range bound "-40" reads as -40. |
| CText.AtofReadsNoNumber | BoardConfig/BoardConfig.cpp:98 | Isspace characters followed by neither a digit, '.', nor a sign read as 0. A multiplier written "x" is 0, so the filter drops every port bound to that sensor. |
| CText.AtofReadsMinus | BoardConfig/BoardConfig.cpp:102-106 | A '-' after the isspace characters negates the unsigned decimal that follows it, as a negative range bound is read. |
| BoardConfig.SetUnitMultiplier | BoardConfig/BoardConfig.cpp:198-205 | Gives 0 for an id outside the sensor list, otherwise that sensor's multiplier. |
| BoardConfig.GetSensorName | BoardConfig/BoardConfig.cpp:208-227 | Gives "No Sensor" for an id outside the list. Otherwise gives type, " in ", unit, of length \|type\|+4+\|unit\|. |
| BoardConfig.SetBoundsFromID | BoardConfig/BoardConfig.cpp:61-64 | Needs the id to index the list. Sets RangeEnd to the sensor's RangeEnd and changes no other field. |
| BoardConfig.TruncateAtSpace | BoardConfig/BoardConfig.cpp:169-174 | The name that is kept is a prefix of the token and holds no space. It is the whole token, or it stops at a space. |
| BoardConfig.ErasePortNameFromSpace | BoardConfig/BoardConfig.cpp:170-174 | The find_first_of/erase loop leaves exactly the name cut at its first space. |
| BoardConfig.StrtokChain | BoardConfig/BoardConfig.cpp:85-105 | When no call returns NULL, there is one token per strtok call of the line, and each token is non-empty. |
| BoardConfig.StrtokChainNullIff | BoardConfig/BoardConfig.cpp:85-105 | The chain is None exactly when one of the line's strtok calls returns NULL, on the text the earlier calls left. |
| BoardConfig.StrtokChainTokens | BoardConfig/BoardConfig.cpp:85-105 | Token k of the chain is what the k-th strtok call returns, splitting on that call's delimiters, on the text the earlier calls left. |
| BoardConfig.RemotePortOf | BoardConfig/BoardConfig.cpp:129-134 | RemotePort is the value of the port token's leading digits when the token starts with a digit, and 0 otherwise. It is never negative. |
| BoardConfig.DerivePort | BoardConfig/BoardConfig.cpp:159-190 | A port line yields a port iff its id is in range and that sensor's multiplier is non-zero. The port's name, multiplier, description and RangeEnd come from that sensor; its floor and ceiling keep their defaults. |
| BoardConfig.ApplyLine | BoardConfig/BoardConfig.cpp:118-191 | In pass two, a ConnInfo line sets exactly IP, port, host and directory. A Board line sets exactly id, SSID, password and table. A P line appends at most its derived port. Any other line changes nothing, and no line changes the sensors. |
| BoardConfig.ReadConfigText | BoardConfig/BoardConfig.cpp:67-195 | The two fgets loops with the rewind between them compute ParseConfig: pass one's sensor list, then pass two over every line. |
| BoardConfig.ReadSensorLine | BoardConfig/BoardConfig.cpp:81-111 | A line starting with 'S' that contains "SensorID" appends its sensor type. Other lines append nothing. |
| BoardConfig.ReadSpecLine | BoardConfig/BoardConfig.cpp:118-191 | The field-by-field body of the second loop is ApplyLine. |
| LineFields.FieldStep | BoardConfig/BoardConfig.cpp:85-105 | A non-empty field free of its delimiter, followed by that delimiter, is the token of one strtok call, in front of the tokens of the calls that follow. |
| LineFields.ThreeFields | BoardConfig/BoardConfig.cpp:85-105 | Three such fields in a row are the tokens of three successive strtok calls. |
| LineFields.SensorLineFields | BoardConfig/BoardConfig.cpp:85-106 | A SensorID line "tag:type,unit,multiplier,start,end\n" whose fields are non-empty and free of their delimiters yields SensorInfo(type, unit, atof(multiplier), atof(start), atof(end)). |
| LineFields.ConnLineFields | BoardConfig/BoardConfig.cpp:124-138 | A ConnInfo line "tag:ip:port:host:dir\n" yields exactly that IP, host and directory, and RemotePortOf the port token. |
| LineFields.BoardLineFields | BoardConfig/BoardConfig.cpp:144-153 | A Board line "id:ssid:password:table" yields exactly those four fields. The table name is everything after the third ':', its '\n' included. |
| LineFields.PortLineFieldsOf | BoardConfig/BoardConfig.cpp:165-167 | A port line "name:id\n" yields the raw name and atoi of the id field. |
| ConfigProperties.SensorKIsKthSensorLine | BoardConfig/BoardConfig.cpp:78-112 | Sensor k is the sensor type read from the k-th SensorID line. There are as many sensors as SensorID lines. |
| ConfigProperties.SensorsOfSkipsOtherLine | BoardConfig/BoardConfig.cpp:78-112 | Pass one's sensor list is the same with or without a line that is not a SensorID line, wherever it stands. |
| ConfigProperties.SensorIdsIgnoreOtherLines | BoardConfig/BoardConfig.cpp:78-116 | Inserting or removing any non-SensorID line, a port line for one, anywhere in the text changes no sensor id. |
| ConfigProperties.ParsedSensorsArePassOne | BoardConfig/BoardConfig.cpp:114-192 | Pass two leaves pass one's sensor list as it is. |
| ConfigProperties.ParsedPortsValid | BoardConfig/BoardConfig.cpp:177-190 | Every stored port references an in-range sensor with a non-zero multiplier, and carries that sensor's multiplier, description and RangeEnd. Its name has no space. |
| ConfigProperties.ParsedPortsInFileOrder | BoardConfig/BoardConfig.cpp:155-190 | The stored ports are the derived ports of the P lines, in file order. |
| ConfigProperties.LastConnInfoWins | BoardConfig/BoardConfig.cpp:121-139 | IP, port, host and directory come from the last ConnInfo line, whatever earlier ones said. |
| ConfigProperties.LastBoardLineWins | BoardConfig/BoardConfig.cpp:142-154 | Board id, SSID, password and table name come from the last Board line. |
| ConfigFindings.ReadPortLineAsWritten | BoardConfig/BoardConfig.cpp:176-190 | The port branch in the source's order, with setBoundsFromID before the filter. It needs the id in range, and then agrees with DerivePort. |
| ConfigFindings.AsWrittenReadsPastSensorList | BoardConfig/BoardConfig.cpp:182 | The accepted one-line text "PA:7\n" reaches setBoundsFromID with id 7 and an empty sensor list. |
| ConfigFindings.OutOfRangePortIsSkipped | BoardConfig/BoardConfig.cpp:187-190 | With the call after the filter, the same text parses to a board with no ports. |
| ConfigFindings.PortLineFields | BoardConfig/BoardConfig.cpp:165-167 | "PA:7\n" is a port line naming port "PA" and sensor id 7. |
| Controller.Clamp | main.cpp:158-172 | Above the ceiling gives the +HUGE_VAL sentinel. Otherwise, below the floor gives the -HUGE_VAL sentinel. Otherwise the sample is kept unchanged, and it then lies within [floor, ceiling]. |
| Controller.SampledPort | main.cpp:152-178 | A port with multiplier 0 is not read. Any other port gets the clamped value of raw × multiplier, and no other field changes. |
| Controller.Adopt | main.cpp:228-232 | A suggestion strictly above 0 replaces the interval; otherwise the interval is kept. A positive interval stays positive. |
| Controller.AfterReconnect | main.cpp:186-212 | Offline or link up: no change. A failed connect spends one try and goes offline iff no try is left. A successful connect restores the full budget. |
| Controller.OfflineIsSticky | main.cpp:186-212 | The reconnect block runs only while online, and the only assignment in it sets OfflineMode to true. So once offline, no run of reconnect steps changes OfflineMode or wifi_tries. |
| Controller.OfflinePrefixStaysOffline | main.cpp:199-206 | Once any prefix of a run went offline, the whole run ends offline. |
| Controller.FailuresSpendBudget | main.cpp:195-206 | k failures in a row from t ≥ k tries leave t−k tries, and go offline exactly at the t-th. |
| Controller.DrainCount | main.cpp:220-243 | The drain delivers at most as many entries as the backlog holds and the timer allows. |
| Controller.DrainCountIsLongestRun | main.cpp:220-243 | The entries delivered are the longest run of in-time, successful sends. The loop stops at an empty backlog, an expired timer or the first failure. |
| Controller.IntervalAfterDrain | main.cpp:220-243 | Every attempted backup send may update the interval, the failing one included, and the interval stays positive. |
| Controller.IntervalAfterDrainIsSuggested | main.cpp:228-232 | After the drain the interval is the old one, or a positive suggestion the server made on a send the loop attempted: an in-time successful send before the loop stopped, or the failing send that stopped it. |
| Controller.DataLogger.Start | main.cpp:37-144 | The run starts offline iff the ESP chip failed or the table name, remote dir, IP or host is blank, or the port is 0. A failed initial connect only spends one try. The interval starts at 5. |
| Controller.DataLogger.SamplePorts | main.cpp:152-178 | Every port becomes SampledPort of its raw reading. Nothing else changes. |
| Controller.DataLogger.Reconnect | main.cpp:186-212 | The budget becomes AfterReconnect of the old one. |
| Controller.DataLogger.DrainBacklog | main.cpp:220-243 | Removes the first DrainCount entries from the head of the backlog and appends them, in order, to what the database received. The interval becomes IntervalAfterDrain. |
| Controller.DataLogger.DeliverLive | main.cpp:245-267 | With an empty backlog the snapshot is sent: it is delivered on success and stored on failure. With a backlog left, the snapshot is stored behind it. |
| Controller.DataLogger.Cycle | main.cpp:149-286 | delivered + backlog grows by exactly this cycle's snapshot, at the end, so nothing is lost and FIFO order holds. OfflineMode never goes back to false. An offline cycle only stores. The backlog ends empty iff the snapshot was delivered. With the link down after the reconnect, the interval is kept and nothing is delivered. With the link up, exactly the first DrainCount backlog entries are delivered, followed by the snapshot iff the backlog was drained completely and the live send succeeded. The interval is then IntervalAfterDrain, followed by the live send's suggestion if the backlog was drained completely. |
| StartupConfig.NoConnInfoStartsOffline | main.cpp:111-116 | A text without a ConnInfo line leaves the remote IP empty, so the run starts offline. |
| StartupConfig.NoBoardLineStartsOffline | main.cpp:98-102 | A text without a Board line leaves the table name empty, so the run starts offline. |
| StartupConfig.NonDigitPortStartsOffline | main.cpp:118-122 | When the last ConnInfo line's port token does not start with a digit, the remote port is 0 and the run starts offline. |
| StartupConfig.DigitPortIsRead | BoardConfig/BoardConfig.cpp:129-131 | When the last ConnInfo line's port token starts with a digit, the remote port is the value of its leading digits. |

## Left out

- `readSDCard` and `printSpecs` (file open, seek, read, rewind, console output), every
  `printf`/`fflush`, the filesystem mount and reformat, and the UART/ATCmdParser setup:
  these are I/O.
- The networking and backup-file functions (`startESP`, `checkESPWiFiConnection`,
  `connectESPWiFi`, `sendBackupDataTCP`, `sendBulkDataTCP`, `checkForBackupFile`,
  `dumpSensorDataToFile`, `deleteDataEntry`). Networking.h, OfflineLogging.h and their
  sources are not part of this model. Their results are oracle parameters, and the
  backup file obeys the head/tail assumption stated above.
- A crash between a successful backup send and `deleteDataEntry`, which would send an
  entry twice: power loss is not modelled.
- The watchdog (`resetWatchdog`, `NVIC_SystemReset`) and the `PollingTimer` busy-wait
  at the end of a cycle: real-time hardware behaviour. The timer test inside the drain
  loop is an oracle; timer answers past the end of the given steps read as expired.
- `WIFITRIES`, and the default `RemoteDir`, `RangeFloor` and `RangeCeiling` of the
  structs, are declared in headers that are not part of this model.
  - `WIFITRIES` is the constructor parameter `wifiTriesMax`.
  - The floor and ceiling are the parameter `unset`.
  - A default-constructed `BoardSpecs` is taken to hold empty strings and remote port 0.
- IEEE float semantics: `float` values are `real`. The `HUGE_VAL` results are the
  sentinels `AboveRange`/`BelowRange`. `AnalogIn::read()` is a `real` given per port.
- `CText.Atof` handles plain decimals only (sign, digits, fraction); exponent, hex,
  `inf` and `nan` forms are left out, because configuration values do not use them.
- `CText.Atoi`: int overflow is not modelled; the value is unbounded.
- Lines longer than `BUFFLEN` (split across `fgets` calls) and embedded NUL characters
  are not modelled: each line is read whole.
- A directive line with a missing field makes `strtok` return NULL, which the source
  dereferences. That is undefined behaviour, so `ReadConfigText` requires every line to
  be `WellFormed`.
- The `prtCnt` counter is never read, and `Specs.Ports.reserve`/`Sensors.reserve` only
  pre-allocate; neither is modelled.
- More than ten ports would index the ten-element `AnalogIn Port[]` array out of
  bounds. The model reads one raw value per port and does not model that limit.

## Findings

| source | as written | input that shows it | evidently intended | confidence | as-written member | corrected member |
|---|---|---|---|---|---|---|
| BoardConfig/BoardConfig.cpp:182 | `setBoundsFromID(tmp, Specs.Sensors)` runs before the zero-multiplier filter (line 188) and indexes `sensors[input.SensorID]` unchecked | the one-line text `PA:7\n` (a port bound to sensor 7 with no SensorID lines): the port line reaches `setBoundsFromID` with id 7 and an empty sensor list, an out-of-bounds vector read | ports with an unknown sensor id are skipped, as `setUnitMultiplier` and `getSensorName` already guard against, so bounds are set only for ports that pass the filter | high that the read is out of bounds, not executed | ConfigFindings.AsWrittenReadsPastSensorList | ConfigFindings.OutOfRangePortIsSkipped |

The rest of the model uses the corrected order: `BoardConfig.ReadSpecLine` calls
`SetBoundsFromID` only for a port whose multiplier is non-zero. Wherever the source is
defined, the two orders give the same result (`ConfigFindings.ReadPortLineAsWritten`).
