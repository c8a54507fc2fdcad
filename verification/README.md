# IoT_monitoring: frame parser, replay inverter and monitor cycle

A Dafny model of the data path of IoT_monitoring:

- The `Inverter` device parses one text frame into a measurement record:
  - strip the frame, drop leading `(` and trailing `)`, split on whitespace;
  - require exactly ten tokens;
  - convert the first nine with `float`, keep the tenth verbatim as `command_bits`.
- The `FakeInverter` replays a telemetry file:
  - reading its clock moves the clock ten minutes forward;
  - reading its frame re-reads the file at a cursor and moves the cursor two lines.
- The `Monitor` keeps an ordered registry of devices. One cycle polls every device once, in registration order, adds each record to a fresh store session and commits once. Any exception ends the cycle before the commit. `mainloop` repeats cycles.

Files:

- `wrappers.dfy`: `Option`, `Result`, `Outcome`.
- `text.dfy`: Python's `strip`, `lstrip`/`rstrip` with a character set, `split`, and `" ".join`.
- `inverters.dfy`: device identity with its construction defaults, the frame decoder, and `Inverter.get_data`.
- `replay.dfy`: the replay state machine as functions, plus the `FakeInverter` class with its two side-effecting reads as methods.
- `sink.dfy`: the store session as a FIFO queue of records.
- `monitoring.dfy`: devices, the `Monitor` class, one poll-and-flush cycle and the bounded main loop.

Modelling conventions:

- `float()` is a parameter `toFloat: string -> Option<real>`. `None` stands for `ValueError`.
- Times are integer minutes. The wall clock `datetime.now()` is a parameter. Each `Inverter.get_data` reads it afresh, so a cycle takes one reading per device (`clock[i]` for device i), and the main loop one sequence of readings per cycle (`nows[c]`).
- The telemetry file is a `seq<string>` of lines.
- Exceptions are `Err` values of `Inverters.Error`:
  - `WrongTokenCount` is the `TypeError` of the ten-token check;
  - `NotNumeric` is the `ValueError` of `float`;
  - `NoRawData` is the `AttributeError` on a missing `_raw_data`;
  - `NotADevice` is the `TypeError` of `init_device`.
- A cycle is specified by `PollResults`: the result each device gives, in registration order.
  - A plain `Inverter` does not change, so it is a value.
  - A `FakeInverter` is an object. If it is registered twice, its second poll in a cycle sees the state its first poll left. `Occ` counts the earlier registrations.
- The calls a cycle makes on its session are `CycleCalls` of those results.
- `lstrip("(")` and `rstrip(")")` remove whole runs of parentheses, not just one (src/device.py:88).
- Reading past the end of the telemetry file gives the empty frame `""` (src/device.py:116-117). It is rejected as a frame of zero tokens, the `TypeError` of the ten-token check (src/device.py:89-90).
- Each frame read moves the replay cursor two lines (src/device.py:119).

## Model

| member | source | states |
|---|---|---|
| Text.StripLeft | src/device.py:88 | lstrip never lengthens the text, and what remains does not start with a stripped character |
| Text.StripLeftSuffix | src/device.py:88 | lstrip removes exactly a leading run of stripped characters and keeps the rest of the text unchanged |
| Text.StripRight | src/device.py:88 | rstrip keeps a prefix, removes only stripped characters, and what remains does not end with one |
| Text.Strip | src/device.py:88 | strip() leaves no whitespace at either end |
| Text.Split | src/device.py:88 | split() on whitespace; its contract is carried by Text.SplitWords (every token is a word) and Text.SplitJoin (split inverts a single-space join) |
| Text.SplitWords | src/device.py:88 | every token split() returns is non-empty and free of whitespace |
| Text.StripLeftSkip | src/device.py:88 | a leading run of stripped characters is invisible to lstrip |
| Text.StripRightSkip | src/device.py:88 | a trailing run of stripped characters is invisible to rstrip |
| Text.BlankHasNoTokens | src/device.py:117 | a whitespace-only line strips to "" and splits into no tokens |
| Text.SplitSkipsSpace | src/device.py:88 | leading whitespace does not change the tokens |
| Text.SplitWordThenRest | src/device.py:88 | a word followed by whitespace-led text is the first token |
| Text.SplitJoin | src/device.py:88 | splitting words joined by single spaces returns exactly those words (split inverts join) |
| Inverters.ConfigFromKwargs | src/device.py:54-60 | name, model, location and port are the keyword argument when given, otherwise "Invertor", "model", "location", "COM_port" |
| Inverters.OtherKwargsIgnored | src/device.py:54-60 | keyword arguments other than the four identity keys leave the identity unchanged; no arguments give the defaults |
| Inverters.Normalize | src/device.py:88 | the normalised frame neither starts with "(" nor ends with ")" and is no longer than the raw frame |
| Inverters.NormalizeRemovesParens | src/device.py:88 | past the outer whitespace, normalisation removes only a run of "(" in front and a run of ")" behind; everything between is kept |
| Inverters.ParenRuns | src/device.py:88 | lstrip("(") then rstrip(")") on a stripped frame removes a run of "(" and a run of ")" and keeps the middle |
| Inverters.OpenRun | src/device.py:88 | lstrip("(") removes exactly a leading run of "(" |
| Inverters.CloseRun | src/device.py:88 | rstrip(")") removes exactly a trailing run of ")" |
| Inverters.Tokens | src/device.py:88 | the tokens get_data counts: the normalised frame split on whitespace; Inverters.DecodeRendered states that a rendered frame gives back its tokens |
| Inverters.ConvertAll | src/device.py:91 | map(float) succeeds iff every token converts, giving the converted values in order; otherwise it fails on the first rejected token |
| Inverters.TagsOf | src/device.py:94 | the tags are exactly {model, location} with the device's values |
| Inverters.DecodeTokensSpec | src/device.py:73-97 | a record exists iff there are ten tokens and the first nine convert. A wrong count fails with that count; a bad number fails on the first rejected token. A record has the device name, its tags, the given time, the ten field names in order, values 0..8 converted and command_bits verbatim |
| Inverters.DecodeTokens | src/device.py:89-97 | the body of get_data once the frame is split; its contract is carried by Inverters.DecodeTokensSpec |
| Inverters.Decode | src/device.py:88-97 | get_data on one frame at one time: DecodeTokens of the frame's Tokens, so Inverters.DecodeTokensSpec states its outcome |
| Inverters.InverterGetData | src/device.py:70-72 | a never-assigned _raw_data raises; a record is named after the device, tagged with model and location, and stamped with current_time when given, else the wall clock |
| Inverters.UnwrapParens | src/device.py:88 | one pair of parentheses around a clean frame is exactly what normalisation removes |
| Inverters.NormalizeRendered | src/device.py:88 | normalising a parenthesised, space-joined token list gives the joined tokens |
| Inverters.DecodeRendered | src/device.py:88-97 | a rendered frame parses back to its tokens: ten convertible tokens give exactly those fields, any other count is rejected with that count |
| Replay.ReadLine | src/device.py:116-117 | f.readline(): the line at the position and the next position, "" and no move at the end of the file; Replay.FakeInverter.NextRawFrame states what the skip-and-read loop built on it yields |
| Replay.FrameAt | src/device.py:114-118 | the stripped line at the cursor, "" past the end; Replay.FakeInverter.NextRawFrame is proved against it and Replay.NoFrameRejected states how an empty frame fails |
| Replay.Advance | src/device.py:110-119 | m get_data calls move the clock 10m minutes and the cursor 2m lines; Replay.SamplesClosedForm and Monitoring.NextCycleStart state its consequences |
| Replay.SampleOf | src/device.py:110-119 | the line and time one get_data call reads; Replay.SamplesClosedForm gives the samples of successive calls in closed form |
| Replay.SamplesClosedForm | src/device.py:110-119 | call j of k successive get_data calls reads line lineCounter + 2j and is stamped curDatetime + 10(j+1) |
| Replay.ReplayFromConstruction | src/device.py:105-107 | from construction, call j reads line 2j and is stamped now − 23 h + 10(j+1) minutes; successive stamps are exactly 10 minutes apart |
| Replay.RecordStamped | src/device.py:123-124 | a replayed record is stamped with the clock reading of its call and carries the device's name and tags |
| Replay.NoFrameRejected | src/device.py:113-119 | past the end of the file, or on a blank line, the frame is empty and rejected as a frame of zero tokens |
| Replay.FakeInverter.constructor | src/device.py:103-107 | identity from the keyword arguments, clock 23 hours before construction, cursor 0 |
| Replay.FakeInverter.ReadClock | src/device.py:110-111 | reading cur_datetime first advances it by 10 minutes and returns the new value; the cursor is unchanged |
| Replay.FakeInverter.NextRawFrame | src/device.py:113-119 | reading _raw_data yields the stripped line at the cursor ("" past the end) and advances the cursor by 2; the clock is unchanged |
| Replay.FakeInverter.GetData | src/device.py:123-124 | get_data reads the clock once and the frame once, and decodes that frame at that time |
| Sink.AddCalls | src/session.py:22-24 | adding records one by one makes one add call per record, in order |
| Sink.AddCallsSnoc | src/session.py:22-24 | one more record adds one more call at the end |
| Sink.Session.constructor | src/session.py:7-13 | a new session keeps its configuration and has an empty queue |
| Sink.Session.Add | src/session.py:22-24 | add appends the record to the queue and writes nothing |
| Sink.Session.Commit | src/session.py:27-33 | commit writes the whole queue oldest first and leaves it empty |
| Monitoring.NewInverter | src/device.py:54-60 | an Inverter takes its identity from the keyword arguments and has _raw_data only when one was passed |
| Monitoring.OccSnoc | src/monitor.py:39 | counting a device's earlier registrations one position further |
| Monitoring.ExpectedIsGetData | src/monitor.py:33 | the result of polling device i is Inverter.get_data with no current_time, or for a FakeInverter the get_data call that follows one call per earlier registration in the cycle |
| Monitoring.PollResults | src/monitor.py:39-40 | the first n devices give n results |
| Monitoring.PollPrefix | src/monitor.py:39-40 | polling fewer devices gives a prefix of the results |
| Monitoring.PollResultsAt | src/monitor.py:39-40 | result j is what device j gives |
| Monitoring.PollResultsTabulate | src/monitor.py:39-40 | the cycle's results list every device's result in registration order |
| Monitoring.Polled | src/monitor.py:39-41 | no more devices are polled than are registered |
| Monitoring.CycleCalls | src/monitor.py:39-42 | the session calls of one cycle given its results; Monitoring.CompletedCycle, Monitoring.AbortedCycle and Monitoring.CommitOnlyAtEnd state their shape |
| Monitoring.CompletedCycle | src/monitor.py:38-42 | when every device answers, each record is added once, in device order, then exactly one commit |
| Monitoring.AbortedCycle | src/monitor.py:39-42 | when device k is the first to fail, the records of devices 0..k-1 are added, device k is the last polled, and commit is never reached |
| Monitoring.CommitOnlyAtEnd | src/monitor.py:38-42 | a cycle commits iff no device failed, and only as its last call |
| Monitoring.BatchInRegistrationOrder | src/monitor.py:39-41 | record j added in a cycle comes from device j, under its name and tags |
| Monitoring.ExpectedLabelled | src/monitor.py:33 | a record a device returns carries that device's name and tags |
| Monitoring.BatchIsPrefix | src/monitor.py:39-41 | the added records are the values of the leading run of successful results |
| Monitoring.ResultSnoc | src/monitor.py:39-41 | after a run of successes, one more result is polled, and it is queued or ends the cycle |
| Monitoring.PastFirstError | src/monitor.py:39-42 | results after the first failure change nothing about the cycle |
| Monitoring.CycleShape | src/monitor.py:38-42 | a cycle's calls are its adds followed by one commit when no device failed, and its adds alone otherwise |
| Monitoring.NextCycleStart | src/monitor.py:46-47 | a completed cycle advances every replay device by its number of registrations |
| Monitoring.StatesAdvance | src/monitor.py:39-40 | polling device i moves only its own replay state, one step |
| Monitoring.PolledIsExpected | src/monitor.py:40 | what get_data returned for device i is its entry in the cycle's results |
| Monitoring.Monitor.constructor | src/monitor.py:9-17 | a new monitor has no devices and keeps its session configuration and polling delay |
| Monitoring.Monitor.Snapshot | src/monitor.py:15 | the current state of exactly the registered replay devices |
| Monitoring.Monitor.InitDevice | src/monitor.py:19-27 | a Device is appended at the end; anything else raises TypeError and leaves the registry unchanged |
| Monitoring.Monitor.GetDeviceData | src/monitor.py:29-34 | __get_device_data is the device's get_data: an Inverter's with no current_time, and a FakeInverter's, which advances it one step |
| Monitoring.Monitor.PollDevice | src/monitor.py:39-40 | polling device i gives its result in the cycle and moves its replay state, if any, one step |
| Monitoring.Monitor.PollAll | src/monitor.py:39-41 | devices are polled in order and each record is added until one fails; the queue holds exactly the records before the failure |
| Monitoring.Monitor.SendDevicesDataToDb | src/monitor.py:36-42 | a fresh session receives exactly one add per device in registration order, then one commit, or the adds before the first failure and no commit; written records are exactly that batch; each replay device advanced once per registration polled |
| Monitoring.LoopBatches | src/monitor.py:44-47 | the main loop's first n cycles write n batches |
| Monitoring.LoopBatchesAt | src/monitor.py:44-47 | batch c of the main loop is the batch of cycle c's results, polled from the states c full cycles have left, each plain Inverter stamped with its own clock reading in that cycle |
| Monitoring.Monitor.RunCycle | src/monitor.py:46-47 | one pass of the loop body: the cycle's error; with none, the records written are that cycle's batch, one per device, and every replay device has advanced one full cycle; with one, every replay device has advanced once per registration among the devices polled |
| Monitoring.Monitor.Mainloop | src/monitor.py:44-48 | cycles run back to back until one fails; the batches written are LoopBatches of the starting states, one record per device each; the failing cycle's error ends the loop, leaving every replay device advanced by the completed cycles plus once per registration among the devices the failing cycle polled; after all cycles, every replay device has advanced once per registration per cycle |

## Left out

- Floating point: `float()` is the `toFloat` parameter, and nothing is stated about rounding or about which strings it accepts.
- The wall clock: `datetime.now()` is a parameter in integer minutes, one reading per plain Inverter polled.
  - Monitoring.Monitor.GetDeviceData: `Inverter.get_data` evaluates `datetime.now()` even when `current_time` is given. The model uses the reading only as the stamp of a plain Inverter.
- The telemetry file: opening `telemetry.txt` and its I/O errors are not modelled. The file is a sequence of lines that does not change between reads.
- Python's `__getattribute__` interception: its two effects are the methods `ReadClock` and `NextRawFrame`. The `_raw_data` attribute the replay device caches in its dictionary is not kept, because every read replaces it.
- Values of keyword arguments: they are strings only. Non-string values for `name`, `model`, `location` or `port` are not modelled.
- Other keyword arguments: they may set arbitrary attributes, which the model drops. `OtherKwargsIgnored` states that they do not affect the identity.
- The store client:
  - the InfluxDB client, `Point.from_dict` and network writes are not modelled;
  - `Sink.Session` is a FIFO queue whose `written` sequence stands for the store;
  - write failures during commit are not modelled.
- `print` diagnostics are not modelled.
- `mainloop`:
  - Monitoring.Monitor.Mainloop: the infinite `while True` loop is bounded to one cycle per given sequence of wall-clock readings;
  - `time.sleep(pooling_delay)` is not modelled.
- Device kinds: other `Device` subclasses are not modelled. `init_device` accepts a plain Inverter or a FakeInverter. Any other object is `OtherObject`.
- Other members of `Device`: `Device._connect_and_read` and the abstract base class machinery are not modelled. `Inverter._connect_and_read` returns `_raw_data` and is not called on the data path.
- Inverters.InverterGetData: its contract states only the error for a missing frame and the labelling of a record. That a frame decodes is stated by `Inverters.DecodeTokensSpec` about the decoder it calls.
- src/app.py (the demo bootstrap) is not part of this model.
