# Spectrometer controller: device channels and measurement orchestrator

This project models the core of `Spectrometer_v2_PC.py`. That program is the PC-side controller of a networked
eight-channel spectral sensor. It does the following:

- it listens for the device's status lines on a TCP port (`TcpServerThread`);
- it receives telemetry datagrams over UDP (`UdpServerThread`);
- it keeps a command connection to the device with a heartbeat (`TcpClientThread`);
- it caches and records samples (`DataProcessor`);
- its main window (`SpectrometerUpperPC`) runs three-phase measurements (LED only, UV only, LED+UV) through
  `QTimer.singleShot` callbacks, alone or in a timed session.

The model has these modules:

| module | file | models |
|---|---|---|
| `Wrappers` | wrappers.dfy | `Option` and `Result` |
| `Protocol` | protocol.dfy | bytes, a JSON value type, command maps and the program's constants |
| `Ipv4` | ipv4.dfy | `is_valid_ipv4`, with Python's `str.split` written out |
| `StatusChannel` | status_channel.dfy | the line framing and dispatch of `handle_client`, and `client_disconnect` |
| `Telemetry` | telemetry.dfy | datagram acceptance and renaming, the last-data time and both silence checks |
| `CommandChannel` | command_channel.dfy | one pass of `TcpClientThread.run`, plus `send_cmd`, `send_heartbeat`, `close_socket`, `is_connected` and `stop` |
| `DataProcessing` | data_processor.dfy | `DataProcessor`: the capped cache, the recorder and the record flattening |
| `MeasurementRecords` | measurement_records.dfy | stored runs, the session CSV rows, `calculate_average_measurement` and the averaging of `update_measurement_plots` |
| `StreamControl` | stream_control.dfy | the `set_stream_interval` guard and the command that `toggle_data_stream` builds |
| `Measurement` | measurement.dfy | the orchestrator class, the packet-counter comparison and the timer countdown |

The model is built like this:

- Sockets, clocks and `json.loads` / UTF-8 decoding are inputs. They appear as a clock reading, a connect, send or
  recv outcome, and an injected `parse` function.
- Qt signals are appended to an event log. Commands handed to `send_cmd` are appended to an effect log.
- The calls into helpers that the file does not define are also entries in the effect log:
  `pause_data_stream_for_measurement`, `resume_data_stream_after_measurement` and `save_measurement_data`.
- Every `QTimer.singleShot` callback is a pending `Step`. `Measurement.Orchestrator.Fire` runs any one of them, so the
  model covers every order of firing.

Several places where the code's behaviour differs from the component's general description are modelled as the code is
written:

- Nothing refuses a start while a run is active: there is no run-generation token, and a stale callback still runs.
- `start_led_only_measurement` is defined twice, and the second definition (2493) wins. So only the LED-only phase uses
  the watermark/retry collector. The UV-only and LED+UV phases use the fixed-tick collectors from lines 1332-1425. These
  take `spectral_cache[-1]` on five ticks, taking a reading only when the cache is non-empty but always advancing the
  count.
- `measurement_state` is only ever "idle" or "led_only". The uv_only and led_uv branches of `finish_measurement_stage`
  are never reached.
- The LED-only phase turns the UV lamp off explicitly, and the UV-only phase turns the LED off explicitly.
- A run is stored as one record holding the three phase lists.
- A telemetry datagram whose `d` list has fewer than eight values raises IndexError and is not cached. It is not
  padded.
- A status line that decodes to JSON but not to an object ends the status connection.
- A cancelled run resumes the stream only when `data_stream_active` is set.
- The heartbeat timeout (10 s) is shorter than the heartbeat interval (20 s); see Findings.
- `TcpClientThread.run` never emits `client_status(False)`. The `continue` at 418 and 433 skips the block at 450-458,
  and that block reads `old_connected` only after `connected` was set to False. The window learns of a drop only
  by polling (2071-2075). `CommandChannel.CommandClient.Iteration` keeps this.
- Ticking the timer box without a connection before any session raises KeyError. `setChecked(False)` at 1131 re-enters
  the slot, and line 1169 looks up "measurements" in a session dict that lacks it. `EnableTimer` states this as
  `raised <==> session.None?`.

## Model

| member | source | states |
|---|---|---|
| Ipv4.Split | Spectrometer_v2_PC.py:40 | `str.split('.')` always yields at least one part |
| Ipv4.IsValidIpv4 | Spectrometer_v2_PC.py:39-49 | the loop returns True exactly when the split has four parts and each is all digits with value at most 255 (`ValidIpv4`) |
| Ipv4.JoinSplit | Spectrometer_v2_PC.py:40 | gluing the split parts back with the separator gives the original string |
| Ipv4.SplitPartsFree | Spectrometer_v2_PC.py:40 | no part of a split contains the separator |
| Ipv4.SplitJoin | Spectrometer_v2_PC.py:40 | splitting a join of separator-free parts gives back exactly those parts |
| Ipv4.ValidIsDottedQuad | Spectrometer_v2_PC.py:39-49 | an accepted address is the dotted join of its four parts, each an octet |
| Ipv4.DottedQuadIsValid | Spectrometer_v2_PC.py:39-49 | any four digit strings worth at most 255, joined by dots, are accepted |
| Ipv4.RejectsShortAddresses | Spectrometer_v2_PC.py:40-42 | "" and "1.2.3" are rejected |
| Ipv4.RejectsOutOfRangePart | Spectrometer_v2_PC.py:46-48 | "256.0.0.1" is rejected |
| Ipv4.AcceptsDefaultAddress | Spectrometer_v2_PC.py:39-49 | "192.168.137.1" is accepted |
| Ipv4.AcceptsLeadingZeros | Spectrometer_v2_PC.py:43-49 | leading zeros are accepted: "010.0.0.001" is valid |
| StatusChannel.FirstNewline | Spectrometer_v2_PC.py:160 | `find(b'\n')` gives an index holding a newline with none before it |
| StatusChannel.FrameUnframes | Spectrometer_v2_PC.py:158-162 | the lines cut from a buffer, each with its newline, followed by the kept tail, give back the buffer |
| StatusChannel.FrameRestIsFree | Spectrometer_v2_PC.py:159 | the tail kept after framing holds no newline |
| StatusChannel.FrameLinesAreFree | Spectrometer_v2_PC.py:160-162 | no cut line holds a newline |
| StatusChannel.UnframeIsExact | Spectrometer_v2_PC.py:158-162 | newline-free lines and a newline-free tail, joined, frame back into exactly those lines and that tail |
| StatusChannel.Classify | Spectrometer_v2_PC.py:171-177 | a decoded object raises at most one event, and none exactly when its type is not connection, status or stream_complete |
| StatusChannel.ProcessInOrder | Spectrometer_v2_PC.py:159-182 | lines are handled in order: the events of a + b are those of a then those of b |
| StatusChannel.AbortIsFinal | Spectrometer_v2_PC.py:196-199 | once a line has ended the handler, the lines after it produce nothing |
| StatusChannel.EmptyLineIsSilent | Spectrometer_v2_PC.py:164 | an empty line produces no event |
| StatusChannel.BufferHasNoNewline | Spectrometer_v2_PC.py:158-162 | after a pass, the buffer holds no newline, and consumed lines plus buffer equal old buffer plus data |
| StatusChannel.StatusServer.ClientDisconnect | Spectrometer_v2_PC.py:207-217 | the client is forgotten and the buffer emptied when a client was present; otherwise nothing changes |
| StatusChannel.StatusServer.OnRecv | Spectrometer_v2_PC.py:151-162 | empty data drops the client without an event; otherwise the new buffer is the framing tail of old buffer plus data, and the events are those of the cut lines in order |
| StatusChannel.StatusServer.ConsumeLines | Spectrometer_v2_PC.py:159-182 | the inner loop handles exactly the framed lines of the buffer in order; a line that ends the handler drops the client |
| StatusChannel.StatusServer.DispatchLine | Spectrometer_v2_PC.py:164-182 | one line yields the events of `LineEvents`, and aborts exactly when it decodes to a non-object |
| StatusChannel.StatusServer.Stop | Spectrometer_v2_PC.py:222-225 | running cleared, client dropped |
| Telemetry.AcceptObject | Spectrometer_v2_PC.py:276-288 | an object is forwarded, and the last-data time refreshed, iff it has t, d and c; the forwarded record has c, t, d and sc (0 when absent) |
| Telemetry.AcceptScalarHalts | Spectrometer_v2_PC.py:276-306 | a number, boolean or null datagram raises TypeError in the key test (276) and ends the receive loop (301-306) |
| Telemetry.AcceptListWithKeyNames | Spectrometer_v2_PC.py:276-306 | a list holding "t", "d" and "c" refreshes the last-data time, then raises on the key lookup and ends the loop |
| Telemetry.ForwardedFlattens | Spectrometer_v2_PC.py:278-285 | a forwarded datagram with eight readings flattens in the cache with its counter, timestamp and stream count kept |
| Telemetry.PeriodicCheckReinforces | Spectrometer_v2_PC.py:297-331 | the 5 s periodic check (331) reports down whenever the 10 s check does; a datagram just received silences both |
| Telemetry.UdpReceiver.OnDatagram | Spectrometer_v2_PC.py:267-306 | empty datagrams are skipped; undecodable ones report a parse error; decoded ones are forwarded, ignored or end the loop according to `Accept`, with the last-data time refreshed accordingly |
| Telemetry.UdpReceiver.OnReceiveTimeout | Spectrometer_v2_PC.py:295-299 | the stream is reported down exactly when more than 10 s have passed |
| Telemetry.UdpReceiver.CheckDataStatus | Spectrometer_v2_PC.py:327-333 | while running, the stream is reported down exactly when more than 5 s have passed |
| CommandChannel.HeartbeatPreventsTimeout | Spectrometer_v2_PC.py:406-418 | a heartbeat written in a pass resets the reference time, so that pass cannot time out |
| CommandChannel.SilenceTimesOut | Spectrometer_v2_PC.py:414-418 | without a heartbeat, the pass times out iff the silence exceeds the timeout |
| CommandChannel.FailedHeartbeatTimesOut | Spectrometer_v2_PC.py:407-418 | with the constants as written (interval 20 at line 20, timeout 10 at line 367), a heartbeat that fails to go out is always followed by a timeout in the same pass |
| CommandChannel.DropBeforeBeat | Spectrometer_v2_PC.py:407-418 | as written (interval 20 at line 20, timeout 10 at line 367), on a clock that advances less than 10 s per pass, the link is dropped before any heartbeat is due |
| CommandChannel.DropsAfterFifteenSeconds | Spectrometer_v2_PC.py:407-418 | passes at 0, 8 and 15 s after a heartbeat drop the link at 15 s |
| CommandChannel.BeatBeforeDrop | Spectrometer_v2_PC.py:407-418 | with a timeout longer than the interval, a heartbeat always comes before a drop |
| CommandChannel.CommandClient.CloseSocket | Spectrometer_v2_PC.py:463-475 | the socket is dropped and the link marked down in every case |
| CommandChannel.CommandClient.SendHeartbeat | Spectrometer_v2_PC.py:477-489 | a heartbeat is written iff connected, the socket exists and the write succeeds; a failed write drops the link |
| CommandChannel.CommandClient.SendCmd | Spectrometer_v2_PC.py:491-508 | the command is written iff running, connected and the write succeeds; otherwise an error event, and a failed write drops the link |
| CommandChannel.CommandClient.IsConnected | Spectrometer_v2_PC.py:517-519 | true iff running, connected and holding a socket |
| CommandChannel.CommandClient.Stop | Spectrometer_v2_PC.py:510-513 | not running, no socket, not connected |
| CommandChannel.CommandClient.Iteration | Spectrometer_v2_PC.py:374-458 | one pass: a failed connect counts an attempt and closes the socket; a new link resets the count and the heartbeat time; a live link takes the heartbeat decision, then the timeout decision (`HeartbeatPhase`), then one recv |
| DataProcessing.Item | Spectrometer_v2_PC.py:563-564 | indexing a list succeeds exactly below its length and gives that element |
| DataProcessing.FirstFault | Spectrometer_v2_PC.py:563-564 | no fault exactly when all of data[0..n-1] can be read |
| DataProcessing.FlattenList | Spectrometer_v2_PC.py:553-565 | a data list of at least eight values always flattens, keeping the first eight |
| DataProcessing.FlattenShortList | Spectrometer_v2_PC.py:555-581 | a data list shorter than eight raises IndexError, which the handler at 578-581 catches before the cache is touched |
| DataProcessing.CacheAppend | Spectrometer_v2_PC.py:567-570 | the new sample is last, the length grows by one up to the 1000 cap and stays at most 1000 |
| DataProcessing.Feed | Spectrometer_v2_PC.py:567-570 | the cache never exceeds 1000 samples |
| DataProcessing.FeedKeepsNewest | Spectrometer_v2_PC.py:567-570 | after any run of arrivals, the cache holds the newest min(N, 1000) samples in arrival order |
| DataProcessing.FeedFromEmpty | Spectrometer_v2_PC.py:567-570 | from empty, N arrivals leave min(N, 1000) samples, the most recent ones |
| DataProcessing.DataProcessor.GetCacheCount | Spectrometer_v2_PC.py:529-531 | the cache length |
| DataProcessing.DataProcessor.GetRecordCount | Spectrometer_v2_PC.py:533-535 | the recording length |
| DataProcessing.DataProcessor.ClearCacheData | Spectrometer_v2_PC.py:537-540 | the cache is emptied and True returned |
| DataProcessing.DataProcessor.ClearRecordData | Spectrometer_v2_PC.py:542-547 | the recording is emptied and True returned exactly when not recording; otherwise nothing changes |
| DataProcessing.DataProcessor.ParseSpectralData | Spectrometer_v2_PC.py:549-581 | on success the record goes last in the capped cache and, iff recording, onto the recording; on an exception nothing changes |
| DataProcessing.DataProcessor.StartRecord | Spectrometer_v2_PC.py:583-589 | recording on, recording emptied, stream-complete flag cleared |
| DataProcessing.DataProcessor.StopRecord | Spectrometer_v2_PC.py:591-596 | recording off, returns the list and its length |
| DataProcessing.DataProcessor.MarkStreamComplete | Spectrometer_v2_PC.py:627-629 | the stream-complete flag is set |
| DataProcessing.RecordRun | Spectrometer_v2_PC.py:549-596 | start, a run of datagrams, stop: the list returned is exactly the records parsed meanwhile, in order |
| MeasurementRecords.PhaseRows | Spectrometer_v2_PC.py:1461-1470 | one row per reading, numbered by position, with the run index, the type label and the reading's channels |
| MeasurementRecords.SessionRowCount | Spectrometer_v2_PC.py:1459-1494 | the file has exactly one row per stored reading |
| MeasurementRecords.SessionRowsAppend | Spectrometer_v2_PC.py:1459-1494 | the rows of runs a + b are the rows of a followed by those of b, so a rewrite keeps earlier rows first and unchanged |
| MeasurementRecords.RunRowsByPhase | Spectrometer_v2_PC.py:1459-1494 | within a run, the LED Only rows come first, then UV Only, then LED+UV, each carrying its reading's channels in order |
| MeasurementRecords.AverageOf | Spectrometer_v2_PC.py:1543-1557 | a computed average has eight channel means |
| MeasurementRecords.CalculateAverage | Spectrometer_v2_PC.py:1543-1557 | the nested summing loops give None for an empty list, TypeError at a non-numeric channel, else sum/len per channel (`AverageOf`) |
| MeasurementRecords.AverageOfConstant | Spectrometer_v2_PC.py:1543-1557 | identical readings average to that reading, channel by channel |
| MeasurementRecords.PlotsFailSomewhere | Spectrometer_v2_PC.py:1524-1536 | the plot update raises iff some stored run has a phase whose average raises |
| MeasurementRecords.NumericRunsPlot | Spectrometer_v2_PC.py:1524-1536 | runs whose readings are all numeric never make the plot update raise |
| MeasurementRecords.MeasurementAverages | Spectrometer_v2_PC.py:1514-1541 | fails iff `PlotsFail`; otherwise returns, per phase, one average per run whose list of that phase is non-empty |
| StreamControl.IntervalGuard | Spectrometer_v2_PC.py:2273-2285 | a request is sent iff connected and the interval is at least 400, and it holds only that interval; a smaller value resets the spin box to 400 |
| StreamControl.SentIntervalIsAllowed | Spectrometer_v2_PC.py:2279-2285 | every command the window sends either carries no `streamInterval` or carries one of at least 400: set_stream_interval checks the value (2279-2282), the stream-on request of toggle_data_stream takes it from a spin box whose range starts at 400 (951, 2144), and the lamp, pause, status-query, heartbeat and stream-off commands carry none |
| StreamControl.StreamOnShape | Spectrometer_v2_PC.py:2140-2148 | the stream-on request asks for a paused stream with the mode and interval, and carries streamCount iff the mode is fixed |
| Measurement.GreaterIsStrict | Spectrometer_v2_PC.py:2530 | a packet counter is never greater than itself |
| Measurement.Sampled | Spectrometer_v2_PC.py:1336-1341 | a fixed-tick collector takes at most one reading, present iff the cache is non-empty: the newest record tagged with phase and index |
| Measurement.FinishLedOnly | Spectrometer_v2_PC.py:2565-2574 | the LED-only finish always sends LED off first; a timeout with nothing collected cancels (both lamps off, idle, nothing scheduled); otherwise UV-only follows, timeout or not |
| Measurement.KeepsLedCollectors | Spectrometer_v2_PC.py:2548-2558 | adding at most one LED-only collector keeps every pending collector an LED-only one |
| Measurement.StatusQueryThrottled | Spectrometer_v2_PC.py:2078-2088 | never a status query during a run, and none within ten seconds of the last |
| Measurement.NoStartBefore | Spectrometer_v2_PC.py:1208-1213 | no start is attempted before the countdown reaches zero |
| Measurement.StartAtZero | Spectrometer_v2_PC.py:1208-1213 | at zero a start is attempted and the countdown restarts from the interval |
| Measurement.StartsPerInterval | Spectrometer_v2_PC.py:1208-1213 | from a full countdown, k whole intervals hold exactly k attempted starts (each refused or not by `StartSingleMeasurement`) |
| Measurement.CountdownStartsEveryInterval | Spectrometer_v2_PC.py:1149-1213 | from the enabled state (countdown 0 at 1149), the first tick attempts a start and then one is attempted every interval: k intervals plus j seconds hold k + 1 attempts |
| Measurement.Orchestrator.constructor | Spectrometer_v2_PC.py:633-719 | idle, empty lists, an empty session dict (no "measurements" key), a timer duration of 30 and an interval of 300 as initialised |
| Measurement.Orchestrator.StartSingleMeasurement | Spectrometer_v2_PC.py:1234-1264 | starts iff the client is connected and the stream is on and not paused; then led_only, count 0, lists emptied, both lamps off, LED-only in 1 s; otherwise nothing changes |
| Measurement.Orchestrator.StartMeasurementSequence | Spectrometer_v2_PC.py:2469-2491 | no guard: the same reset, the starting counter noted, lamps off, stream paused, LED-only in 1 s |
| Measurement.Orchestrator.StartInstantMeasurement | Spectrometer_v2_PC.py:1222-1232 | starts iff connected and the stream was heard within 5 s or the user agrees (the pre-check at 1954-1962); nothing refuses a start while a run is active |
| Measurement.Orchestrator.StartLedOnlyMeasurement | Spectrometer_v2_PC.py:2493-2504 | count 0, LED on and UV off, collection begins in 1 s |
| Measurement.Orchestrator.BeginLedOnlyCollection | Spectrometer_v2_PC.py:2506-2518 | the LED-only list emptied and the newest counter taken as watermark, so the first call always waits (retry 1 in 500 ms) unless the counter cannot be compared |
| Measurement.Orchestrator.CollectMeasurementData | Spectrometer_v2_PC.py:2520-2561 | a reading is taken iff the newest counter exceeds the watermark (tagged, count up, next watermark that counter, retry 0, or the stage finished at five); otherwise a retry with the same watermark while fewer than ten, then a timeout; an incomparable counter raises |
| Measurement.Orchestrator.TakeReading | Spectrometer_v2_PC.py:2530-2552 | the new reading goes onto its phase's list only, and the count goes up; the next call is scheduled, or the stage finishes at five |
| Measurement.Orchestrator.RetryOrTimeOut | Spectrometer_v2_PC.py:2553-2561 | a retry with the same watermark while retry < 10, else the stage finishes with a timeout |
| Measurement.Orchestrator.FinishMeasurementStage | Spectrometer_v2_PC.py:2563-2615 | the phase's lamps off; a timeout with an empty list cancels; otherwise the next phase is scheduled, or, after LED+UV, saved, resumed and idle (`FinishEffects`/`FinishNext`/`FinishStage`) |
| Measurement.Orchestrator.CancelMeasurementSequence | Spectrometer_v2_PC.py:2617-2631 | both lamps off, the stream resumed if on, idle; no run is stored |
| Measurement.Orchestrator.StartUvOnlyMeasurement | Spectrometer_v2_PC.py:1313-1325 | count 0, UV-only list emptied, UV on and LED off, collection in 1 s |
| Measurement.Orchestrator.StartUvOnlyCollection | Spectrometer_v2_PC.py:1327-1330 | the count reset, then the first tick: one reading if the cache is non-empty, next tick in 500 ms |
| Measurement.Orchestrator.CollectUvOnlyData | Spectrometer_v2_PC.py:1332-1357 | below five ticks, the newest record is taken if any and the count always advances; the fifth tick sends UV off and schedules LED+UV; past five, only UV off |
| Measurement.Orchestrator.StartLedUvMeasurement | Spectrometer_v2_PC.py:1359-1371 | count 0, LED+UV list emptied, both lamps on, collection in 1 s |
| Measurement.Orchestrator.StartLedUvCollection | Spectrometer_v2_PC.py:1373-1376 | the count reset, then the first tick |
| Measurement.Orchestrator.CollectLedUvData | Spectrometer_v2_PC.py:1378-1425 | below five ticks as for UV only; the fifth tick completes the run (`RunStored`); past five, only both lamps off |
| Measurement.Orchestrator.CompleteRun | Spectrometer_v2_PC.py:1398-1413 | both lamps off; the run stored and the file rewritten unless KeyError; the averages plotted unless TypeError; then idle and the group number advanced; an exception leaves state and group as they were |
| Measurement.Orchestrator.SaveSingleMeasurement | Spectrometer_v2_PC.py:1427-1440 | KeyError iff the session has no "measurements" key; otherwise the run is appended under the group number and the file rewritten with the rows of all runs |
| Measurement.Orchestrator.Fire | Spectrometer_v2_PC.py:2548-2558 | running any pending callback (scheduled at 1264, 1325, 1353, 1371, 2491, 2504, 2548-2558 and 2574) keeps the others pending, adds at most one, and only LED-only collectors are ever pending, so no uv_only or led_uv collector ever runs |
| Measurement.Orchestrator.ToggleDataStream | Spectrometer_v2_PC.py:2132-2180 | when connected, sends stream off if on, else the stream-on request with the spin-box interval (400 to 5000, line 951); the flags flip (on means paused) only when the send succeeds; no command it sends carries an interval below 400 |
| Measurement.Orchestrator.ToggleStreamPause | Spectrometer_v2_PC.py:2225-2240 | only with the stream on and the client connected; sends the negated pause flag, which is adopted only when the send succeeds |
| Measurement.Orchestrator.CheckDeviceConnection | Spectrometer_v2_PC.py:2065-2088 | a status query is sent and its time noted iff the device is known and `ShouldQueryStatus` holds |
| Measurement.Orchestrator.DisableTimer | Spectrometer_v2_PC.py:1159-1172 | timer and session off; KeyError iff no "measurements" key; the file is written iff there are stored runs |
| Measurement.Orchestrator.EnableTimer | Spectrometer_v2_PC.py:1128-1151 | without a connected client the box is unticked, which disables at once: flags off, KeyError iff no "measurements" key, the session file rewritten iff the previous session holds runs (1159-1170), session, group, countdown and timer settings unchanged; otherwise a fresh session with no runs, group 0, and interval and duration in seconds, with the countdown at 0 |
| Measurement.Orchestrator.SetTimerInterval | Spectrometer_v2_PC.py:1180-1183 | the interval changes only while the timer is enabled |
| Measurement.Orchestrator.SetTimerDuration | Spectrometer_v2_PC.py:1174-1177 | the duration changes only while the timer is enabled |
| Measurement.Orchestrator.TimerTick | Spectrometer_v2_PC.py:1185-1220 | disabled: nothing changes; duration reached (1202-1206): the disabling branch runs (flags off, KeyError iff no "measurements" key, the session file written iff runs are stored) and the run state is untouched; otherwise the countdown follows `CountdownTick`, a start is attempted exactly when it reaches zero, and that attempt has the outcome of `StartSingleMeasurement`: started iff connected with the stream on and not paused, then the reset and the LED-only phase, else nothing changes |

## Left out

- Ipv4.IsValidIpv4: `str.isdigit` is modelled as ASCII digits only. Python also accepts other Unicode digits, and
  `int()` then raises ValueError on some of them, such as superscripts; the model does not cover those characters.
- `sample_data/process.py` is not part of this model. It is an offline plotting script made only of floating-point
  numerics and file handling.
- The Qt user interface: labels, message boxes, plotting, `update_device_info_ui` and `enable_all_controls`.
- `update_single_measurement_plot`: only its input is modelled, as the `Plot` effect.
- Sockets, `QThread`, `threading.Timer` and `time.sleep` are not modelled. Their outcomes and the clock are parameters.
  Concurrency between the worker threads is not modelled: each channel is a sequential state machine, and the window
  receives their events in order.
- `json.loads` and `json.dumps`, UTF-8 decoding and `strip()` are not modelled. Decoding is the injected function
  `parse`, and a command is kept as a map, not as text.
- JSON numbers are integers only; floats are not modelled. The per-channel mean is a `real` quotient of integers.
- File writing and dialogs are not modelled. The session file is the `WriteSessionFile(rows)` effect, and `save_to_csv`
  is not modelled.
- `measurement_time` is not modelled, and neither is any other `datetime.now()` string (the file name, the session
  start).
- Measurement.Greater: Python's comparison of two lists, two objects or mixed types is modelled as a TypeError. Lists
  and objects compare as unorderable, which is what Python does for dicts but not for lists.
- `collect_led_only_data` (1266-1310) is not modelled: it is overridden by the later definition and never called.
- `pause_data_stream_for_measurement`, `resume_data_stream_after_measurement` and `save_measurement_data` are
  not defined in the file. They are opaque effects.
- `reconnect_client` and `manual_connection_enabled` are not modelled, because `manual_connection_enabled` is not
  defined in the file.
- Measurement.Orchestrator.CheckDeviceConnection: the synchronisation through `on_cmd_client_status_change` (2071-2075)
  is not modelled. The client state is a parameter.
- `set_stream_mode`, `set_stream_count` and `reset_stream_count` are not modelled. Only the stream mode and target count
  they set are modelled, as parameters.
- Measurement.Orchestrator.TimerTick: the progress percentage (1196-1200) is display only and is not modelled.
- What follows an exception that escapes a Qt slot or a `QTimer.singleShot` callback is PyQt's unhandled-exception
  policy, not this file's: the file installs no `sys.excepthook`, and from PyQt 5.5 on the default is to abort the
  application. This covers the KeyError of 1437 and 1169 (also reached through `setChecked(False)` at 1131 and 1204),
  the TypeError of 1552 and the TypeError or IndexError of 2530-2532. A `raised` result only records that the slot
  stopped at that point. `Measurement.Orchestrator.Fire` goes on running other callbacks after a raise, which
  over-approximates a process that aborts.
- Re-entrancy through modal dialogs is not modelled. `QMessageBox` runs a nested event loop, so the one-second timer
  slot can run again while a tick is suspended in a warning. For example, a refused start warns at 1237, 1244 or 1248
  before the countdown is reset at 1213. Each `TimerTick` is atomic in the model.
- A `tcp_client` of None is not modelled. Every orchestrator method assumes the window has one.
- The device-session fields that status events update are not modelled.

## Findings

| source | as written | input that shows it | evidently intended | confidence | as-written member | corrected member |
|---|---|---|---|---|---|---|
| Spectrometer_v2_PC.py:407-418 | the heartbeat interval is 20 s (line 20) and the heartbeat timeout is 10 s (line 367), so the timeout check of line 415 fires before a heartbeat is ever due | passes at 0, 8 and 15 s after a heartbeat: at 15 s no heartbeat is due (15 < 20), but 15 > 10 drops the link, and this repeats after every reconnect | the timeout is longer than the interval, so that a live link keeps sending heartbeats and is never dropped for silence | not executed | CommandChannel.DropBeforeBeat | CommandChannel.BeatBeforeDrop |
