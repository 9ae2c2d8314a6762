# Telemetry frame engine of the ETS/ATS ROS 2 plugin, in Dafny

The plugin receives per-channel value updates and frame/pause events from
the truck simulator's telemetry SDK. It gathers them into one snapshot
(`telemetry_state_t`). It keeps a continuous output clock across timer
restarts. At every unpaused frame end it writes a log record and publishes
an odometry message. This project models that engine as an immutable state
(`Session.Engine`) and one pure step function per host callback, which
returns the new state and the outputs in order (`Sink.Output`: log lines,
data records, publish calls, executor spins).

Modules, following the source:

- `Unsigned64`: `scs_timestamp_t`, with explicit wrap-around `Add` and `Sub` modulo 2^64 and the `(u64)-1` sentinel.
- `Values`: `scs_value_t` and its payloads. Floats and doubles are `real`.
- `TelemetryState`: the snapshot record, plus a field-by-field view (`Get`, `AgreeExcept`) used to say which members an operation writes.
- `Channels`: the `telemetry_store_*` callbacks. The `Update` datatype covers the registrations.
- `Session`: the globals, the reset at the end of `scs_telemetry_init`, `telemetry_pause` and the header effect of `telemetry_configuration`.
- `Timestamps`: `telemetry_frame_start` and the clock-continuity lemmas.
- `Sink`: the data record as typed columns with a decoder, the odometry message, and output counting.
- `Emission`: `telemetry_frame_end`.
- `Host`: event dispatch, runs of events, and the run-level properties.

Points of the code the model keeps exactly:

- The timer-restart test (`ets_plugin/src/telemetry.cpp:155`) is independent of the "first frame" sentinel test (line 148). A restart on the very first frame therefore advances the clock by the full raw value.
- `print_header` is set on every pause or start event (line 234), whether or not the paused state changes.
- The telescoping sum holds modulo 2^64, and only while no raw value except the last equals 2^64 − 1: line 162 stores such a value, which equals the `(u64)-1` sentinel, so the next frame counts as a first frame (`SentinelRawRestartsContinuity`).
- The data line's parking-brake column is written with `%f` from a `bool` (lines 194 and 209), so its text is undefined; see "## Findings". The rest of the model uses the evidently intended `%d` column.

## Model

| member | source | states |
|---|---|---|
| TelemetryState.Zero | ets_plugin/src/telemetry.cpp:539 | every member of the cleared record is zero: clocks 0, flags false, numbers 0, vectors and placement all-zero |
| TelemetryState.ZeroIsUnique | ets_plugin/src/telemetry.cpp:539 | any record whose every member is zero is the cleared record, so the reset state is fully determined |
| Session.Init | ets_plugin/src/telemetry.cpp:539-545 | after init the record is all-zero, a header is owed, the last timestamp is the (u64)-1 sentinel and output is paused |
| Session.Pause | ets_plugin/src/telemetry.cpp:225-235 | output is paused exactly when the event is the pause event; the header is owed after every such event; snapshot and last timestamp are untouched; one paused/unpaused line is logged |
| Session.PauseForgetsFlags | ets_plugin/src/telemetry.cpp:227-234 | repeating a gate event changes nothing and the later of two gate events decides the state, whatever the flags were before |
| Session.Configuration | ets_plugin/src/telemetry.cpp:341 | the configuration event re-arms the header and changes neither the snapshot, the clock nor the paused state |
| Values.Scale360 | ets_plugin/src/telemetry.cpp:362-364 | turns in [-0.5, 0.5) become degrees in [-180, 180) |
| Channels.StoreOrientation | ets_plugin/src/telemetry.cpp:346-365 | no value: only the availability flag changes, to false, and the old angles stay; a value: flag true and each angle 360 times the delivered one, nothing else changed |
| Channels.StoreFloat | ets_plugin/src/telemetry.cpp:367-376 | needs a present float value; the target member (speed or rpm) holds it afterwards and every other member is unchanged |
| Channels.StoreS32 | ets_plugin/src/telemetry.cpp:378-387 | needs a present s32 value; gear holds it afterwards and every other member is unchanged |
| Channels.StoreBool | ets_plugin/src/telemetry.cpp:389-398 | needs a present bool value; the target flag holds it afterwards and every other member is unchanged |
| Channels.StoreDPlacement | ets_plugin/src/telemetry.cpp:400-407 | needs a present dplacement value; the placement is replaced whole (orientation still in turns) and every other member is unchanged |
| Channels.StoreFVector | ets_plugin/src/telemetry.cpp:409-423 | no value zeroes all three acceleration components; a value is copied verbatim; only the acceleration changes |
| Channels.Apply | ets_plugin/src/telemetry.cpp:523-531 | an update delivered as registered changes only the members it writes, and never the output clock or the raw paused clock |
| Channels.UpdatesCommute | ets_plugin/src/telemetry.cpp:346-423 | two updates to disjoint members give the same snapshot in either order, so delivery order between channels does not matter |
| Channels.LaterUpdateOverrides | ets_plugin/src/telemetry.cpp:346-423 | an update that writes every member an earlier one wrote hides the earlier one completely |
| Timestamps.FrameStart | ets_plugin/src/telemetry.cpp:138-169 | the raw clocks are copied and last_timestamp becomes the raw paused time; first frame without restart: the clock stays put; restart: the clock moves by exactly the raw value, whatever came before; otherwise it moves exactly as far as the raw clock did, modulo 2^64; nothing else changes |
| Timestamps.SteadyRunTelescopes | ets_plugin/src/telemetry.cpp:159-162 | over frame-starts without restart, the output clock advances by (last raw − raw before the run) mod 2^64 and last_timestamp ends at the last raw value |
| Timestamps.SessionClockTelescopes | ets_plugin/src/telemetry.cpp:145-162 | from the sentinel, a steady run advances the output clock by (last raw − first raw) mod 2^64 |
| Timestamps.SentinelRawRestartsContinuity | ets_plugin/src/telemetry.cpp:148-162 | a raw paused time of 2^64 − 1 is stored as the sentinel, and the next frame without restart leaves the clock unchanged however far the raw clock moved |
| Sink.DecodeEncode | ets_plugin/src/telemetry.cpp:186-210 | reading back a written data record gives exactly the values written |
| Sink.EncodeDecode | ets_plugin/src/telemetry.cpp:186-210 | every column sequence the reader accepts is the record of what it returns |
| Sink.Record | ets_plugin/src/telemetry.cpp:186-210 | a data record has 22 columns, and its three orientation columns are `---` exactly when orientation is unavailable (parking brake in the intended `%d` form) |
| Sink.RecordAsWritten | ets_plugin/src/telemetry.cpp:193-210 | the line as the format string writes it: the first 21 columns as in the record, the last one (parking brake under `%f`) undefined |
| Sink.ParkingBrakeLostAsWritten | ets_plugin/src/telemetry.cpp:194-209 | as written, snapshots differing only in the parking brake give the same line and the line does not read back; the intended line tells them apart |
| Sink.RecordReadsBack | ets_plugin/src/telemetry.cpp:186-210 | the record of a snapshot reads back as that snapshot, with the angles hidden exactly when orientation is unavailable |
| Sink.OdometryOf | ets_plugin/src/telemetry.cpp:213-219 | the placement angles are published in degrees: an orientation in [-0.5, 0.5) turns is published within [-180, 180) |
| Sink.OdometryDeterminesPublished | ets_plugin/src/telemetry.cpp:213-219 | two snapshots publish the same message if and only if they agree on speed, acceleration, rpm, gear, engine, trailer, placement and parking brake; clocks and the euler-channel angles are not published |
| Sink.RecordAgreesWithOdometry | ets_plugin/src/telemetry.cpp:193-219 | the publish arguments equal the record's columns in the order speed, acc x/y/z, rpm, gear, engine, trailer, position x/y/z, parking brake; the placement angles are published as 360 times the record's native-unit columns |
| Emission.FrameEnd | ets_plugin/src/telemetry.cpp:171-223 | paused: no state change and no output; live: the header first if and only if owed, and no header is owed afterwards; then the data record, "about to publish", one publish of the snapshot, "about to spin", one spin, "spinned" |
| Emission.FrameEndCounts | ets_plugin/src/telemetry.cpp:173-222 | one frame-end writes a header only when live and owed, and exactly one record, publish and spin when live, none when paused |
| Host.Step | ets_plugin/src/telemetry.cpp:498-531 | only gate events move the paused flag, only frame-starts move last_timestamp, only frame-ends, gate and configuration events emit or clear the header, and channel updates write only their own members |
| Host.PausedRunIsSilent | ets_plugin/src/telemetry.cpp:173-175 | while paused, any run of frame-starts, frame-ends and channel updates emits nothing and leaves the paused and header flags as they were |
| Host.LiveRunWritesHeaderOnce | ets_plugin/src/telemetry.cpp:179-182 | while live with no gate or configuration event, the header is written once if owed and there is a frame-end, else never; records, publishes and spins equal the number of frame-ends |
| Host.ResumeRewritesHeader | ets_plugin/src/telemetry.cpp:225-235 | after a start event, a run that contains a frame-end writes the header exactly once |
| Host.ConfigurationRewritesHeader | ets_plugin/src/telemetry.cpp:341 | while live, after a configuration event a run that contains a frame-end writes the header exactly once |
| Host.OrientationDropoutAndRecovery | ets_plugin/src/telemetry.cpp:354-364 | after "no value" the next record shows `---;---;---`; after a later value it shows the new angles in degrees |
| Host.AccelerationDropoutShowsZero | ets_plugin/src/telemetry.cpp:414-422 | after "no value" on acceleration, the next record shows 0 for all three components whatever was stored before |
| Host.ExampleSession | ets_plugin/src/telemetry.cpp:171-222 | init, start, speed 10, gear 3, engine on, first frame at raw 1000, frame end: the log shows the unpause line, the header, then the frame's report |
| Host.ExampleRecord | ets_plugin/src/telemetry.cpp:186-210 | that report's record starts 0;5;7;1000;---;---;---;10 and has gear 3 and engine 1; the publish carries speed 10 and gear 3 |

## Left out

- Log file handling (`init_log`, `finish_log`, `log_print`, `log_line`): the file I/O is not modelled. The log is the sequence of `Output` tokens. Init only succeeds with the file open, so the "no log file" early returns never apply while the engine runs.
- Text rendering of records: a data record is modelled as typed columns (`%llu` for the clocks, `%f` for the floats and doubles, `%d` for the gear and the engine and trailer flags, `---`). The decimal text and `%f` formatting are not modelled. The parking-brake column is discussed under "## Findings".
- Floating point: floats and doubles are `real`, and the ×360 conversion is exact. Rounding is not modelled; no property here depends on it.
- ROS 2: `rclcpp::init`, creating the publisher, the internals of `sendOdometry` and `spin_some` are foreign calls. They appear only as the `Publish` and `SpinSome` outputs.
- `scs_telemetry_init` before its reset tail: version checks, game-id and game-version warnings, event and channel registration, and the lines "Log opened", "publisher created" and "Game …". These are host glue. The channel-to-member binding from registration is kept as the `Update` targets.
- The attribute listing of `telemetry_configuration`: pure logging. It is the single opaque `ConfigurationListing(id)` output; only its header effect is modelled.
- `scs_telemetry_shutdown` and the `unload` destructor: process teardown.
- Frame-start flags: of the flags word only the timer-restart bit is modelled, as a boolean; the SDK header that defines its value is not part of this model. Other fields of the frame-start info are never read by the handler.
- The `assert(context)` checks: a context pointer is always one of the registered members here, so they cannot fail. The value-presence and type-tag asserts are modelled as preconditions (`Channels.Deliverable`).

## Findings

| source | as written | input that shows it | evidently intended | confidence | as-written member | corrected member |
|---|---|---|---|---|---|---|
| ets_plugin/src/telemetry.cpp:194-209 | the last conversion of the data line's format string is `%f`, and its argument is the `bool` `telemetry.parking_brake`, promoted to `int`: undefined behaviour, and the column does not show the flag | any snapshot: parking brake true and false give the same undefined last column | `%d`, writing 0 or 1 like the engine and trailer flags, so the line reads back as the snapshot | high (not executed) | Sink.ParkingBrakeLostAsWritten | Sink.RecordReadsBack |
