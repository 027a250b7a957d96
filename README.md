# prodaktiv — a Dafny model of the focus planner's core

prodaktiv is a single-day focus planner. The day is a log: planned tasks with
dependencies, a score sheet, a session phase with its timer, and a journal of
entries. A BLE desk device ("LIN34R") can run the timer, hold the phone, and
report dial turns, button presses and voice-capture events.

This project models the core of that program and proves properties of the
model:

- the binary device protocol: command frames with a wrapping sequence
  counter; event, state, battery, timer and voice decoding; enum names
  (`device_protocol.dfy`);
- the Bluetooth service: the device-state record, its notification handlers,
  the device commands, the connect, setup and subscribe chain, and the
  reconnection supervisor with its five-attempt limit (`bluetooth.dfy`);
- the session reducer: the phase transition table, the per-phase durations and
  the clock formatting (`session.dfy`);
- the timer worker and the timer hook that mirrors it (`timer_worker.dfy`,
  `use_timer.dfy`);
- the device hook, which mirrors the service's state into the UI and wraps
  its commands (`use_device.dfy`);
- the shell's day-log store: merging updates, the session-end rule, the score,
  the day reset, the minimum-viable-day toggles, and migration of a saved day
  (`app.dfy`);
- the planner: task lookup, the dependency-cycle check used when tasks are
  linked, removal, import from the issue tracker, manual tasks, drag-and-drop
  reordering, and starting a session (`planner.dfy`);
- the "now" rail: completing tasks, choosing the active task, the journal,
  the timer button, the timer's completion and the chat box (`now_rail.dfy`);
- the issue picker: paging, filters, the in-flight guard and the selection
  (`linear_picker.dfy`);
- the score sheet's toggles (`scoreboard.dfy`);
- the shared records and their initial values (`types.dfy`).

`wrappers.dfy` holds `Option` and `Result`. `js_text.dfy` models the
JavaScript text and number behaviour the code depends on: number-to-string,
`padStart`, `trim`, `includes`, and truncating `%` and `Math.floor`, plus a
reader for clock texts with which the clock formats are shown to read back.

Where the program mutates a module-level object or a React store, the model
uses a `class` whose methods state their new state as a pure function of the
old one (`Snapshot() == XSpec(old(Snapshot()), …)`). The properties the
program promises are lemmas about those functions. Pure decoders and
reducers are functions. Every outside call is a parameter: the clock, UUID
generation, each Web Bluetooth step, the worker's message channel, and the
issue-tracker fetch. A failing `await` is an outcome value. A JavaScript
exception is an error alternative of a `Result` or an `Outcome`.

## Model

| member | source | states |
|---|---|---|
| DeviceProtocol.Command.Code | services/device-protocol.ts:61-82 | every command's wire code lies in 0x01..0x0A |
| DeviceProtocol.CommandOf | services/device-protocol.ts:61-82 | reading a byte as a command gives a command with exactly that code, or nothing only when no command has that code |
| DeviceProtocol.U16OfLE16 | services/device-protocol.ts:214-221 | two little-endian bytes taken as `v & 0xFF`, `(v >> 8) & 0xFF` read back as `v` modulo 65536 |
| DeviceProtocol.U32OfLE32 | services/device-protocol.ts:257-260 | a 32-bit little-endian field reads back the value written |
| DeviceProtocol.Stored | services/device-protocol.ts:204-206 | writing a payload into a `Uint8Array` keeps its length and stores each number modulo 256 |
| DeviceProtocol.CommandFrameRoundTrip | services/device-protocol.ts:194-209 | a command frame is 3 bytes longer than its payload, and parsing it gives back the command, the sequence byte and the stored payload |
| DeviceProtocol.DurationFrame | services/device-protocol.ts:214-232 | a start-focus or set-duration frame is 5 bytes, its duration field holds the minutes modulo 65536, and holds them exactly below 65536 |
| DeviceProtocol.CommandEncoder.constructor | services/device-protocol.ts:189 | the command counter starts at 0 |
| DeviceProtocol.CommandEncoder.EncodeCommand | services/device-protocol.ts:194-209 | the counter goes up by one and the frame carries the old counter `& 0xFF` |
| DeviceProtocol.CommandEncoder.EncodeStartFocus | services/device-protocol.ts:214-221 | a START_FOCUS frame with the duration payload, stamped with the old counter |
| DeviceProtocol.CommandEncoder.EncodeSetDuration | services/device-protocol.ts:226-232 | a SET_DURATION frame with the duration payload, stamped with the old counter |
| DeviceProtocol.StampsCycle | services/device-protocol.ts:195 | from a fresh counter the k-th stamp is k mod 256; stamps repeat every 256 commands; any 256 commands in a row get distinct stamps |
| DeviceProtocol.EventFromFrame | services/device-protocol.ts:237-263 | decoding succeeds exactly for a frame of at least 4 bytes that starts with 0xBB and holds its declared payload; each failure raises the source's error (too short, bad start byte, or a range error when the payload runs past the frame) |
| DeviceProtocol.DecodeEvent | services/device-protocol.ts:237-263 | the loop that copies the payload and reads the optional timestamp computes `EventFromFrame` |
| DeviceProtocol.EventRoundTrip | services/device-protocol.ts:237-263 | a well-formed event frame decodes to its event, payload and sequence, with its own timestamp when one is present and the current time otherwise |
| DeviceProtocol.DialDelta | services/device-protocol.ts:268-273 | a payload shorter than two bytes turns by 0, and every delta is a signed 16-bit value |
| DeviceProtocol.DialDeltaRoundTrip | services/device-protocol.ts:268-273 | every signed 16-bit delta written little-endian decodes to itself |
| DeviceProtocol.DeltaBytesRoundTrip | services/device-protocol.ts:268-273 | the decoded delta determines the first two payload bytes, so the decoder is injective on two-byte payloads |
| DeviceProtocol.StateFromFrame | services/device-protocol.ts:278-312 | decoding succeeds exactly for a frame of at least 16 bytes that starts with 0xCC, and otherwise gives the short-packet or bad-start-byte error |
| DeviceProtocol.StateRoundTrip | services/device-protocol.ts:288-311 | a state frame built from its fields decodes to exactly those fields, with the firmware version written `major.minor.patch` |
| DeviceProtocol.BatteryFromValue | services/device-protocol.ts:317-319 | the battery level is the first byte, and an empty value is an error |
| DeviceProtocol.RemainingFromValue | services/device-protocol.ts:324-326 | the remaining time is the little-endian 16-bit value of the first two bytes, and a shorter value is an error |
| DeviceProtocol.VoiceFromFrame | services/device-protocol.ts:337-360 | decoding succeeds exactly for a frame of at least 2 bytes that starts with 0xDD; a shorter frame fails with "Voice event packet too short" and a wrong start byte with "Invalid voice event start byte: " and its value; the event is byte 1; the timestamp is bytes 2-5 when present and the current time otherwise; a duration is present exactly for a stop or toggle-off event of at least 10 bytes, and is then bytes 6-9 |
| DeviceProtocol.EnumName | services/device-protocol.ts:365-399 | a declared enum member is printed by its own name |
| DeviceProtocol.EnumNameInjective | services/device-protocol.ts:365-399 | when the name table is injective and holds no `UNKNOWN(...)` names, different values get different names |
| DeviceProtocol.PlaceholderIsNotAName | services/device-protocol.ts:365-399 | a declared name never coincides with the `UNKNOWN(n)` text of an undeclared value |
| DeviceProtocol.CommandLabelFacts | services/device-protocol.ts:61-82 | the command name table is injective and holds no `UNKNOWN(...)` names |
| DeviceProtocol.CommandNameInjective | services/device-protocol.ts:376-378 | two command codes with the same printed name are equal |
| DeviceProtocol.EventLabelFacts | services/device-protocol.ts:88-109 | the event name table is injective and holds no `UNKNOWN(...)` names |
| DeviceProtocol.EventNameInjective | services/device-protocol.ts:383-385 | two event codes with the same printed name are equal |
| DeviceProtocol.VoiceEventLabelFacts | services/device-protocol.ts:115-124 | the voice event name table is injective and holds no `UNKNOWN(...)` names |
| DeviceProtocol.VoiceEventNameInjective | services/device-protocol.ts:365-367 | two voice event codes with the same printed name are equal |
| DeviceProtocol.TimerStateLabelFacts | services/device-protocol.ts:130-135 | the timer state name table is injective and holds no `UNKNOWN(...)` names |
| DeviceProtocol.TimerStateNameInjective | services/device-protocol.ts:390-392 | two timer state codes with the same printed name are equal |
| DeviceProtocol.LockStateLabelFacts | services/device-protocol.ts:137-143 | the lock state name table is injective and holds no `UNKNOWN(...)` names |
| DeviceProtocol.LockStateNameInjective | services/device-protocol.ts:397-399 | two lock state codes with the same printed name are equal |
| DeviceProtocol.NameExamples | services/device-protocol.ts:365-399 | sample names: `START_FOCUS`, `ACK_EVENT`, the two `ERROR` members, `UNKNOWN(0)` and `UNKNOWN(-1)` |
| Bluetooth.ApplyLaws | services/bluetooth.ts:114-117 | merging the empty update changes nothing, merging the same update twice is merging it once, and two merges in a row are one merge of the combined update |
| Bluetooth.SetupTouchesOnlyHandles | services/bluetooth.ts:230-275 | discovery changes only the characteristic handles; it succeeds exactly when a server exists and the session service and its command, event and state characteristics are all found, and then all three handles are set |
| Bluetooth.SubscribeKeepsSupervisor | services/bluetooth.ts:431-490 | subscribing changes neither the reconnection variables, the handles, the command counter, the frames sent nor the connection state |
| Bluetooth.LinkUpKeepsSupervisor | services/bluetooth.ts:196-206 | bringing a link up (GATT connect, discovery, subscription, SYNC_STATE) leaves the reconnection variables alone |
| Bluetooth.ConnectTryKeepsSupervisor | services/bluetooth.ts:165-211 | the body of the connect attempt leaves the reconnection variables alone |
| Bluetooth.ConnectKeepsValid | services/bluetooth.ts:151-225 | connecting keeps the supervisor invariant: at most five attempts counted, and a reconnect timer pending exactly while reconnecting |
| Bluetooth.LinkLostKeepsValid | services/bluetooth.ts:362-376 | an unexpected disconnection keeps the supervisor invariant |
| Bluetooth.ReconnectFireKeepsValid | services/bluetooth.ts:393-421 | a firing of the reconnect timer, and a user disconnect, keep the supervisor invariant |
| Bluetooth.DispatchNotices | services/bluetooth.ts:509-554 | the event `switch` appends exactly the calls of its kind: the new record (when a field changed) followed by the kind's own handler, e.g. `onDialRotated(delta)` after the dial report |
| Bluetooth.DispatchExtends | services/bluetooth.ts:509-554 | every branch of the event `switch` only updates the record and calls handlers: handles, command log, counter and supervisor stay, and earlier handler calls are kept in front |
| Bluetooth.NotificationsKeepSupervisor | services/bluetooth.ts:495-638 | the event, state, battery and voice handlers leave the reconnection variables alone |
| Bluetooth.LinkLossRetries | services/bluetooth.ts:362-392 | a link loss during a reconnection is ignored; with a device and fewer than five attempts it schedules attempt n+1 and shows `reconnecting`; after five it reports the disconnect and then the max-attempts error, and stays disconnected |
| Bluetooth.ReconnectSuccess | services/bluetooth.ts:393-410 | a timer firing whose link comes up leaves the device connected with the attempt count reset and no attempt pending |
| Bluetooth.DisconnectResets | services/bluetooth.ts:280-357 | a disconnect clears every handle and the timer, resets connection, name, attempts and voice state and nothing else in the record, sends nothing, and reports the new state and then the disconnect |
| Bluetooth.ConnectTryOutcome | services/bluetooth.ts:165-211 | the attempt succeeds only with a picked device that has GATT and a GATT connect that resolves, and then the state is `connected` |
| Bluetooth.SettleReports | services/bluetooth.ts:212-224 | the connect result is true exactly when the attempt succeeded; a failure leaves the state `disconnected`, and it reports `Connection failed: <message>` exactly when the message is not a cancel |
| Bluetooth.ConnectOutcome | services/bluetooth.ts:151-225 | when already connected, connecting changes nothing and returns true; otherwise the attempt count is reset and the result is connected with a usable device, or disconnected |
| Bluetooth.CancelIsSilent | services/bluetooth.ts:212-219 | a chooser rejected with a message containing `cancelled` reports only `connecting` and then `disconnected`, raises no error and returns false |
| Bluetooth.FailingRetriesGiveUp | services/bluetooth.ts:411-419 | when every remaining attempt fails, the supervisor ends disconnected with no handles, no attempt pending, and `Failed to reconnect after multiple attempts` as its last report |
| Bluetooth.FiveFailedReconnects | services/bluetooth.ts:362-421 | from a connected device, a link loss followed by five failed reconnections ends disconnected, with the failure reported last |
| Bluetooth.EventEffect | services/bluetooth.ts:495-558 | an undecodable event changes nothing; a decoded one stamps `lastEventTime`, reports the new state and the packet, and then applies the one field change for its kind (dial adds the signed delta, phone, lock, timer-complete, battery when a payload is present) and makes exactly the calls `FollowUp` lists for it (the new record, then the kind's handler such as `onDialRotated(delta)`), and never touches handles, counter or supervisor |
| Bluetooth.StateReportEffect | services/bluetooth.ts:563-591 | an undecodable state report changes nothing; a decoded one copies all eight reported fields into the record |
| Bluetooth.VoiceEffect | services/bluetooth.ts:609-638 | an undecodable voice event changes nothing; a decoded one sets recording on start or toggle-on, processing on stop or toggle-off, leaves the voice state otherwise, and passes the packet to the voice handler last |
| Bluetooth.CommandEffects | services/bluetooth.ts:654-749 | with no command characteristic the command throws `Not connected to device` and nothing changes; otherwise exactly one frame with the next sequence stamp is written, and the state update is applied exactly when the write succeeded |
| Bluetooth.BluetoothService.constructor | services/bluetooth.ts:84-108 | the service starts with the initial record, no handles, no reconnection, counter 0 and nothing sent |
| Bluetooth.BluetoothService.UpdateState | services/bluetooth.ts:114-117 | the record is merged with the update and the new record is reported; an update whose attempt count stays within 0..5 keeps the reconnection invariant |
| Bluetooth.BluetoothService.Emit | services/bluetooth.ts:119-122 | one handler call is recorded and nothing else changes |
| Bluetooth.BluetoothService.GetConnectionState | services/bluetooth.ts:775-780 | returns the current record |
| Bluetooth.BluetoothService.IsConnected | services/bluetooth.ts:782-787 | true exactly when the connection state is `connected` |
| Bluetooth.BluetoothService.GetDeviceName | services/bluetooth.ts:789-794 | returns the recorded device name |
| Bluetooth.BluetoothService.SendCommand | services/bluetooth.ts:654-676 | performs the command send given by its specification |
| Bluetooth.BluetoothService.SendThenUpdate | services/bluetooth.ts:711-749 | sends a command and then applies its state update, as specified |
| Bluetooth.BluetoothService.EndSession | services/bluetooth.ts:711-714 | sends END_SESSION, then sets the timer idle with 0 seconds left |
| Bluetooth.BluetoothService.LockPhone | services/bluetooth.ts:719-722 | sends LOCK_PHONE, then sets the lock state to locking |
| Bluetooth.BluetoothService.UnlockPhone | services/bluetooth.ts:727-730 | sends UNLOCK_PHONE, then sets the lock state to unlocking |
| Bluetooth.BluetoothService.PauseSession | services/bluetooth.ts:735-738 | sends PAUSE_SESSION, then sets the timer paused |
| Bluetooth.BluetoothService.ResumeSession | services/bluetooth.ts:743-746 | sends RESUME_SESSION, then sets the timer running |
| Bluetooth.BluetoothService.SyncState | services/bluetooth.ts:764-766 | sends SYNC_STATE and changes no state |
| Bluetooth.BluetoothService.StartFocus | services/bluetooth.ts:691-706 | writes a START_FOCUS frame without the timeout wrapper, then sets the timer running with the duration and `minutes * 60` seconds left |
| Bluetooth.BluetoothService.SetDuration | services/bluetooth.ts:751-759 | writes a SET_DURATION frame, then records the duration |
| Bluetooth.BluetoothService.ResetVoiceState | services/bluetooth.ts:643-645 | sets the voice state to idle |
| Bluetooth.BluetoothService.ProcessStateData | services/bluetooth.ts:575-591 | applies a state report as specified |
| Bluetooth.BluetoothService.HandleStateNotification | services/bluetooth.ts:563-570 | an empty notification changes nothing; otherwise the report is processed; the reconnection invariant is kept |
| Bluetooth.BluetoothService.HandleBatteryNotification | services/bluetooth.ts:596-604 | applies a battery notification as specified and keeps the reconnection invariant |
| Bluetooth.BluetoothService.HandleVoiceNotification | services/bluetooth.ts:609-638 | applies a voice notification as specified and keeps the reconnection invariant |
| Bluetooth.BluetoothService.HandleEventNotification | services/bluetooth.ts:495-558 | applies an event notification as specified and keeps the reconnection invariant |
| Bluetooth.BluetoothService.Setup | services/bluetooth.ts:230-275 | performs discovery as specified |
| Bluetooth.BluetoothService.OptionalSetup | services/bluetooth.ts:252-271 | the battery and voice handles are set exactly when their lookups succeed, and nothing else changes |
| Bluetooth.BluetoothService.Subscribe | services/bluetooth.ts:431-490 | performs subscription, including the initial state and battery reads, as specified |
| Bluetooth.BluetoothService.LinkUp | services/bluetooth.ts:196-206 | performs GATT connect, discovery, subscription and SYNC_STATE as specified |
| Bluetooth.BluetoothService.ConnectTry | services/bluetooth.ts:165-211 | performs the body of the connect attempt as specified |
| Bluetooth.BluetoothService.ConnectDevice | services/bluetooth.ts:151-225 | performs a connect as specified and keeps the supervisor invariant |
| Bluetooth.BluetoothService.DisconnectDevice | services/bluetooth.ts:280-357 | performs a disconnect as specified, after which the reconnection invariant holds whatever the state before |
| Bluetooth.BluetoothService.AttemptReconnect | services/bluetooth.ts:381-392 | with a device and no attempt under way, counts one more attempt and schedules the timer; otherwise nothing changes; below five attempts the reconnection invariant is kept |
| Bluetooth.BluetoothService.HandleDisconnection | services/bluetooth.ts:362-376 | handles a link loss as specified and keeps the supervisor invariant |
| Bluetooth.BluetoothService.SettleReconnect | services/bluetooth.ts:403-419 | once the link attempt settled: success marks the record connected with no attempts; failure retries below five attempts and otherwise disconnects and reports the failure, as specified |
| Bluetooth.BluetoothService.Switch | services/bluetooth.ts:509-554 | performs the event `switch` as specified |
| Bluetooth.BluetoothService.ReconnectTimerFired | services/bluetooth.ts:393-421 | one firing of the pending reconnect timer, as specified; keeps the supervisor invariant |
| Session.GetEffectiveConfig | types/session.ts:129-134 | with no override the defaults; otherwise each duration is the override's when it gives one and the default's when not |
| Session.PhaseChangesFollowTable | types/session.ts:144-360 | every phase change the reducer makes is in the transition table |
| Session.TransitionTable | types/session.ts:115-124 | the table has no self-loops; focus is entered only from planning, a break only from focus, shutdown only from planning |
| Session.StartFocusEffect | types/session.ts:149-168 | outside planning START_FOCUS is ignored; in planning it enters a running focus on the given task for the phase's duration, keeping the session count and the mode |
| Session.EndSessionEffect | types/session.ts:195-223 | ending a focus goes to a stopped 15-minute break, counts the session and clears the task; ending a break goes back to planning with 20 or 90 minutes; any other phase is unchanged |
| Session.TickEffect | types/session.ts:225-246 | a tick never changes phase, count or task; a stopped or expired timer is unchanged; otherwise one second is taken off, never below 0, and the timer keeps running exactly while seconds remain |
| Session.TicksRunDown | types/session.ts:225-246 | n ticks on a running timer showing n seconds stop it at exactly 0 |
| Session.Guards | types/session.ts:170-344 | pause and resume work only in the timer phases; resume needs seconds left; skip-break works only in a break, shutdown starts only from planning, completes only from shutdown; completing and cancelling the shutdown do the same |
| Session.PreservesTaskRule | types/session.ts:144-360 | no action leaves a task active during a break or the shutdown when none was before |
| Session.TimerStaysNonNegative | types/session.ts:144-360 | with non-negative configured durations the timer never goes negative |
| Session.ToggleEmergencyEffect | types/session.ts:259-272 | the mode flips, the state returns to stopped planning with no task, the timer shows the mode's focus length, and two toggles restore the mode |
| Session.SessionCountGrowth | types/session.ts:144-360 | the day reset zeroes the count; otherwise only ending or breaking out of a focus counts one session |
| Session.StartBreakEffect | types/session.ts:274-290 | outside focus START_BREAK is ignored; from focus it runs the configured break with no task |
| Session.ResetDayEffect | types/session.ts:346-354 | the day reset gives the initial state with the configured focus length |
| Session.PhaseDurationMatchesReducer | types/session.ts:404-418 | the duration table agrees with what the reducer sets on entering focus and a break, and gives 0 for planning |
| Session.ClockTwoFields | types/session.ts:377-389 | two zero-padded fields `mm:ss` read back as minutes and seconds |
| Session.ClockThreeFields | types/session.ts:377-389 | `h:mm:ss` reads back as hours, minutes and seconds |
| Session.FormatTimeFields | types/session.ts:377-389 | the clock shows hours only when there is at least one, with minutes and seconds padded to two digits |
| Session.ClockArithmetic | types/session.ts:378-380 | the minute and second fields are below 60 and recombine into the original seconds |
| Session.FormatTimeReadsBack | types/session.ts:377-389 | reading a formatted clock back gives the seconds it was made from, so the format is injective |
| Session.ShortClockReadsBack | types/session.ts:386-388 | the `mm:ss` form below one hour reads back |
| Session.LongClockReadsBack | types/session.ts:382-385 | the `h:mm:ss` form from one hour on reads back |
| Session.FormatTimeShortLength | types/session.ts:377-389 | below one hour the clock has five characters, `mm:ss` |
| Session.FormatTimeExamples | types/session.ts:377-389 | 5400 seconds show `1:30:00` and 0 shows `00:00` |
| Session.PhaseLabels | types/session.ts:391-399 | the emergency mode changes the label of planning and focus and of no other phase |
| TimerWorker.TickEffect | workers/timerWorker.ts:41-58 | a tick at zero does nothing; above one it counts down and reports the new count; from one it reports 0, then `stopped` and `complete`, and stops the countdown |
| TimerWorker.StartEffect | workers/timerWorker.ts:60-71 | starting first stops (reporting the old count), then runs from the given count and reports `started` |
| TimerWorker.PauseResumeEffect | workers/timerWorker.ts:73-90 | pausing stops the countdown, keeps the count and reports it; resuming is ignored while running or at zero, and otherwise restarts the countdown and reports `resumed` |
| TimerWorker.StopMessageEffect | workers/timerWorker.ts:126-129 | the stop message reports `stopped` with the old count, then zeroes it and stops the countdown |
| TimerWorker.SetSecondsEffect | workers/timerWorker.ts:101-109 | while running, setting restarts the countdown from the new count (reporting `stopped` and `started` with it); otherwise it only stores and reports the count |
| TimerWorker.StepsKeepSound | workers/timerWorker.ts:111-136 | no message and no tick makes the count negative or lets the running flag and the scheduled interval disagree, and every step only appends to the outbox |
| TimerWorker.IgnoresBadCounts | workers/timerWorker.ts:115-134 | `start` and `set` without a count, or with a negative one, do nothing |
| TimerWorker.CountdownCompletes | workers/timerWorker.ts:41-58 | a countdown started at s reaches 0 after exactly s ticks, reports s-1 down to 0, then `stopped` and `complete`, and stops |
| TimerWorker.TimerWorkerState.constructor | workers/timerWorker.ts:33-39 | a loaded worker is stopped at 0 and has posted its ready tick |
| TimerWorker.TimerWorkerState.PostMessage | workers/timerWorker.ts:51 | one response is appended to the outbox |
| TimerWorker.TimerWorkerState.Tick | workers/timerWorker.ts:41-58 | performs one tick as specified |
| TimerWorker.TimerWorkerState.StartCountdown | workers/timerWorker.ts:60-71 | performs `start` as specified |
| TimerWorker.TimerWorkerState.PauseCountdown | workers/timerWorker.ts:73-80 | performs `pause` as specified |
| TimerWorker.TimerWorkerState.ResumeCountdown | workers/timerWorker.ts:82-90 | performs `resume` as specified |
| TimerWorker.TimerWorkerState.StopCountdown | workers/timerWorker.ts:92-99 | performs `stop` as specified |
| TimerWorker.TimerWorkerState.SetSeconds | workers/timerWorker.ts:101-109 | performs `setSeconds` as specified |
| TimerWorker.TimerWorkerState.OnMessage | workers/timerWorker.ts:111-136 | dispatches one message as specified and keeps the worker sound |
| UseTimer.MinuteFields | hooks/useTimer.ts:21-25 | the hook's clock is whole minutes, unpadded and without an hours field, then the seconds padded to two digits, and the two fields recombine to the count |
| UseTimer.MinutesClockReads | hooks/useTimer.ts:21-25 | `m:ss` reads back as `m * 60 + ss` |
| UseTimer.FormatTimeReadsBack | hooks/useTimer.ts:21-25 | reading the hook's clock back gives the seconds it was made from |
| UseTimer.FormatTimeNoHours | hooks/useTimer.ts:21-25 | 90 minutes show as `90:00`, unlike the session clock's `1:30:00` |
| UseTimer.ReceiveEffect | hooks/useTimer.ts:67-91 | each worker response sets the shown count (0 on `complete`); the hook runs after `started` or `resumed` and stops after the others, a tick keeping the flag; `onTick` is called exactly for ticks and `onComplete` exactly for `complete` |
| UseTimer.DeliverAppend | hooks/useTimer.ts:67-91 | handling two batches of responses is handling their concatenation |
| UseTimer.DeliverOne | hooks/useTimer.ts:67-91 | handling one response is one call of the handler |
| UseTimer.DeliverTwo | hooks/useTimer.ts:67-91 | handling two responses is two calls in order |
| UseTimer.DeliverThree | hooks/useTimer.ts:67-91 | handling three responses is three calls in order |
| UseTimer.MessageMirrorKept | hooks/useTimer.ts:67-91 | when the hook shows what the worker holds, it still does after the worker handles any message other than `stop` and the hook receives what the worker posted |
| UseTimer.TickMirrorKept | hooks/useTimer.ts:67-91 | the hook still shows the worker's count and running flag after a worker tick |
| UseTimer.StopShowsOldCount | workers/timerWorker.ts:126-129 | after a lone `stop` the hook shows the count from before the stop while the worker holds 0 |
| UseTimer.ResetAgrees | hooks/useTimer.ts:123-131 | a reset posts `stop` then `set` with the target (the argument or else the initial count), shows the target stopped, and once the worker's replies arrive the hook again mirrors the worker, which holds the target |
| UseTimer.SyncRule | hooks/useTimer.ts:104-109 | a change of the initial count is applied (posted and shown) exactly when a worker exists and the countdown is not running |
| UseTimer.MountMirrors | hooks/useTimer.ts:64-101 | after mounting and the worker's first replies, the hook mirrors the worker |
| UseTimer.TimerHook.constructor | hooks/useTimer.ts:47-50 | the first render shows the initial count, stopped, with no worker |
| UseTimer.TimerHook.Mount | hooks/useTimer.ts:64-95 | creates the worker and posts the initial count |
| UseTimer.TimerHook.Unmount | hooks/useTimer.ts:97-100 | drops the worker |
| UseTimer.TimerHook.HandleWorkerMessage | hooks/useTimer.ts:67-91 | handles one worker response as specified |
| UseTimer.TimerHook.SyncInitialSeconds | hooks/useTimer.ts:104-109 | applies the initial-count effect as specified |
| UseTimer.TimerHook.Start | hooks/useTimer.ts:111-115 | with a worker, posts `start` with the shown count; otherwise nothing |
| UseTimer.TimerHook.Pause | hooks/useTimer.ts:117-121 | with a worker, posts `pause`; otherwise nothing |
| UseTimer.TimerHook.Reset | hooks/useTimer.ts:123-131 | performs a reset as specified |
| UseDevice.PhaseCodes | hooks/useDevice.ts:192-206 | the nine phases get the codes 0x00 to 0x08 in their listed order, distinct phases get distinct codes, and a name outside the map falls back to 0x00 |
| UseDevice.SyncPayloadLayout | hooks/useDevice.ts:205-214 | the SYNC_STATE payload is 8 bytes: the phase code, the timer's low and high byte (the timer modulo 65536, and exactly below 65536), the session count's low byte, then four zeros |
| UseDevice.SyncFromMapping | hooks/useDevice.ts:68-89 | after a state sync the hook mirrors the service's record; connected shows as connected, connecting and reconnecting as connecting, disconnected as disconnected, never as error; `locking` is not shown as locked; the last error is kept |
| UseDevice.ReplayAppend | hooks/useDevice.ts:92-118 | handling two runs of handler calls is handling their concatenation |
| UseDevice.ReplayWithoutDial | hooks/useDevice.ts:92-118 | the as-written and corrected handlers give the same state on every run of calls that holds no dial turn |
| UseDevice.ReplaySingle | hooks/useDevice.ts:92-118 | handling one call is one call of the handler |
| UseDevice.AgreeingKeepsMirror | hooks/useDevice.ts:92-118 | handler calls that agree with a record keep a hook that mirrors it mirroring it |
| UseDevice.ReportedMirrors | hooks/useDevice.ts:92-118 | a run of calls that hands over a record and then only agrees with it leaves the hook mirroring that record, whatever it showed before |
| UseDevice.UpdateReports | services/bluetooth.ts:114-117 | a state update makes exactly one handler call, handing over the new record |
| UseDevice.DispatchAgrees | services/bluetooth.ts:509-554 | an event other than ERROR either leaves the record alone and makes only agreeing calls, or reports the new record first and then makes only agreeing calls |
| UseDevice.UpdateThenCall | services/bluetooth.ts:114-117 | an update followed by a call agreeing with the updated record keeps the earlier calls, reports the new record and then agrees |
| UseDevice.EventReported | services/bluetooth.ts:495-558 | a decoded event other than ERROR hands over the final record and then only agrees with it |
| UseDevice.StateReportMirrored | services/bluetooth.ts:575-591 | after a state report the hook mirrors the service's record |
| UseDevice.VoiceMirrored | hooks/useDevice.ts:100-109 | after a voice event the hook forwards the packet to its caller, and for start, stop and the toggles mirrors the record with the matching voice state |
| UseDevice.EventKeepsMirror | hooks/useDevice.ts:92-118 | with the dial handler corrected, after any decoded event other than ERROR the hook mirrors the service's record |
| UseDevice.DialCountedTwice | hooks/useDevice.ts:99 | as written, a dial event moves the service's position by the delta and the hook's by twice the delta |
| UseDevice.DialStepShownAsTwo | hooks/useDevice.ts:99 | the frame `BB 10 00 02 01 00` turns the dial by one step, which the service records as 1 and the hook, as written, shows as 2 |
| UseDevice.DialShownOnce | hooks/useDevice.ts:92-99 | with the dial handler leaving the position to the state sync, the hook shows the service's position, the old position plus the delta |
| UseDevice.GuardsRefuse | hooks/useDevice.ts:171-219 | lock, unlock and sync throw `Device not connected` and change nothing unless the hook shows connected; otherwise sync sends one SYNC_STATE frame with its payload |
| UseDevice.LockingIsNotLocked | hooks/useDevice.ts:171-176 | a successful lock command leaves the service `locking` and the hook showing not locked, still mirroring |
| UseDevice.ConnectSettles | hooks/useDevice.ts:129-152 | without Web Bluetooth the hook shows the error and leaves the service alone; otherwise it shows connected exactly when the service connected, and disconnected when not |
| UseDevice.CancelShowsNoError | hooks/useDevice.ts:136-146 | a cancelled chooser leaves the hook disconnected with no error |
| UseDevice.FailureShowsError | hooks/useDevice.ts:129-152 | a failed connect that is not a cancel leaves the hook disconnected with `Connection failed: <message>` as its last error |
| UseDevice.DisconnectEnds | hooks/useDevice.ts:154-164 | a disconnect leaves the hook disconnected, unlocked, without a phone and idle, and the service disconnected with no handles |
| UseDevice.ResetVoiceMirrors | hooks/useDevice.ts:166-169 | resetting the voice state sets both the service and the hook to idle, mirroring each other |
| UseDevice.DeviceHook.constructor | hooks/useDevice.ts:59-65 | the first render's state, bound to one service |
| UseDevice.DeviceHook.Sync | hooks/useDevice.ts:68-89 | performs `syncFromBluetoothState` as specified |
| UseDevice.DeviceHook.Mount | hooks/useDevice.ts:121-122 | the mount effect syncs from the service's current record |
| UseDevice.DeviceHook.Handle | hooks/useDevice.ts:92-118 | handles one call from the service: with `asWritten` a dial turn adds its delta to the position the preceding state report already set (line 99), otherwise the corrected handler leaves it |
| UseDevice.DeviceHook.HandleSince | hooks/useDevice.ts:92-118 | handles, in order, every call the service made from a given point on, with the as-written or the corrected handlers as `Replay` does |
| UseDevice.DeviceHook.LockPhone | hooks/useDevice.ts:171-176 | performs the guarded lock as specified |
| UseDevice.DeviceHook.UnlockPhone | hooks/useDevice.ts:178-183 | performs the guarded unlock as specified |
| UseDevice.DeviceHook.SyncState | hooks/useDevice.ts:185-219 | performs the guarded state sync as specified |
| UseDevice.DeviceHook.Connect | hooks/useDevice.ts:129-152 | performs `connect` as specified |
| UseDevice.DeviceHook.Disconnect | hooks/useDevice.ts:154-164 | performs `disconnect` as specified |
| UseDevice.DeviceHook.ResetVoice | hooks/useDevice.ts:166-169 | performs `resetVoice` as specified |
| Types.PhasesListed | types.ts:2 | the nine phases are listed once each, and distinct phases have distinct names |
| Types.InitialDay | types.ts:124-159 | a new day starts in stopped planning at 90 minutes, with no session, task, journal entry or score, three empty micro-steps, not in the minimum-viable mode, dated as given |
| Types.InitialDevice | types.ts:67-73 | the device view starts disconnected, unlocked, without a phone, at battery 100 and dial 0 |
| App.MigrateTasks | App.tsx:60-63 | migration keeps every saved task, in order, each migrated on its own |
| App.MergeLaws | App.tsx:138-140 | merging no updates changes nothing; two merges are one merge in which the later update wins; a full update replaces the day; a field the update leaves out keeps its value and one it gives takes that value |
| App.UpdateDeepWorkOnlyKey | App.tsx:142-150 | writing a deep-work block sets that block only, and writing back its own value changes nothing |
| App.UpdateFlagOnlyKey | App.tsx:142-150 | writing a yes/no item sets that item only, and writing back its own value changes nothing |
| App.FocusEnds | App.tsx:152-199 | ending a focus starts a stopped 15-minute break, counts the session, clears the task, and scores 2 for the first or second block when it is the first or second session; tasks and mode are kept |
| App.OtherPhaseEnds | App.tsx:176-184 | ending any other phase returns to stopped planning at 90 minutes and changes neither count, scores, task nor tasks |
| App.SessionEndLogs | App.tsx:186-197 | every session end appends exactly one system entry, with the given id and time, saying which phase ended |
| App.SessionEndKeepsScale | App.tsx:152-199 | a session end keeps the deep-work blocks on the 0-2 scale and never lowers the score |
| App.ScoreBounds | App.tsx:202-214 | the score is between 0 and 10, it is 10 exactly for a perfect sheet, and a new sheet scores 0 |
| App.EndRulesCompared | App.tsx:152-199 | ending a focus agrees with the session reducer's rule; ending a minimum-viable break does not: 90 minutes here against the reducer's 20 |
| App.ToggleMinViableEffect | App.tsx:228-242 | the mode flips; entering it returns to stopped planning at 20 minutes and clears the day theme, keeping tasks and scores; leaving it only resets the timer to 90 minutes; two toggles restore the mode |
| App.MigrationLaws | App.tsx:41-76 | loading a saved day gives it back; an empty record loads as a new day; every saved task is kept with its dependencies defaulting to none; a missing score field takes its initial value |
| App.AppStore.constructor | types.ts:134-159 | the store starts with the initial day |
| App.AppStore.UpdateLog | App.tsx:138-140 | the day becomes the merge of the old day and the updates |
| App.AppStore.UpdateDeepWork | App.tsx:142-150 | one deep-work block is written and nothing else changes |
| App.AppStore.UpdateFlag | App.tsx:142-150 | one yes/no item is written and nothing else changes |
| App.AppStore.HandleSessionEnd | App.tsx:152-199 | applies the session-end rule to the day |
| App.AppStore.CalculateScore | App.tsx:202-214 | adding the items one by one gives the score of the sheet, and nothing changes |
| App.AppStore.ConfirmResetDay | App.tsx:220-226 | the day is replaced by a new day with the given date |
| App.AppStore.ToggleMinViable | App.tsx:228-242 | applies the minimum-viable toggle to the day |
| Scoreboard.NextDeepWork | components/Scoreboard.tsx:18-25 | the deep-work cycle always lands on the 0-2 scale |
| Scoreboard.CycleSteps | components/Scoreboard.tsx:18-25 | the cycle takes 0 to 2, 2 to 1, and everything else to 0 |
| Scoreboard.CycleReturns | components/Scoreboard.tsx:18-25 | on the scale, three steps return to the start and no one or two steps do |
| Scoreboard.ToggleDeepWorkEffect | components/Scoreboard.tsx:18-25 | a deep-work toggle keeps both blocks on the scale and changes no other block or item; three toggles restore the sheet |
| Scoreboard.ToggleBooleanEffect | components/Scoreboard.tsx:13-15 | a yes/no toggle negates exactly its own item; two toggles restore the sheet |
| Planner.FindIndex | components/Planner.tsx:203-204 | `findIndex` gives the first position holding the id, and none exactly when no task has it |
| Planner.FindTaskFirst | components/Planner.tsx:221 | `find` finds a task exactly when some task has the id, and returns a task of the list that has it |
| Planner.FindIndexById | components/Planner.tsx:203 | two lists with the same ids in the same order have the same `findIndex` |
| Planner.IdsBound | components/Planner.tsx:219-227 | a list has at most as many distinct ids as tasks |
| Planner.PathConcat | components/Planner.tsx:219-227 | two dependency chains that meet join into one |
| Planner.DependsTrans | components/Planner.tsx:219-227 | depending on a task is transitive |
| Planner.EdgeDepends | components/Planner.tsx:223 | a direct dependency is a dependency |
| Planner.PathTail | components/Planner.tsx:224 | dropping the first task of a chain of three or more leaves a chain |
| Planner.AnyTrue | components/Planner.tsx:224 | `some` is true only when the search from one of the dependencies is |
| Planner.AnyNotFalse | components/Planner.tsx:224 | `some` is not false when the search from one dependency is not |
| Planner.AnyDefined | components/Planner.tsx:224 | `some` returns when the search from every dependency returns |
| Planner.CheckTrueSound | components/Planner.tsx:219-227 | when the cycle search says yes, the task searched from depends on the source |
| Planner.CheckComplete | components/Planner.tsx:219-227 | when the task searched from depends on the source, the search never says no |
| Planner.CheckFalseSound | components/Planner.tsx:219-227 | when the cycle search says no, the task searched from does not depend on the source |
| Planner.IsCircularMeans | components/Planner.tsx:219-227 | `isCircular(source, target)` is true exactly when the target depends on the source, whenever it returns |
| Planner.ReachShrinks | components/Planner.tsx:220-225 | in a list without cycles, the tasks reachable from a dependency are strictly fewer than from the task itself |
| Planner.CheckDefined | components/Planner.tsx:220-225 | in a list without cycles the search returns once the stack allows one more level than the tasks reachable from the start |
| Planner.CheckDefinedBelowLength | components/Planner.tsx:220-225 | in a list without cycles the search returns with a stack two levels deeper than the list is long |
| Planner.RemoveAll | components/Planner.tsx:159 | filtering an id out keeps exactly the other entries and never lengthens the list |
| Planner.UpdatedEdges | components/Planner.tsx:215 | after rewriting one task's dependencies with old entries and the target, every dependency is an old one or the new link to the target |
| Planner.LinkedReach | components/Planner.tsx:215 | after such a rewrite every chain was already there, or runs through the new link |
| Planner.LinkKeepsAcyclic | components/Planner.tsx:194-217 | adding a link from the source to a target that does not depend on it keeps the list free of cycles |
| Planner.ToggleTwice | components/Planner.tsx:208-213 | adding and then removing a missing link restores the dependencies |
| Planner.RemoveAbsent | components/Planner.tsx:159 | filtering out an absent id changes nothing |
| Planner.RemoveAllAppend | components/Planner.tsx:159 | filtering distributes over concatenation |
| Planner.LinkTask | components/Planner.tsx:194-217 | the link is ignored without a source or when the target is the source; refused exactly when the cycle search finds the target depends on the source; overflows exactly when the search does not return; otherwise toggles the target in the first task with the source id and changes no other task. A list without cycles stays without cycles, and its search always returns |
| Planner.RemoveTaskPurges | components/Planner.tsx:154-162 | after removal no task has the id or depends on it; every remaining task is a purged task of the list, and every other task is kept, purged |
| Planner.RemoveTaskAppend | components/Planner.tsx:154-162 | removal distributes over concatenation |
| Planner.RemoveTaskSingle | components/Planner.tsx:154-162 | removal drops the task with the id and strips the id from every other's dependencies; removing twice is removing once |
| Planner.RemoveTaskUntouched | components/Planner.tsx:154-162 | removing an id nobody has or depends on changes nothing |
| Planner.NewTasks | components/Planner.tsx:104-119 | the new tasks are at most one per issue, undone, without dependencies, and linked to an issue not yet imported |
| Planner.NewTasksCover | components/Planner.tsx:105-119 | every issue not yet imported becomes a task |
| Planner.NewTasksFrom | components/Planner.tsx:105-119 | every new task comes from an issue not yet imported |
| Planner.NewTasksNone | components/Planner.tsx:105-107 | when every issue is imported there is nothing to add |
| Planner.LinearSelectEffect | components/Planner.tsx:99-121 | the import keeps the existing tasks as a prefix and appends, undone and without dependencies, exactly the issues not yet imported; with non-empty issue ids, importing the same issues again adds nothing |
| Planner.AddManualTaskEffect | components/Planner.tsx:142-152 | a whitespace-only title adds nothing; otherwise one undone task without dependencies is appended, keeping the title as typed |
| Planner.UpdateAssignee | components/Planner.tsx:178-182 | every task with the id gets the assignee and every other is unchanged |
| Planner.UpdateAssigneeEffect | components/Planner.tsx:178-182 | reassigning changes no id, dependency or done flag, so no dependency link; doing it twice is doing it once |
| Planner.StartSessionEffect | components/Planner.tsx:164-176 | starting a session runs a 90-minute focus, keeps count, task and tasks, and appends one system entry `Session #<n+1> Started` |
| Planner.HandleDrop | components/Planner.tsx:260-275 | dropping onto its own place or with nothing dragged changes nothing; otherwise the dragged task lands at the drop index, the others keep their order, and the list is a permutation of the old one |
| Planner.BlockedMeans | components/Planner.tsx:403 | the planner shows a task blocked exactly when one of its dependencies is missing or not done |
| NowRail.AddLogEntry | components/NowRail.tsx:107-115 | the journal becomes the rendered journal plus one entry from the given sender, and nothing else changes |
| NowRail.HandleTaskToggle | components/NowRail.tsx:123-153 | performs `handleTaskToggle` on the store as specified and returns the blocked message, if any |
| NowRail.SetActiveTask | components/NowRail.tsx:155-169 | performs `setActiveTask` on the store as specified and returns the blocked message, if any |
| NowRail.ToggleTimer | components/NowRail.tsx:117-121 | performs `toggleTimer` on the store as specified |
| NowRail.HandleTimerComplete | components/NowRail.tsx:44-53 | performs `handleTimerComplete` on the store as specified |
| NowRail.SubmitChat | components/NowRail.tsx:171-175 | performs `submitChat` on the store as specified and returns the chat box afterwards |
| NowRail.TaskToggleEffect | components/NowRail.tsx:123-153 | an unknown id changes nothing; completing a blocked task is refused with its message and changes nothing; otherwise exactly the tasks with the id flip `done`, the settings and the timer are kept, and one `Completed: ` or `Undid: ` entry is appended |
| NowRail.TaskToggleActive | components/NowRail.tsx:143-146 | un-completing is never refused and keeps the active task; the active task is cleared exactly when it is the task being completed (or there was none), and otherwise kept |
| NowRail.TaskToggleTwice | components/NowRail.tsx:123-153 | completing an unblocked task and then un-completing it restores the tasks |
| NowRail.SetActiveTaskEffect | components/NowRail.tsx:155-169 | an unknown id changes nothing; a blocked task is refused with its message; otherwise the task becomes active, tasks, settings and timer are kept, and one `Focusing on: ` entry is appended; only a listed task can become active |
| NowRail.ToggleTimerEffect | components/NowRail.tsx:117-121 | the timer flag flips, tasks, task and settings are kept, and `Timer Paused` or `Timer Resumed` is appended; two toggles restore the flag |
| NowRail.TimerCompleteEffect | components/NowRail.tsx:44-53 | a completed countdown stops the timer and appends one `Timer Finished.` entry, keeping tasks, task and settings |
| NowRail.SubmitChatEffect | components/NowRail.tsx:171-175 | a blank message is ignored and stays in the box; any other is appended as the user's, as typed, and the box is cleared |
| NowRail.BlockedRulesCompared | components/NowRail.tsx:128-131 | whatever the rail calls blocked the planner does too; they disagree only over a dependency that names no task, and agree when every dependency exists |
| NowRail.MissingDependencyDiverges | components/NowRail.tsx:128-131 | a task whose one dependency names no task is blocked for the planner and not for the rail |
| LinearPicker.WithoutId | components/LinearPicker.tsx:132-133 | removing an id from the selection keeps exactly the issues with other ids |
| LinearPicker.NotListed | components/LinearPicker.tsx:80-82 | the new nodes of a page are exactly those whose id is not already listed |
| LinearPicker.IdsCons | components/LinearPicker.tsx:30 | the ids of a selection are its head's id and the ids of its tail |
| LinearPicker.WithoutIdDistinct | components/LinearPicker.tsx:29-30 | removing an id keeps the selection free of duplicate ids |
| LinearPicker.WithoutAbsent | components/LinearPicker.tsx:132-133 | removing an id nobody has changes nothing |
| LinearPicker.WithoutAppend | components/LinearPicker.tsx:132-133 | removing an id distributes over concatenation |
| LinearPicker.ToggleKeepsDistinct | components/LinearPicker.tsx:130-138 | toggling keeps the selection unique by id, as the keyed map does |
| LinearPicker.ToggleSelectionEffect | components/LinearPicker.tsx:130-138 | toggling makes the issue selected exactly when it was not, leaves every other id's entries as they were, and a newly selected issue goes last |
| LinearPicker.ToggleTwice | components/LinearPicker.tsx:130-138 | toggling an unselected issue twice restores the selection; toggling a selected one twice moves it to the end with the same ids |
| LinearPicker.NotListedNone | components/LinearPicker.tsx:80-82 | a page whose ids are all listed adds nothing |
| LinearPicker.NotListedDistinct | components/LinearPicker.tsx:80-82 | filtering a page keeps its ids distinct |
| LinearPicker.MergePageEffect | components/LinearPicker.tsx:79-87 | a first page replaces the list; a later page keeps the list as a prefix, appends exactly the unlisted nodes, covers the union of the ids, keeps ids distinct, and merging the same page again changes nothing |
| LinearPicker.ResolveAssigneeCases | components/LinearPicker.tsx:69-75 | `ME` resolves to the viewer's id or to nothing before the viewer loads, `ALL` and the empty filter to nothing, and any other value to itself |
| LinearPicker.StripOnce | components/LinearPicker.tsx:92-98 | the error text loses one leading `Error: ` and only one, keeps a message without it, and falls back to the default when the message is missing or empty |
| LinearPicker.InFlightGuard | components/LinearPicker.tsx:57-67 | a load started while one is in flight does nothing; otherwise it raises the in-flight flag, requests the cursor, query and resolved assignee, and sets the first-page or next-page spinner with the first page clearing the error |
| LinearPicker.FinishEffect | components/LinearPicker.tsx:77-103 | a finished load clears every flag and keeps the selection; success merges the page and stores its page info, failure keeps the list and shows the error text; after any load the next one may start |
| LinearPicker.ReloadEffect | components/LinearPicker.tsx:106-115 | with the `ME` filter and no viewer nothing happens; otherwise the list and page info are cleared, the selection kept, and a first-page request for the resolved assignee goes out exactly when no load is in flight |
| LinearPicker.NextPageEffect | components/LinearPicker.tsx:117-121 | the next page is requested, at the stored end cursor, exactly when there is one and no load is in flight; otherwise nothing changes |
| LinearPicker.Picker.constructor | components/LinearPicker.tsx:17-36 | the picker starts empty, idle, with the `ALL` filter and no page, and valid |
| LinearPicker.Picker.Restore | components/LinearPicker.tsx:17-36 | puts the picker into a given state (the state a render would start from); it stands for no operation of the component and only sets up the other methods |
| LinearPicker.Picker.BeginLoad | components/LinearPicker.tsx:57-67 | performs the start of `loadIssues` as specified and returns its request; the selection is untouched |
| LinearPicker.Picker.FinishLoad | components/LinearPicker.tsx:77-103 | performs the end of `loadIssues` for the fetch's outcome; the selection is untouched |
| LinearPicker.Picker.ChangeFilters | components/LinearPicker.tsx:106-115 | a new query or filter triggers the reload as specified; the selection is untouched |
| LinearPicker.Picker.ViewerLoaded | components/LinearPicker.tsx:106-115 | the viewer arriving triggers the reload as specified; the selection is untouched |
| LinearPicker.Picker.Reload | components/LinearPicker.tsx:106-115 | performs the reload effect as specified; the selection is untouched |
| LinearPicker.Picker.NextPage | components/LinearPicker.tsx:117-121 | performs `handleNextPage` as specified |
| LinearPicker.Picker.ToggleIssue | components/LinearPicker.tsx:130-138 | toggles the issue in the selection, changes nothing else, and keeps the selection unique by id |
| LinearPicker.Picker.Confirm | components/LinearPicker.tsx:140-142 | hands over the selection, which has no two issues with the same id |
| JsText.NatToString | hooks/useTimer.ts:24 | a number's decimal text is one or more digits, a single digit exactly below ten |
| JsText.IntToString | hooks/useTimer.ts:24 | a negative number's text is a minus sign before its magnitude's digits |
| JsText.ParseNatToString | hooks/useTimer.ts:24 | a number's decimal text reads back as the number |
| JsText.NatToStringInjective | hooks/useTimer.ts:24 | different numbers have different decimal texts |
| JsText.IntToStringSign | hooks/useTimer.ts:24 | the text starts with a minus sign exactly for a negative number |
| JsText.IntToStringInjective | hooks/useTimer.ts:24 | different integers have different texts |
| JsText.PadStart2 | hooks/useTimer.ts:24 | `padStart(2, '0')` keeps a text of two or more characters and otherwise left-fills it with zeros to two |
| JsText.TwoDigitsRead | types/session.ts:383 | a number below 100, padded to two, is two digits that read back as the number |
| JsText.ParsePadded | types/session.ts:385 | padding a number below 100 gives two digits that read back as the number |
| JsText.JsRem | hooks/useTimer.ts:23 | `%` agrees with the mathematical remainder on non-negative operands and stays strictly between `-b` and `b`, as truncating division does |
| JsText.FloorDiv | hooks/useTimer.ts:22 | `Math.floor(a / b)` is the greatest `q` with `q * b <= a` |
| JsText.ContainsInfix | services/bluetooth.ts:215 | a text contains every text spliced into it |
| JsText.ContainsNeedsRoom | services/bluetooth.ts:215 | a text contains only texts no longer than itself |
| JsText.TrimStart | components/NowRail.tsx:172 | trimming the front keeps a suffix that starts with a non-whitespace character, or nothing |
| JsText.TrimEnd | components/NowRail.tsx:172 | trimming the end keeps a prefix that ends with a non-whitespace character, or nothing |
| JsText.TrimEmptyIffBlank | components/Planner.tsx:143 | a text trims to empty exactly when every character is whitespace |
| JsText.TrimEndKeepsNonBlank | components/Planner.tsx:143 | a text starting with a non-whitespace character does not trim to empty |

## Left out

- Web Bluetooth I/O: `requestDevice`, GATT connect, service and characteristic discovery, notification start and stop, `readValue`, `writeValueWithResponse` and the event listeners. Each becomes a success-or-failure `Step`, a `Pick` or a `Read` parameter, so the model holds no real handle objects.
- The UUID tables in `services/device-protocol.ts` are opaque strings that no logic inspects. This also leaves out the import name mismatch between `LIN34R_SERVICE_UUID` and `L1NEAR_SERVICE_UUID`.
- Real time and scheduling are left out: the 2000 ms reconnect delay, the 5000 ms `Promise.race` command timeout, the worker's `setInterval` and its drift arithmetic, and the rail's 10 s device sync (`components/NowRail.tsx:91-104`). Each timer firing is an explicit `ReconnectTimerFired` or `Tick` call.
- `Date.now()` and `crypto.randomUUID()` are parameters (`now`, `entryId`).
- The network clients are not part of this model: `services/linear.ts`, `services/agent.ts`, `utils/tauriBridge.ts`, `server.js` and `api/waitlist.ts`. The issue fetch is a `FetchOutcome` parameter.
- `localStorage` and `JSON.parse` in `App.tsx` are left out. The model keeps only the migration of an already parsed day.
- React rendering, effects, refs and batching are left out. State setters apply in the order they are called. A callback reads the `log` of the render that created it, which is why the rail's journal entry is appended to the rendered journal.
- The rail's effects that start, pause and reset the timer hook when the log changes (`components/NowRail.tsx:63-78`) are left out, as is the chat auto-scroll. The hook's own `Start`, `Pause` and `Reset` are modelled.
- Interleaved async callbacks are left out, such as a reconnect timer racing a user disconnect. Every `await` completes before the next event.
- The SVG dependency lines, Header's percentage bars and the presentational components are left out. These are LandingPage, ConfirmDialog, DeviceStatus, DevicePairing, PhoneLock, DayShape, Toolkit, Settings and LoginModal.
- The planner's LLM suggestion (`handleSmartSuggest`), its copy-to-clipboard, the linking-mode toggle and the drag-start and drag-over UI state are left out: they call outside code or only drive the UI. `HandleDrop` takes the dragged index as a parameter.
- `sendRawCommand` is left out. It writes caller-given bytes after checking only for a command characteristic, and it changes no state.
- The picker's debounce timer and its viewer and user fetches are left out. The settled query and the arrival of the viewer are `ChangeFilters` and `ViewerLoaded` calls. `pageInfoRef` always equals the `pageInfo` state, so one field models both.
- LinearPicker.ErrorText: an error `message` that is not a string goes through `JSON.stringify`. The model takes the message as an optional string, so that conversion is left out.
- Planner.IsCircular: the JavaScript call stack becomes a `fuel` bound. `None` stands for the stack overflow a cyclic list would cause. Its answers are proved right whenever it returns, and it always returns on an acyclic list given enough fuel.
- UseDevice.DeviceHook.LockPhone, UseDevice.DeviceHook.UnlockPhone, UseDevice.DeviceHook.SyncState, UseDevice.DeviceHook.Connect, UseDevice.DeviceHook.Disconnect, UseDevice.DeviceHook.ResetVoice: replay the service's calls with the corrected dial handler (`HandleSince(from, false)`), not the handler of useDevice.ts:99 as written; the as-written hook is `Handle(n, true)`, `HandleSince(from, true)` and `Replay(h, ns, true)`, and `ReplayWithoutDial` shows the two agree on every run of calls without a dial turn.
- UseDevice.DeviceHook.Connect: the hook's `catch` around `connectDevice` is unreachable, because the service catches every failure itself and returns `false`. The model has no path that throws there.
- NowRail.TaskToggleEffect: when several tasks share the id, every one of them flips, as the `map` in the source does. The refusal and the log message follow the first of them, as `find` does.
- Both pairs of divergent rules are kept as written. The planner's blocked rule treats a missing dependency as blocking and the rail's does not; `NowRail.BlockedRulesCompared` relates them. `App.tsx`'s session end always uses 5400 s outside FOCUS, while the reducer respects the emergency mode; `App.EndRulesCompared` relates them.
- Numbers are unbounded integers. The byte packing writes `& 0xFF` and `>> 8` out as `% 256` and `/ 256`. A JavaScript number above 2^53 is not modelled.

## Findings

| source | as written | input that shows it | evidently intended | confidence | as-written member | corrected member |
|---|---|---|---|---|---|---|
| hooks/useDevice.ts:99 | the hook's `onDialRotated` adds the delta to its dial position, which `onStateChange` has already copied from the service after the service added the same delta | from dial position 0, the event frame `[0xBB, 0x10, 0x00, 0x02, 0x01, 0x00]` (a turn of +1) leaves the service at 1 and the hook showing 2 | the hook shows the service's dial position, counting each turn once | not executed | UseDevice.DialStepShownAsTwo | UseDevice.DialShownOnce |
