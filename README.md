# Smart-home safety system: controller and dashboard core in Dafny

The system has two parts.

- An ESP32 controller (`arduino.cpp`) reads smoke, air-quality, light, rain
  and motion sensors and a panic button. It drives a window servo, a fan
  relay, a light relay and a buzzer, and publishes a JSON reading over MQTT
  every five seconds. A bridge (`mqtt.py`) stores each reading in a document
  store.
- A Streamlit dashboard (`dashboard.py`) reads those records back in a
  background fetch loop and keeps a deduplicated alert journal. When a record
  carries the panic flag it records 30 seconds of camera frames.

This project models the core of both parts and proves what they promise.

| file | module | what it models |
|---|---|---|
| `wrappers.dfy` | `Wrappers` | `Option` and `Result` |
| `records.dfy` | `Records` | a stored reading as a map from field names to JSON-like values, and the dashboard's panic test |
| `alerts.dfy` | `Alerts` | `log_alert`, the 100-entry alert deque with its deduplication map, and "Clear Alerts" |
| `acquisition.dfy` | `Acquisition` | the `shared` fetch dictionary, `should_fetch_data_thread`, `fetch_firestore_data_thread` and the demo/live `fetch_loop` |
| `recorder.dfy` | `Recorder` | the panic check, the emergency recorder with its capture thread and stop timer, and the camera thread's flags |
| `status.dfy` | `Status` | `get_alert_icon` and the colour bands of the live sensor panel |
| `controller.dfy` | `Controller` | one pass of the sketch's `loop()`, `triggerEmergency`, `playTone` and the wrap-around of `millis()` |
| `telemetry.dfy` | `Telemetry` | what the dashboard sees of a published reading once it is decoded from JSON |

Each operation that updates state in place is a method of a class: `Alerts.AlertLog`, `Acquisition.SharedStore`, `Recorder.Session` and `Controller.Esp32`. Each method's contract ties its new state to a function on a datatype, and the lemmas are stated about those functions.

The background threads have no scheduler in the model. Instead, each thread's effect is one step (`Recorder.Event`) that may happen at any instant. Invariants are proved over every interleaving of those steps.

## Model

| member | source | states |
|---|---|---|
| Records.IsPanic | PROJECT/dashboard.py:328-336 | a record signals panic exactly when its `panic` or `emergency` field is `True`, `1` or the string "true"; an empty record never does |
| Alerts.KeysCollide | PROJECT/dashboard.py:189 | the key `f"{event_type}_{trigger_source}"` is shared by different (type, source) pairs |
| Alerts.CollidingKeysAlternate | PROJECT/dashboard.py:189-199 | two pairs sharing a key overwrite each other's stored triple, so logged alternately each call appends again |
| Alerts.KeyInjectiveWithoutUnderscore | PROJECT/dashboard.py:189 | when neither event type contains `_`, equal keys mean equal type and source |
| Alerts.Newest | PROJECT/dashboard.py:70 | the window a `deque(maxlen=100)` keeps has length min(len, 100) |
| Alerts.BoundedAppend | PROJECT/dashboard.py:70 | appending to the bounded deque keeps the newest 100 entries and ends with the new one |
| Alerts.LogAlert | PROJECT/dashboard.py:187-200 | a call whose key is absent or whose stored triple differs appends one alert and stores the triple; a repeat changes nothing; the key set gains exactly the call's key |
| Alerts.OtherKeysUnchanged | PROJECT/dashboard.py:187-200 | a call leaves the triples stored under other keys as they were |
| Alerts.LogCall | PROJECT/dashboard.py:187-200 | a logged call keeps the journal well formed (at most 100 entries) |
| Alerts.LogAll | PROJECT/dashboard.py:187-200 | any sequence of calls keeps the journal well formed |
| Alerts.Appended | PROJECT/dashboard.py:187-200 | the deque after a call is the newest 100 of the old deque plus what the call appends |
| Alerts.StoredStateSurvives | PROJECT/dashboard.py:190-195 | a stored triple survives every later call that does not overwrite it |
| Alerts.RepeatIsSuppressed | PROJECT/dashboard.py:190-195 | a triple logged once is not appended again, however many unrelated calls come between |
| Alerts.LogIsNewestWindow | PROJECT/dashboard.py:187-200 | after any sequence of calls the deque holds exactly the newest 100 of the alerts those calls accepted |
| Alerts.KeysNeverForgotten | PROJECT/dashboard.py:190-195 | the deduplication map only grows between clears |
| Alerts.AlertLog.constructor | PROJECT/dashboard.py:69-72 | the journal starts empty |
| Alerts.AlertLog.Log | PROJECT/dashboard.py:187-200 | `log_alert` updates the deque and map in place as `LogAlert` says |
| Alerts.AlertLog.Clear | PROJECT/dashboard.py:449-451 | "Clear Alerts" empties both the deque and the map |
| Acquisition.ShouldFetch | PROJECT/dashboard.py:552-562 | no fetch while the quota flag is under an hour old; otherwise the flag is dropped and a fetch is due when none was made yet or the interval has passed |
| Acquisition.Lower | PROJECT/dashboard.py:588 | lower-casing maps exactly the ASCII capitals and keeps the length |
| Acquisition.ContainsIff | PROJECT/dashboard.py:588 | the substring test holds exactly when the pattern occurs at some index |
| Acquisition.ResetDaily | PROJECT/dashboard.py:566-569 | a new day zeroes the read counter and records the date; nothing else changes |
| Acquisition.FetchFirestore | PROJECT/dashboard.py:564-591 | at 49000 reads no query is made and the quota flag is raised; a non-empty page replaces the cache and costs one page of reads; an empty page changes nothing; a failure whose message mentions the quota raises the flag; the result is always the cache |
| Acquisition.LoopTick | PROJECT/dashboard.py:596-647 | a demo tick installs the batch and never touches the quota bookkeeping; a live tick that is not due changes at most the quota flag; a due live tick queries the store for the newest readings, stamps the update time and, under the read ceiling, installs a non-empty page; the fetch counter rises by at most one |
| Acquisition.TickKeepsReadsBounded | PROJECT/dashboard.py:571-584 | one tick keeps the daily reads below the ceiling plus one page |
| Acquisition.RunKeepsReadsBounded | PROJECT/dashboard.py:571-584 | the daily reads never exceed the ceiling by more than one page, over any run of ticks |
| Acquisition.RunCounterMonotone | PROJECT/dashboard.py:596-644 | the fetch counter never decreases and rises by at most one per tick |
| Acquisition.QuotaSuppressesFetching | PROJECT/dashboard.py:552-557 | within the hour after the quota flag was raised, live ticks change nothing |
| Acquisition.DemoRunPreservesQuota | PROJECT/dashboard.py:603-635 | demo ticks cost no reads, leave the quota state alone, count every tick and leave the last batch cached |
| Acquisition.SharedStore.constructor | PROJECT/dashboard.py:91-104 | the `shared` dictionary's initial values, which satisfy the read bound |
| Acquisition.SharedStore.SetDemoMode | PROJECT/dashboard.py:667-668 | the demo switch changes only the demo flag |
| Acquisition.SharedStore.ShouldFetchDataThread | PROJECT/dashboard.py:552-562 | the in-place update and answer are those of `ShouldFetch` |
| Acquisition.SharedStore.FetchFirestoreDataThread | PROJECT/dashboard.py:564-591 | the in-place update and returned data are those of `FetchFirestore` |
| Acquisition.SharedStore.FetchLoopTick | PROJECT/dashboard.py:598-644 | one loop iteration updates the dictionary as `LoopTick` says and keeps the read bound |
| Acquisition.SharedStore.FetchLoop | PROJECT/dashboard.py:596-647 | the loop over a run of ticks ends in the state `Run` gives, and keeps the read bound |
| Recorder.Describe | PROJECT/dashboard.py:309-316 | a saved recording's descriptor has the frame count, a duration of count / 10 s, the timestamped file name and the save instant |
| Recorder.StartRecording | PROJECT/dashboard.py:229-262 | a no-op while recording; otherwise the flags are raised, the buffer emptied, "recording_started" logged, and a capture thread and stop timer are started exactly when the camera slot holds a frame |
| Recorder.KeepNewest | PROJECT/dashboard.py:319 | `saved_recordings[:20]` keeps the first 20 descriptors |
| Recorder.SaveVideo | PROJECT/dashboard.py:285-326 | no frames: nothing; a successful encode puts the descriptor first, keeps at most 20 and logs "recording_saved" with the file name; a failed encode logs "recording_error" with the message and saves nothing |
| Recorder.Detached | PROJECT/dashboard.py:266-272 | stopping lowers both flags, sets the stop signal, empties the buffer and detaches the capture thread |
| Recorder.StopRecording | PROJECT/dashboard.py:264-283 | a no-op when not recording; otherwise the frames taken are saved, or "recording_error" is logged when there are none |
| Recorder.Trigger | PROJECT/dashboard.py:345-354 | a trigger logs the panic-button and the emergency alert, then the recording alert when it starts a recording, which it does only when the slot holds a frame and none runs; it stamps the cooldown and leaves a running recording as it is |
| Recorder.CheckPanic | PROJECT/dashboard.py:328-360 | returns the panic test; fires on a false-to-true edge outside the 60 s cooldown and otherwise only records the panic state; a recording starts only on a trigger with a frame present |
| Recorder.WithFallback | PROJECT/dashboard.py:364-368 | the page appends the slot's frame itself only when recording with no capture thread marked running |
| Recorder.CaptureFrame | PROJECT/dashboard.py:362-374 | after the fallback append, a recording 30 s old or more is stopped |
| Recorder.CaptureTaskTick | PROJECT/dashboard.py:219-224 | one pass of the capture thread appends the slot's frame while its signal is clear and 30 s have not passed, and then the thread keeps running even when the slot is empty; once the signal is set or 30 s have passed it ends the thread; nothing else changes |
| Recorder.TimerTick | PROJECT/dashboard.py:254-258 | the oldest stop timer, 30 s after it was armed, stops whatever recording is running |
| Recorder.StartCamera | PROJECT/dashboard.py:533-543 | starting is a no-op while the camera thread runs; otherwise the flag is raised and the stop signal cleared |
| Recorder.StopCamera | PROJECT/dashboard.py:545-549 | stopping is unconditional: flag down, signal set, slot emptied |
| Recorder.PublishFrame | PROJECT/dashboard.py:519-525 | the camera thread stores a frame only while it runs with its signal clear |
| Recorder.Apply | PROJECT/dashboard.py:745-749 | every step of the page or of a thread keeps the session well formed (at most 20 descriptors, bounded journal) |
| Recorder.RunAll | PROJECT/dashboard.py:745-749 | every interleaving of steps keeps the session well formed |
| Recorder.InitialConsistent | PROJECT/dashboard.py:51-67 | the initial session satisfies the recorder invariant |
| Recorder.ApplyKeepsConsistent | PROJECT/dashboard.py:229-374 | every step keeps the invariant: the thread flag mirrors the recording flag, and an idle recorder has an empty buffer and no capture thread |
| Recorder.RunKeepsConsistent | PROJECT/dashboard.py:229-374 | the invariant holds after every interleaving of steps |
| Recorder.FallbackNeverAppends | PROJECT/dashboard.py:364-368 | in a reachable session the fallback append of `capture_emergency_frame` never happens |
| Recorder.RecordingEndsAtDeadline | PROJECT/dashboard.py:370-374 | a frame check 30 s after the start ends a reachable recording with the buffer emptied, and a successful save puts its descriptor first |
| Recorder.ApplyKeepsCooldown | PROJECT/dashboard.py:338-354 | a step that does not fire the trigger leaves the cooldown stamp alone |
| Recorder.CooldownSuppresses | PROJECT/dashboard.py:338-345 | within 60 s of a trigger no step fires another one |
| Recorder.FlickerFiresOnce | PROJECT/dashboard.py:344-358 | a panic edge outside the cooldown fires exactly once in the following minute, however the panic field flickers |
| Recorder.TriggerLogsBothAlerts | PROJECT/dashboard.py:347-348 | a trigger stores the triples of both the panic-button and the emergency alert, whether or not a recording starts |
| Recorder.RepeatTriggerLogsNoPanic | PROJECT/dashboard.py:347-348 | as written, a trigger on a journal that already holds both triples appends neither alert, only the recording alert if it starts a recording |
| Recorder.SecondTriggerLogsNothing | PROJECT/dashboard.py:347-348 | as written, a second trigger leaves the alert journal as the first left it |
| Recorder.RecordingAlertKeepsMark | PROJECT/dashboard.py:237 | the recorder's own alerts leave the triggers' stored triples alone |
| Recorder.StopKeepsMark | PROJECT/dashboard.py:264-326 | stopping and saving a recording leaves the triggers' stored triples alone |
| Recorder.ApplyKeepsMark | PROJECT/dashboard.py:187-200 | every event except "Clear Alerts" leaves the triggers' stored triples alone |
| Recorder.RunKeepsMark | PROJECT/dashboard.py:187-200 | so does every run of events without "Clear Alerts" |
| Recorder.LaterPanicLogsNothing | PROJECT/dashboard.py:347-348 | as written, after one trigger no later trigger appends a panic or emergency alert until the alerts are cleared |
| Recorder.Unmark | PROJECT/dashboard.py:191-192 | corrected: the deduplication map without the triggers' two keys, the deque unchanged |
| Recorder.UnmarkedPanicAlerts | PROJECT/dashboard.py:347-348 | corrected: with those keys forgotten, both alerts are appended in order, oldest evicted first |
| Recorder.TriggerCorrected | PROJECT/dashboard.py:345-354 | corrected: the trigger differs from the written one only in its journal, and stores both triples |
| Recorder.CorrectedTriggerAlwaysLogs | PROJECT/dashboard.py:347-348 | corrected: every trigger, a repeat included, puts both alerts with its own instant in the log |
| Recorder.CaptureRunIdle | PROJECT/dashboard.py:219 | a capture thread that has ended stays ended |
| Recorder.CaptureRunAppends | PROJECT/dashboard.py:219-224 | the capture thread only appends to the buffer, at most one frame per pass, and touches nothing else |
| Recorder.CaptureRunHonoursStop | PROJECT/dashboard.py:219 | once the stop signal is set the thread appends nothing |
| Recorder.CaptureRunHonoursDeadline | PROJECT/dashboard.py:219 | no frame is taken on a pass 30 s or more after the thread started |
| Recorder.CaptureRunTakesEveryFrame | PROJECT/dashboard.py:219-224 | a running thread with its signal clear, before its deadline, takes every frame it sees, in order |
| Recorder.Session.constructor | PROJECT/dashboard.py:44-72 | the session fields' initial values |
| Recorder.Session.StartEmergencyRecording | PROJECT/dashboard.py:229-262 | the in-place update is that of `StartRecording` |
| Recorder.Session.SaveEmergencyVideo | PROJECT/dashboard.py:285-326 | the in-place update is that of `SaveVideo` |
| Recorder.Session.StopEmergencyRecording | PROJECT/dashboard.py:264-283 | the in-place update is that of `StopRecording` |
| Recorder.Session.CheckAndHandlePanic | PROJECT/dashboard.py:328-360 | the in-place update and result are those of `CheckPanic` |
| Recorder.Session.TriggerEmergencyProtocol | PROJECT/dashboard.py:346-354 | the new-panic branch updates the session as `Trigger` says |
| Recorder.Session.CaptureEmergencyFrame | PROJECT/dashboard.py:362-374 | the in-place update is that of `CaptureFrame` |
| Recorder.Session.RecordingThreadStep | PROJECT/dashboard.py:219-224 | one pass of the capture thread, as `CaptureTaskTick` says |
| Recorder.Session.EmergencyRecordingThread | PROJECT/dashboard.py:213-227 | the capture loop, run until its thread ends or the observations run out, leaves the state `CaptureRun` gives |
| Recorder.Session.StopTimerStep | PROJECT/dashboard.py:254-258 | the stop timer's wake-up, as `TimerTick` says |
| Recorder.Session.StartCameraThread | PROJECT/dashboard.py:533-543 | the in-place update is that of `StartCamera` |
| Recorder.Session.StopCameraThread | PROJECT/dashboard.py:545-549 | the in-place update is that of `StopCamera` |
| Recorder.Session.CameraPublishesFrame | PROJECT/dashboard.py:519-525 | the camera thread's store of a frame, as `PublishFrame` says |
| Recorder.Session.ClearAlerts | PROJECT/dashboard.py:449-451 | "Clear Alerts" empties the journal and leaves the recorder alone |
| Status.AlertIcon | PROJECT/dashboard.py:202-210 | the table's icon for a listed event type, the pushpin for any other |
| Status.PushpinMeansUnlisted | PROJECT/dashboard.py:202-210 | the pushpin appears exactly for unlisted event types |
| Status.RecorderAlertIcons | PROJECT/dashboard.py:202-210 | the recorder's alerts have their own icons, except "recording_error", which gets the pushpin |
| Status.GasColour | PROJECT/dashboard.py:773-774 | green exactly below 2000, red exactly from 3000; NaN fails both tests and shows red |
| Status.GasColourMonotone | PROJECT/dashboard.py:773-774 | a higher reading never gets a milder colour |
| Status.LightMoon | PROJECT/dashboard.py:775 | the four light bands cut at 500, 1500 and 2500; NaN fails every test and shows the brightest band |
| Status.LightMoonMonotone | PROJECT/dashboard.py:775 | a higher reading never gets a darker band |
| Status.Reading | PROJECT/dashboard.py:770-772 | a missing field reads as 0, an integer as itself, a boolean as 0 or 1 and pandas' NaN as NaN; a string or `None` makes the comparison fail |
| Status.PanelWith | PROJECT/dashboard.py:769-775 | the panel exists exactly when every compared reading is a number, its bands are those of the readings, and rain shows when the `rain` field is truthy |
| Status.StatusPanelAsWritten | PROJECT/dashboard.py:772-775 | as written, a record without `ldr` always shows the darkest light band, and one whose `ldr` pandas filled with NaN the brightest |
| Status.LightReading | PROJECT/dashboard.py:772 | corrected: the light level is read from `ldr`, or from `light` when `ldr` is absent |
| Status.StatusPanel | PROJECT/dashboard.py:769-775 | corrected: agrees with the written panel when `ldr` is present, and bands `light` otherwise |
| Controller.Elapsed | PROJECT/arduino.cpp:233 | the unsigned 32-bit difference of two `millis()` readings |
| Controller.ElapsedAcrossWrap | PROJECT/arduino.cpp:292 | the unsigned difference is the true elapsed time whenever that is under 2^32 ms, even across a counter wrap |
| Controller.Trigger | PROJECT/arduino.cpp:141-152 | `triggerEmergency` starts the emergency, stamps its start, shuts the window and sounds the 1200 Hz tone |
| Controller.WindowPhase | PROJECT/arduino.cpp:257-277 | the window flag becomes "shut wanted", and the servo is written only when the flag changes |
| Controller.BackKeepsWindow | PROJECT/arduino.cpp:279-339 | the blocks after window control never move the servo or the window flag |
| Controller.BackQuietOutsideEmergency | PROJECT/arduino.cpp:300-314 | outside an emergency the later blocks never sound the 1 kHz beep |
| Controller.BackThrottle | PROJECT/arduino.cpp:316-339 | the MQTT block publishes exactly when due and connected, then the record of the final state, and restarts its timer exactly when due |
| Controller.BackPayload | PROJECT/arduino.cpp:316-339 | what the later blocks publish is the reading of their own final state |
| Controller.PublishedPayload | PROJECT/arduino.cpp:316-339 | a pass publishes the reading of the state it ends in |
| Controller.TriggerRule | PROJECT/arduino.cpp:213-222 | an emergency starts exactly on a debounced press, stamps its start and shuts the window; a running emergency is not restarted |
| Controller.WindowRule | PROJECT/arduino.cpp:257-277 | after a pass the window is shut exactly when it rains, the air is bad or an emergency runs |
| Controller.FrontServo | PROJECT/arduino.cpp:213-277 | after panic, smoke and window blocks the servo stands where the window flag says |
| Controller.ServoTracksWindow | PROJECT/arduino.cpp:200-343 | after any pass the servo stands where the window flag says |
| Controller.SmokeAlarmRule | PROJECT/arduino.cpp:246-255 | outside an emergency the 1 kHz beep sounds exactly when the warmed-up smoke sensor exceeds 4000 |
| Controller.MotionRule | PROJECT/arduino.cpp:279-290 | motion outside an emergency wakes the system, stamps the time, consumes the flag and turns the light on exactly when it is dark |
| Controller.MotionPendingDuringEmergency | PROJECT/arduino.cpp:282 | during an emergency a motion event stays pending |
| Controller.IdleRule | PROJECT/arduino.cpp:292-298 | an active system without new motion goes idle, fan and light relays both off, more than 2 s after the last motion |
| Controller.ActiveRule | PROJECT/arduino.cpp:279-298 | after a pass the system is active exactly when it took a motion event, or was active and at most 2 s passed since the last motion |
| Controller.TimeoutRule | PROJECT/arduino.cpp:300-314 | an emergency ends exactly when more than 15 s passed since it started, and the window stays shut |
| Controller.StepIsSafe | PROJECT/arduino.cpp:200-343 | after any pass an active emergency has the window shut |
| Controller.ThrottleRule | PROJECT/arduino.cpp:316-339 | a pass publishes exactly when due and connected, and then the record of its final state; the message timer restarts exactly when due |
| Controller.FrontNeverPublishes | PROJECT/arduino.cpp:213-277 | the blocks before comfort send nothing to the broker |
| Controller.QuietWithinInterval | PROJECT/arduino.cpp:317 | while no pass comes more than 5 s after the last stamp, nothing is published and the stamp stays |
| Controller.PayloadFields | PROJECT/arduino.cpp:321-328 | the published keys in order, and the meaning of the emergency, window and motion fields |
| Controller.PlayTone | PROJECT/arduino.cpp:123-134 | `playTone` writes `frequency * duration / 1000` cycles of high, half-period delay, low, half-period delay |
| Controller.Esp32.constructor | PROJECT/arduino.cpp:157-195 | the globals' initial values and the outputs `setup()` drives |
| Controller.Esp32.MotionDetect | PROJECT/arduino.cpp:136-139 | the interrupt handler only raises the motion flag |
| Controller.Esp32.TriggerEmergency | PROJECT/arduino.cpp:141-152 | the in-place update and commands are those of `Trigger` |
| Controller.Esp32.PanicButton | PROJECT/arduino.cpp:213-222 | the panic block, as `PanicPhase` says |
| Controller.Esp32.SmokeAlarmBlock | PROJECT/arduino.cpp:246-255 | the smoke block changes no global and issues `SmokePhase`'s beep |
| Controller.Esp32.WindowControl | PROJECT/arduino.cpp:257-277 | the window block, as `WindowPhase` says |
| Controller.Esp32.SmartComfort | PROJECT/arduino.cpp:279-290 | the comfort block, as `ComfortPhase` says |
| Controller.Esp32.IdleTimeout | PROJECT/arduino.cpp:292-298 | the idle timeout, as `IdlePhase` says |
| Controller.Esp32.EmergencyMode | PROJECT/arduino.cpp:300-314 | the emergency block, as `EmergencyPhase` says |
| Controller.Esp32.MqttBlock | PROJECT/arduino.cpp:316-339 | the MQTT block, as `MqttPhase` says |
| Controller.Esp32.Loop | PROJECT/arduino.cpp:200-343 | one pass of `loop()` updates the globals and issues the commands of `Step` |
| Telemetry.DecodeKeys | PROJECT/mqtt.py:27 | a decoded document has exactly the document's keys |
| Telemetry.DecodeLastWins | PROJECT/mqtt.py:27 | the value decoded for a key is that of its last occurrence |
| Telemetry.DecodedPayload | PROJECT/mqtt.py:27 | the stored record of a reading, field by field |
| Telemetry.PanicSeenIffEmergency | PROJECT/dashboard.py:330-336 | the dashboard sees panic in a controller reading exactly when the controller's emergency is active |
| Telemetry.PublishedRecordPanic | PROJECT/arduino.cpp:328 | a reading a pass publishes shows panic exactly when the emergency is still active at the pass's end |
| Telemetry.LiveLightBandAsWritten | PROJECT/dashboard.py:772-775 | as written, every controller reading shows the darkest light band |
| Telemetry.LiveLightBandCorrected | PROJECT/dashboard.py:769-775 | corrected, a controller reading's bands follow its light, smoke, air and rain values |

## Left out

- Rendering: the Streamlit page, charts, tables, the energy computation and `calculate_energy_usage` (floating point and pandas) are not modelled.
- The document-store client is not modelled. A query's answer is the `response` parameter of `FetchFirestore`, and a failure is an error message. The demo generator's random batch is the `demoBatch` parameter.
- OpenCV is not modelled: opening the camera, reading frames and encoding the video file. The encode outcome is the `encode` parameter of `SaveVideo`, and a frame is an opaque pixel sequence.
- The recordings directory and the `filepath` field of a descriptor are not modelled.
- The camera thread's `frame_id` counter is not modelled. Nothing in the core reads it.
- Threads and locks are modelled as interleaved atomic steps. A race inside a step is not captured, such as a camera thread that outlives a stop and a quick restart.
- Controller.Esp32.MotionDetect: the motion interrupt (PROJECT/arduino.cpp:136-139) sets its volatile flag only between passes of `loop()`. An interrupt landing between the test of the flag and its clear inside the comfort block is lost on the board, and the model does not capture that.
- `time.sleep` calls and the 0.2 s wait in `stop_emergency_recording` are not modelled.
- Clocks are parameters. Dashboard instants are whole seconds and days are day numbers, so sub-second comparisons are not captured.
- The failed-fetch counter and the console output are not modelled.
- Acquisition.Lower: lower-cases ASCII letters only, because Python's `str.lower` case-folds all of Unicode and that table is not modelled.
- Recorder.PanicDetails: the panic text's leading glyph is spelled with the characters the dashboard file holds, not with the glyph they encode.
- Status.AlertIcon: icons are named values, not the glyphs, because the file holds them as mis-decoded bytes.
- Within one pass of `loop()` every `millis()` read returns the same `now`. The delays of the panic debounce, the tones and the emergency flash are not modelled.
- WiFi and MQTT connection handling is not modelled, nor the 2 s debug print, pin modes, timer allocation, or the servo attach in `setup()`. Only the connected flag is an input.
- Sensor values arrive as inputs of each pass. `analogRead` ranges are not constrained.
- Controller.PlayTone: requires `frequency * duration` to fit a signed 32-bit `int`, since in C an overflowing product is undefined behaviour; every call in the sketch fits.
- The dashboard's table building (PROJECT/dashboard.py:737-743) is not modelled: `latest` is a given record. A field that the record lacks but another record of the batch has holds NaN (`VNaN`); pandas' conversion of integer columns to floats is not modelled.
- The bridge's added `timestamp` field is not modelled. The dashboard's status panel does not read it.

## Findings

| source | as written | input that shows it | evidently intended | confidence | as-written member | corrected member |
|---|---|---|---|---|---|---|
| PROJECT/dashboard.py:772 | the panel reads the light level from the `ldr` field, but the controller publishes it as `light` (PROJECT/arduino.cpp:324) and the bridge stores the document unchanged, so for live readings the field is missing and reads as 0 | any live reading, e.g. one with `light` = 3000: it shows the new-moon band and the value 0 | band the light level the controller published | not executed; high | Telemetry.LiveLightBandAsWritten (with Status.StatusPanelAsWritten) | Status.StatusPanel, with Telemetry.LiveLightBandCorrected |
| PROJECT/dashboard.py:347-348 | the panic-button and emergency alerts have constant texts, so the deduplication map suppresses them on every trigger after the first until the alerts are cleared | a panic, its recording saved, then a second panic an hour later: the log gains no alert for the second panic | every trigger appends both alerts | not executed; medium | Recorder.LaterPanicLogsNothing (with Recorder.SecondTriggerLogsNothing) | Recorder.TriggerCorrected, with Recorder.CorrectedTriggerAlwaysLogs |

`Recorder.CheckPanic`, `Recorder.Session` and the status panel keep the written behaviour of both rows, so that their contracts describe the dashboard as it is. The corrected members stand beside them.
