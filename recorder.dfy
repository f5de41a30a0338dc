/** The dashboard's panic-triggered emergency recorder and the camera flags
    it depends on.

    The session fields (`emergency_recording`, `emergency_frames`,
    `saved_recordings`, `last_panic_state`, `panic_cooldown`, the camera frame
    slot, ...) are the class `Session`; their values are the datatype `Rec`,
    and each operation is specified by a function on `Rec`. The background
    threads (the 10 Hz capture thread, the 30 s stop timer, the camera
    producer) appear as steps that the environment may take at any instant.

    Instants are whole seconds. */
module Recorder {
  import opened Wrappers
  import opened Records
  import Alerts

  /** Length of an emergency recording, in seconds. */
  const RecordSeconds: int := 30
  /** No new trigger within this many seconds of the last one. */
  const PanicCooldown: int := 60
  /** Descriptors kept in `saved_recordings`. */
  const MaxRecordings: nat := 20
  /** Playback rate of the encoded video, frames per second. */
  const PlaybackFps: nat := 10

  const CameraSource: string := "Emergency Camera"
  const StartedDetails: string := "Auto-recording started due to panic button (30 seconds)"
  const NoFramesDetails: string := "No frames captured - ensure camera is enabled"
  /** The panic alert's text; its leading glyph is written with the
      characters the source file holds. */
  const PanicDetails: string := "\U{F8FF}\U{FC}\U{F6}\U{AE} EMERGENCY! Panic button activated!"
  const EmergencyDetails: string := "Emergency mode activated - Window closed, alarm triggered"

  /** A camera frame (an RGB image in the source). */
  datatype Frame = Frame(pixels: seq<int>)

  /** An entry of `saved_recordings`. */
  datatype RecordingInfo = RecordingInfo(filename: string, timestamp: int, duration: real, frameCount: nat, kind: string)

  /** `f"emergency_{timestamp}.avi"`, `stamp` being the formatted instant. */
  function Filename(stamp: string): string
  {
    "emergency_" + stamp + ".avi"
  }

  /** The descriptor of a saved recording: its duration is the frame count
      over the playback rate. */
  function Describe(frames: seq<Frame>, now: int, stamp: string): (info: RecordingInfo)
    ensures info.frameCount == |frames|
    ensures info.duration * PlaybackFps as real == |frames| as real
    ensures info.filename == Filename(stamp) && info.timestamp == now
  {
    RecordingInfo(Filename(stamp), now, |frames| as real / PlaybackFps as real, |frames|, "PANIC_EMERGENCY")
  }

  /** The recording fields of the session. */
  datatype Capture = Capture(
    recording: bool,            // emergency_recording
    recordStart: Option<int>,   // emergency_record_start
    frames: seq<Frame>,         // emergency_frames
    threadRunning: bool,        // emergency_recording_thread_running
    stopFlag: bool,             // emergency_stop_flag is set
    task: Option<int>,          // start instant of a capture thread still appending to `frames`
    timers: seq<int>)           // arming instants of pending 30 s stop timers, oldest first

  /** The camera fields of the session. */
  datatype Camera = Camera(
    running: bool,              // camera_thread_running
    stopFlag: bool,             // camera_stop_flag is set
    slot: Option<Frame>)        // camera_frame_container['frame']

  /** The recorder's part of the session state. */
  datatype Rec = Rec(
    journal: Alerts.Journal,
    capture: Capture,
    saved: seq<RecordingInfo>,  // saved_recordings, newest first
    lastPanic: bool,            // last_panic_state
    cooldown: Option<int>,      // panic_cooldown
    camera: Camera)
  {
    ghost predicate Valid()
    {
      journal.Valid() && |saved| <= MaxRecordings
    }
  }

  /** The session as the dashboard initialises it. */
  const Initial: Rec :=
    Rec(Alerts.Empty, Capture(false, None, [], false, false, None, []), [], false, None, Camera(false, false, None))

  function Log(r: Rec, now: int, eventType: string, triggerSource: string, details: string): (r': Rec)
    requires r.Valid()
    ensures r'.Valid() && r' == r.(journal := r'.journal)
    ensures r'.journal == Alerts.LogAlert(r.journal, now, eventType, triggerSource, details)
  {
    r.(journal := Alerts.LogAlert(r.journal, now, eventType, triggerSource, details))
  }

  /** The flags `start_emergency_recording` sets before logging. */
  function Begin(r: Rec, now: int): (r': Rec)
    ensures r'.Valid() == r.Valid()
  {
    r.(capture := r.capture.(recording := true, recordStart := Some(now), frames := [], stopFlag := false))
  }

  /** A capture thread and a stop timer started at `now`. */
  function Arm(r: Rec, now: int): (r': Rec)
    ensures r'.Valid() == r.Valid()
  {
    r.(capture := r.capture.(threadRunning := true, task := Some(now), timers := r.capture.timers + [now]))
  }

  /** `start_emergency_recording`: a capture thread and a stop timer are
      started only when the camera slot holds a frame. */
  function StartRecording(r: Rec, now: int): (r': Rec)
    requires r.Valid()
    ensures r'.Valid()
    ensures r.capture.recording ==> r' == r
    ensures !r.capture.recording ==>
              r' == r.(journal := r'.journal, capture := r'.capture) &&
              r'.journal == Alerts.LogAlert(r.journal, now, "recording_started", CameraSource, StartedDetails)
    ensures !r.capture.recording && r.camera.slot.Some? ==>
              r'.capture == Capture(true, Some(now), [], true, false, Some(now), r.capture.timers + [now])
    ensures !r.capture.recording && r.camera.slot.None? ==>
              r'.capture == r.capture.(recording := true, recordStart := Some(now), frames := [], stopFlag := false)
  {
    if r.capture.recording then r
    else
      var r1 := Log(Begin(r, now), now, "recording_started", CameraSource, StartedDetails);
      if r1.camera.slot.Some? then Arm(r1, now) else r1
  }

  /** The first `MaxRecordings` descriptors. */
  function KeepNewest(saved: seq<RecordingInfo>): (r: seq<RecordingInfo>)
    ensures |r| == if |saved| <= MaxRecordings then |saved| else MaxRecordings
    ensures r == saved[..|r|]
  {
    if |saved| <= MaxRecordings then saved else saved[..MaxRecordings]
  }

  /** The bookkeeping of `save_emergency_video`; `encode` is the outcome of
      writing the video file. */
  function SaveVideo(r: Rec, frames: seq<Frame>, now: int, stamp: string, encode: Result<()>): (r': Rec)
    requires r.Valid()
    ensures r'.Valid()
    ensures r' == r.(journal := r'.journal, saved := r'.saved)
    ensures frames == [] ==> r' == r
    ensures frames != [] && encode.Ok? ==>
              |r'.saved| == (if |r.saved| < MaxRecordings then |r.saved| + 1 else MaxRecordings) &&
              r'.saved[0] == Describe(frames, now, stamp) &&
              r'.saved[1..] == r.saved[..|r'.saved| - 1]
    ensures frames != [] && encode.Ok? ==>
              r'.journal == Alerts.LogAlert(r.journal, now, "recording_saved", CameraSource, "Recording saved: " + Filename(stamp))
    ensures frames != [] && encode.Err? ==>
              r'.saved == r.saved &&
              r'.journal == Alerts.LogAlert(r.journal, now, "recording_error", CameraSource, "Failed to save: " + encode.message)
  {
    if frames == [] then r
    else
      match encode
      case Ok(_) =>
        var r1 := r.(saved := KeepNewest([Describe(frames, now, stamp)] + r.saved));
        Log(r1, now, "recording_saved", CameraSource, "Recording saved: " + Filename(stamp))
      case Err(message) =>
        Log(r, now, "recording_error", CameraSource, "Failed to save: " + message)
  }

  /** The recording fields right after `stop_emergency_recording` has taken
      the frames: flags down, stop signal set, buffer emptied, the capture
      thread's list no longer the session's. */
  function Detached(c: Capture): (c': Capture)
    ensures !c'.recording && !c'.threadRunning && c'.stopFlag && c'.frames == [] && c'.task == None
    ensures c'.recordStart == c.recordStart && c'.timers == c.timers
  {
    c.(recording := false, threadRunning := false, stopFlag := true, frames := [], task := None)
  }

  /** `stop_emergency_recording` */
  function StopRecording(r: Rec, now: int, stamp: string, encode: Result<()>): (r': Rec)
    requires r.Valid()
    ensures r'.Valid()
    ensures !r.capture.recording ==> r' == r
    ensures r.capture.recording ==> r'.capture == Detached(r.capture)
    ensures r.capture.recording && r.capture.frames == [] ==>
              r' == r.(capture := Detached(r.capture),
                       journal := Alerts.LogAlert(r.journal, now, "recording_error", CameraSource, NoFramesDetails))
    ensures r.capture.recording && r.capture.frames != [] ==>
              r' == SaveVideo(r.(capture := Detached(r.capture)), r.capture.frames, now, stamp, encode)
  {
    if !r.capture.recording then r
    else
      var r1 := r.(capture := Detached(r.capture));
      if r.capture.frames != [] then SaveVideo(r1, r.capture.frames, now, stamp, encode)
      else Log(r1, now, "recording_error", CameraSource, NoFramesDetails)
  }

  /** The last trigger was less than a minute before `now`. */
  predicate CooldownActive(r: Rec, now: int)
  {
    r.cooldown.Some? && now - r.cooldown.value < PanicCooldown
  }

  /** `check_and_handle_panic` fires: a false-to-true edge outside the cooldown. */
  predicate Fires(r: Rec, latest: Record, now: int)
  {
    IsPanic(latest) && !r.lastPanic && !CooldownActive(r, now)
  }

  /** The two alerts every trigger logs, in order. */
  function PanicAlerts(j: Alerts.Journal, now: int): (j': Alerts.Journal)
    requires j.Valid()
    ensures j'.Valid()
  {
    Alerts.LogAlert(Alerts.LogAlert(j, now, "panic_button", "PANIC BUTTON", PanicDetails),
                    now, "emergency", "Security System", EmergencyDetails)
  }

  /** What a trigger does: two alerts, a recording if a frame is present and
      none is running, the cooldown stamped. */
  function Trigger(r: Rec, now: int): (r': Rec)
    requires r.Valid()
    ensures r'.Valid() && r'.cooldown == Some(now) && r'.lastPanic == r.lastPanic
    ensures r'.saved == r.saved && r'.camera == r.camera
    ensures r'.journal == if r.camera.slot.Some? && !r.capture.recording
                          then Alerts.LogAlert(PanicAlerts(r.journal, now), now, "recording_started", CameraSource, StartedDetails)
                          else PanicAlerts(r.journal, now)
    ensures r.camera.slot.None? ==> r'.capture == r.capture
    ensures r.camera.slot.Some? && r.capture.recording ==> r'.capture == r.capture
    ensures r.camera.slot.Some? && !r.capture.recording ==>
              r'.capture == Capture(true, Some(now), [], true, false, Some(now), r.capture.timers + [now])
  {
    var r1 := Log(r, now, "panic_button", "PANIC BUTTON", PanicDetails);
    var r2 := Log(r1, now, "emergency", "Security System", EmergencyDetails);
    var r3 := if r2.camera.slot.Some? then StartRecording(r2, now) else r2;
    r3.(cooldown := Some(now))
  }

  /** `check_and_handle_panic(latest)`: the new state and whether panic is on. */
  function CheckPanic(r: Rec, latest: Record, now: int): (res: (Rec, bool))
    requires r.Valid()
    ensures res.0.Valid()
    ensures res.1 == IsPanic(latest) && res.0.lastPanic == IsPanic(latest)
    ensures Fires(r, latest, now) ==> res.0 == Trigger(r, now).(lastPanic := true)
    ensures !Fires(r, latest, now) ==> res.0 == r.(lastPanic := IsPanic(latest))
    // a recording is only started by a trigger, and only when the slot holds a frame
    ensures res.0.capture.recording && !r.capture.recording ==> r.camera.slot.Some? && Fires(r, latest, now)
  {
    var isPanic := IsPanic(latest);
    var r1 := if isPanic && !r.lastPanic && !CooldownActive(r, now) then Trigger(r, now) else r;
    (r1.(lastPanic := isPanic), isPanic)
  }

  /** `capture_emergency_frame` appends from the slot itself only when no
      capture thread is marked running. */
  predicate FallbackAppends(r: Rec)
  {
    r.capture.recording && !r.capture.threadRunning && r.camera.slot.Some?
  }

  /** The fallback append of `capture_emergency_frame`. */
  function WithFallback(r: Rec): (r': Rec)
    ensures r' == r.(capture := r'.capture) && r'.capture == r.capture.(frames := r'.capture.frames)
    ensures r'.capture.frames == if FallbackAppends(r) then r.capture.frames + [r.camera.slot.value] else r.capture.frames
  {
    if FallbackAppends(r) then r.(capture := r.capture.(frames := r.capture.frames + [r.camera.slot.value])) else r
  }

  /** The recording has run its 30 seconds. */
  predicate Expired(c: Capture, now: int)
  {
    c.recording && c.recordStart.Some? && now - c.recordStart.value >= RecordSeconds
  }

  /** `capture_emergency_frame`: the fallback append, then the stop once
      30 s have passed. */
  function CaptureFrame(r: Rec, now: int, stamp: string, encode: Result<()>): (r': Rec)
    requires r.Valid()
    ensures r'.Valid()
    ensures !Expired(r.capture, now) ==> r' == WithFallback(r)
    ensures Expired(r.capture, now) ==>
              r' == StopRecording(WithFallback(r), now, stamp, encode) && !r'.capture.recording
  {
    var r1 := WithFallback(r);
    if Expired(r1.capture, now) then StopRecording(r1, now, stamp, encode) else r1
  }

  /** One iteration of `emergency_recording_thread`: while its stop signal is
      clear and fewer than 30 s have passed it copies the slot's frame, if
      any; otherwise it ends. */
  function CaptureTaskTick(c: Capture, slot: Option<Frame>, now: int): (c': Capture)
    ensures c' == c.(frames := c'.frames, task := c'.task)
    ensures c'.frames == c.frames || (slot.Some? && c'.frames == c.frames + [slot.value])
    ensures c'.frames != c.frames ==> c.task.Some? && !c.stopFlag && now - c.task.value < RecordSeconds
    ensures c.task.Some? && !c.stopFlag && now - c.task.value < RecordSeconds && slot.Some? ==>
              c'.frames == c.frames + [slot.value]
    ensures c'.task == None || c'.task == c.task
    ensures c.task.Some? && (c.stopFlag || now - c.task.value >= RecordSeconds) ==> c'.task == None
    ensures c.task.Some? && !c.stopFlag && now - c.task.value < RecordSeconds ==> c'.task == c.task
  {
    match c.task
    case None => c
    case Some(start) =>
      if !c.stopFlag && now - start < RecordSeconds then
        if slot.Some? then c.(frames := c.frames + [slot.value]) else c
      else
        c.(task := None)
  }

  /** What the capture thread observes on one pass of its loop: the clock
      and the camera slot. */
  datatype Sample = Sample(now: int, slot: Option<Frame>)

  /** The capture thread's loop run over successive passes. */
  function CaptureRun(c: Capture, samples: seq<Sample>): Capture
    decreases |samples|
  {
    if samples == [] then c
    else CaptureRun(CaptureTaskTick(c, samples[0].slot, samples[0].now), samples[1..])
  }

  /** The oldest pending `stop_after_duration` timer wakes up 30 s after it
      was armed and stops whatever recording is running. */
  predicate TimerDue(c: Capture, now: int)
  {
    c.timers != [] && now - c.timers[0] >= RecordSeconds
  }

  function TimerTick(r: Rec, now: int, stamp: string, encode: Result<()>): (r': Rec)
    requires r.Valid()
    ensures r'.Valid()
    ensures TimerDue(r.capture, now) ==>
              r' == StopRecording(r.(capture := r.capture.(timers := r.capture.timers[1..])), now, stamp, encode) &&
              !r'.capture.recording
    ensures !TimerDue(r.capture, now) ==> r' == r
  {
    if TimerDue(r.capture, now) then
      StopRecording(r.(capture := r.capture.(timers := r.capture.timers[1..])), now, stamp, encode)
    else
      r
  }

  /** `start_camera_thread`: a no-op while the camera thread runs. */
  function StartCamera(c: Camera): (c': Camera)
    ensures c.running ==> c' == c
    ensures !c.running ==> c' == c.(running := true, stopFlag := false)
  {
    if c.running then c else c.(running := true, stopFlag := false)
  }

  /** `stop_camera_thread`: unconditional; the slot is emptied. */
  function StopCamera(c: Camera): (c': Camera)
    ensures !c'.running && c'.stopFlag && c'.slot == None
  {
    Camera(false, true, None)
  }

  /** The camera thread publishes a frame it has read, while it runs. */
  function PublishFrame(c: Camera, f: Frame): (c': Camera)
    ensures c.running && !c.stopFlag ==> c' == c.(slot := Some(f))
    ensures !(c.running && !c.stopFlag) ==> c' == c
  {
    if c.running && !c.stopFlag then c.(slot := Some(f)) else c
  }

  /** Everything that can happen to the recorder: a page refresh's panic
      check and frame check, a step of one of the background threads, the
      camera switch, and the "Clear Alerts" button. */
  datatype Event =
    | PanicCheck(latest: Record, now: int)
    | FrameCheck(now: int, stamp: string, encode: Result<()>)
    | CaptureStep(now: int)
    | TimerStep(now: int, stamp: string, encode: Result<()>)
    | CameraOn
    | CameraOff
    | CameraFrame(f: Frame)
    | ClearAlerts

  function Apply(r: Rec, e: Event): (r': Rec)
    requires r.Valid()
    ensures r'.Valid()
  {
    match e
    case PanicCheck(latest, now) => CheckPanic(r, latest, now).0
    case FrameCheck(now, stamp, encode) => CaptureFrame(r, now, stamp, encode)
    case CaptureStep(now) => r.(capture := CaptureTaskTick(r.capture, r.camera.slot, now))
    case TimerStep(now, stamp, encode) => TimerTick(r, now, stamp, encode)
    case CameraOn => r.(camera := StartCamera(r.camera))
    case CameraOff => r.(camera := StopCamera(r.camera))
    case CameraFrame(f) => r.(camera := PublishFrame(r.camera, f))
    case ClearAlerts => r.(journal := Alerts.Empty)
  }

  function RunAll(r: Rec, es: seq<Event>): (r': Rec)
    requires r.Valid()
    ensures r'.Valid()
    decreases |es|
  {
    if es == [] then r else RunAll(Apply(r, es[0]), es[1..])
  }

  /** Whether event `e` fires the panic trigger. */
  predicate FiredBy(r: Rec, e: Event)
  {
    e.PanicCheck? && Fires(r, e.latest, e.now)
  }

  /** How many events of a run fire the trigger. */
  function FireCount(r: Rec, es: seq<Event>): nat
    requires r.Valid()
    decreases |es|
  {
    if es == [] then 0 else (if FiredBy(r, es[0]) then 1 else 0) + FireCount(Apply(r, es[0]), es[1..])
  }

  /** The invariant reachable sessions keep: the capture-thread flag mirrors
      the recording flag, and when nothing is being recorded the buffer is
      empty and no capture thread feeds it. */
  ghost predicate Consistent(r: Rec)
  {
    var c := r.capture;
    && r.Valid()
    && c.threadRunning == c.recording
    && (c.recording ==> c.recordStart.Some?)
    && (!c.recording ==> c.frames == [] && c.task == None)
    && (c.task.Some? ==> c.recordStart == c.task)
  }

  lemma InitialConsistent()
    ensures Consistent(Initial)
  {
  }

  lemma {:induction false} ApplyKeepsConsistent(r: Rec, e: Event)
    requires Consistent(r)
    ensures Consistent(Apply(r, e))
  {
    match e
    case PanicCheck(latest, now) =>
    case FrameCheck(now, stamp, encode) =>
      assert WithFallback(r) == r;
    case CaptureStep(now) =>
    case TimerStep(now, stamp, encode) =>
    case CameraOn =>
    case CameraOff =>
    case CameraFrame(f) =>
    case ClearAlerts =>
  }

  /** Every session reachable from a consistent one is consistent. */
  lemma {:induction false} RunKeepsConsistent(r: Rec, es: seq<Event>)
    requires Consistent(r)
    ensures Consistent(RunAll(r, es))
    decreases |es|
  {
    if es != [] {
      ApplyKeepsConsistent(r, es[0]);
      RunKeepsConsistent(Apply(r, es[0]), es[1..]);
    }
  }

  /** In a reachable session the fallback path of `capture_emergency_frame`
      never appends: a recording always has its capture thread marked
      running. */
  lemma FallbackNeverAppends(r: Rec, now: int, stamp: string, encode: Result<()>)
    requires Consistent(r) && !Expired(r.capture, now)
    ensures CaptureFrame(r, now, stamp, encode) == r
  {
  }

  /** A frame check once the 30 s are up ends a reachable recording; the
      buffer it held is saved (newest descriptor first) or reported. */
  lemma RecordingEndsAtDeadline(r: Rec, now: int, stamp: string, encode: Result<()>)
    requires Consistent(r) && r.capture.recording && now - r.capture.recordStart.value >= RecordSeconds
    ensures var r' := CaptureFrame(r, now, stamp, encode);
            !r'.capture.recording && r'.capture.frames == [] && Consistent(r')
    ensures r.capture.frames != [] && encode.Ok? ==>
              CaptureFrame(r, now, stamp, encode).saved[0] == Describe(r.capture.frames, now, stamp)
  {
    assert WithFallback(r) == r;
    ApplyKeepsConsistent(r, FrameCheck(now, stamp, encode));
  }

  lemma ApplyKeepsCooldown(r: Rec, e: Event)
    requires r.Valid() && !FiredBy(r, e)
    ensures Apply(r, e).cooldown == r.cooldown
  {
    match e
    case PanicCheck(latest, now) =>
    case FrameCheck(now, stamp, encode) =>
    case CaptureStep(now) =>
    case TimerStep(now, stamp, encode) =>
    case CameraOn =>
    case CameraOff =>
    case CameraFrame(f) =>
    case ClearAlerts =>
  }

  /** While the cooldown stamped at `t` is active, no event fires the
      trigger and the stamp stays. */
  lemma {:induction false} CooldownSuppresses(r: Rec, es: seq<Event>, t: int)
    requires r.Valid() && r.cooldown == Some(t)
    requires forall i :: 0 <= i < |es| && es[i].PanicCheck? ==> es[i].now < t + PanicCooldown
    ensures FireCount(r, es) == 0 && RunAll(r, es).cooldown == Some(t)
    decreases |es|
  {
    if es != [] {
      assert !FiredBy(r, es[0]);
      ApplyKeepsCooldown(r, es[0]);
      CooldownSuppresses(Apply(r, es[0]), es[1..], t);
    }
  }

  /** A panic edge outside the cooldown fires exactly once within the minute
      that follows, however the panic field flickers. */
  lemma FlickerFiresOnce(r: Rec, latest: Record, t: int, rest: seq<Event>)
    requires r.Valid() && !r.lastPanic && !CooldownActive(r, t) && IsPanic(latest)
    requires forall i :: 0 <= i < |rest| && rest[i].PanicCheck? ==> rest[i].now < t + PanicCooldown
    ensures FireCount(r, [PanicCheck(latest, t)] + rest) == 1
  {
    var es := [PanicCheck(latest, t)] + rest;
    assert FiredBy(r, es[0]);
    assert es[1..] == rest;
    CooldownSuppresses(Apply(r, es[0]), rest, t);
  }

  const PanicKey: string := Alerts.AlertKey("panic_button", "PANIC BUTTON")
  const EmergencyKey: string := Alerts.AlertKey("emergency", "Security System")

  /** The deduplication map holds the triples of a trigger's two alerts. */
  predicate PanicMarked(j: Alerts.Journal)
  {
    && PanicKey in j.last && j.last[PanicKey] == Alerts.AlertState("panic_button", "PANIC BUTTON", PanicDetails)
    && EmergencyKey in j.last && j.last[EmergencyKey] == Alerts.AlertState("emergency", "Security System", EmergencyDetails)
  }

  /** A trigger always stores both alerts' triples, whether or not a
      recording could start. */
  lemma TriggerLogsBothAlerts(r: Rec, now: int)
    requires r.Valid()
    ensures PanicMarked(Trigger(r, now).journal)
  {
    var k3 := Alerts.AlertKey("recording_started", CameraSource);
    assert PanicKey[0] != EmergencyKey[0] && PanicKey[0] != k3[0] && EmergencyKey[0] != k3[0];
  }

  /** As written, a trigger on a journal that already holds both triples
      appends neither alert: their texts never change. */
  lemma RepeatTriggerLogsNoPanic(r: Rec, now: int)
    requires r.Valid() && PanicMarked(r.journal)
    ensures PanicAlerts(r.journal, now) == r.journal
    ensures Trigger(r, now).journal ==
              if r.camera.slot.Some? && !r.capture.recording
              then Alerts.LogAlert(r.journal, now, "recording_started", CameraSource, StartedDetails)
              else r.journal
  {
  }

  /** As written, a second trigger appends nothing to the alert log. */
  lemma SecondTriggerLogsNothing(r: Rec, t1: int, t2: int)
    requires r.Valid()
    ensures Trigger(Trigger(r, t1), t2).journal == Trigger(r, t1).journal
  {
    TriggerLogsBothAlerts(r, t1);
    RepeatTriggerLogsNoPanic(Trigger(r, t1), t2);
  }

  /** The recorder's own alerts, whose event types start with "recording",
      leave the triggers' triples alone. */
  lemma RecordingAlertKeepsMark(j: Alerts.Journal, now: int, eventType: string, details: string)
    requires j.Valid() && PanicMarked(j) && |eventType| > 0 && eventType[0] == 'r'
    ensures PanicMarked(Alerts.LogAlert(j, now, eventType, CameraSource, details))
  {
    var k := Alerts.AlertKey(eventType, CameraSource);
    assert k[0] == 'r' && PanicKey[0] == 'p' && EmergencyKey[0] == 'e';
    Alerts.OtherKeysUnchanged(j, now, eventType, CameraSource, details, PanicKey);
    Alerts.OtherKeysUnchanged(j, now, eventType, CameraSource, details, EmergencyKey);
  }

  /** Stopping a recording leaves the triggers' triples alone. */
  lemma StopKeepsMark(r: Rec, now: int, stamp: string, encode: Result<()>)
    requires r.Valid() && PanicMarked(r.journal)
    ensures PanicMarked(StopRecording(r, now, stamp, encode).journal)
  {
    if r.capture.recording {
      var r1 := r.(capture := Detached(r.capture));
      if r.capture.frames == [] {
        RecordingAlertKeepsMark(r.journal, now, "recording_error", NoFramesDetails);
      } else if encode.Ok? {
        RecordingAlertKeepsMark(r.journal, now, "recording_saved", "Recording saved: " + Filename(stamp));
      } else {
        RecordingAlertKeepsMark(r.journal, now, "recording_error", "Failed to save: " + encode.message);
      }
    }
  }

  /** Every event but "Clear Alerts" leaves the triggers' triples alone. */
  lemma ApplyKeepsMark(r: Rec, e: Event)
    requires r.Valid() && PanicMarked(r.journal) && !e.ClearAlerts?
    ensures PanicMarked(Apply(r, e).journal)
  {
    match e
    case PanicCheck(latest, now) =>
      if Fires(r, latest, now) {
        RepeatTriggerLogsNoPanic(r, now);
        if r.camera.slot.Some? && !r.capture.recording {
          RecordingAlertKeepsMark(r.journal, now, "recording_started", StartedDetails);
        }
      }
    case FrameCheck(now, stamp, encode) =>
      StopKeepsMark(WithFallback(r), now, stamp, encode);
    case TimerStep(now, stamp, encode) =>
      StopKeepsMark(r.(capture := r.capture.(timers := if r.capture.timers == [] then [] else r.capture.timers[1..])), now, stamp, encode);
    case _ =>
  }

  lemma {:induction false} RunKeepsMark(r: Rec, es: seq<Event>)
    requires r.Valid() && PanicMarked(r.journal)
    requires forall i :: 0 <= i < |es| ==> !es[i].ClearAlerts?
    ensures PanicMarked(RunAll(r, es).journal)
    decreases |es|
  {
    if es != [] {
      ApplyKeepsMark(r, es[0]);
      RunKeepsMark(Apply(r, es[0]), es[1..]);
    }
  }

  /** As written, once a trigger has fired, no later trigger appends a panic
      or emergency alert until the alerts are cleared, however long after
      and whatever else happened between. */
  lemma LaterPanicLogsNothing(r: Rec, now: int, es: seq<Event>, later: int)
    requires r.Valid()
    requires forall i :: 0 <= i < |es| ==> !es[i].ClearAlerts?
    ensures var r1 := RunAll(Trigger(r, now), es);
            PanicAlerts(r1.journal, later) == r1.journal
  {
    TriggerLogsBothAlerts(r, now);
    RunKeepsMark(Trigger(r, now), es);
    RepeatTriggerLogsNoPanic(RunAll(Trigger(r, now), es), later);
  }

  /** The deduplication map without the triggers' two triples. */
  function Unmark(j: Alerts.Journal): (j': Alerts.Journal)
    ensures j'.log == j.log && j'.Valid() == j.Valid()
    ensures PanicKey !in j'.last && EmergencyKey !in j'.last
  {
    j.(last := j.last - {PanicKey, EmergencyKey})
  }

  /** Once the triples are forgotten, the two alerts are appended in order. */
  lemma UnmarkedPanicAlerts(j: Alerts.Journal, now: int)
    requires j.Valid()
    ensures PanicAlerts(Unmark(j), now).log ==
              Alerts.Newest(j.log + [Alerts.Alert(now, "panic_button", "PANIC BUTTON", PanicDetails),
                                     Alerts.Alert(now, "emergency", "Security System", EmergencyDetails)],
                            Alerts.MaxAlerts)
  {
    var u := Unmark(j);
    var a1 := Alerts.Alert(now, "panic_button", "PANIC BUTTON", PanicDetails);
    var a2 := Alerts.Alert(now, "emergency", "Security System", EmergencyDetails);
    var j1 := Alerts.LogAlert(u, now, "panic_button", "PANIC BUTTON", PanicDetails);
    assert PanicKey[0] != EmergencyKey[0];
    assert EmergencyKey !in j1.last;
    Alerts.NewestOfNewest(u.log + [a1], [a2], Alerts.MaxAlerts);
    assert u.log + [a1] + [a2] == j.log + [a1, a2];
  }

  /** Corrected trigger: it forgets the triples of its two alerts first, so
      that every trigger logs them; everything else is as before. */
  function TriggerCorrected(r: Rec, now: int): (r': Rec)
    requires r.Valid()
    ensures r'.Valid() && PanicMarked(r'.journal)
    ensures r' == Trigger(r, now).(journal := r'.journal)
  {
    var r' := Trigger(r.(journal := Unmark(r.journal)), now);
    TriggerLogsBothAlerts(r.(journal := Unmark(r.journal)), now);
    r'
  }

  /** Corrected, every trigger, a repeat included, puts both alerts with its
      own instant in the log. */
  lemma CorrectedTriggerAlwaysLogs(r: Rec, now: int)
    requires r.Valid()
    ensures var log := TriggerCorrected(r, now).journal.log;
            Alerts.Alert(now, "panic_button", "PANIC BUTTON", PanicDetails) in log &&
            Alerts.Alert(now, "emergency", "Security System", EmergencyDetails) in log
  {
    var a1 := Alerts.Alert(now, "panic_button", "PANIC BUTTON", PanicDetails);
    var a2 := Alerts.Alert(now, "emergency", "Security System", EmergencyDetails);
    var j2 := PanicAlerts(Unmark(r.journal), now);
    UnmarkedPanicAlerts(r.journal, now);
    Alerts.NewestIsSuffix(r.journal.log + [a1, a2], Alerts.MaxAlerts);
    var n := |j2.log|;
    assert n >= 2 && j2.log[n - 2] == a1 && j2.log[n - 1] == a2;
    var j3 := TriggerCorrected(r, now).journal;
    if j3 != j2 {
      var a3 := Alerts.Alert(now, "recording_started", CameraSource, StartedDetails);
      assert j3 == Alerts.LogAlert(j2, now, "recording_started", CameraSource, StartedDetails);
      Alerts.NewestIsSuffix(j2.log + [a3], Alerts.MaxAlerts);
      assert j3.log[|j3.log| - 3] == a1 && j3.log[|j3.log| - 2] == a2;
    }
  }

  /** A capture thread that has ended stays ended. */
  lemma {:induction false} CaptureRunIdle(c: Capture, samples: seq<Sample>)
    requires c.task.None?
    ensures CaptureRun(c, samples) == c
    decreases |samples|
  {
    if samples != [] {
      CaptureRunIdle(c, samples[1..]);
    }
  }

  /** The thread only appends to the frame buffer, at most one frame per
      pass, and touches no other field but its own handle. */
  lemma {:induction false} CaptureRunAppends(c: Capture, samples: seq<Sample>)
    ensures var c' := CaptureRun(c, samples);
            c.frames <= c'.frames && |c'.frames| <= |c.frames| + |samples| &&
            c' == c.(frames := c'.frames, task := c'.task)
    decreases |samples|
  {
    if samples != [] {
      CaptureRunAppends(CaptureTaskTick(c, samples[0].slot, samples[0].now), samples[1..]);
    }
  }

  /** Once the stop signal is set the thread appends nothing more. */
  lemma {:induction false} CaptureRunHonoursStop(c: Capture, samples: seq<Sample>)
    requires c.stopFlag
    ensures CaptureRun(c, samples).frames == c.frames
    decreases |samples|
  {
    if samples != [] {
      CaptureRunHonoursStop(CaptureTaskTick(c, samples[0].slot, samples[0].now), samples[1..]);
    }
  }

  /** No frame is taken on a pass 30 s or more after the thread started. */
  lemma {:induction false} CaptureRunHonoursDeadline(c: Capture, samples: seq<Sample>, start: int)
    requires c.task.None? || c.task == Some(start)
    requires forall k | 0 <= k < |samples| :: samples[k].now - start >= RecordSeconds
    ensures CaptureRun(c, samples).frames == c.frames
    decreases |samples|
  {
    if samples != [] {
      CaptureRunHonoursDeadline(CaptureTaskTick(c, samples[0].slot, samples[0].now), samples[1..], start);
    }
  }

  /** A running thread with its signal clear, before its deadline, takes
      every frame it sees. */
  lemma {:induction false} CaptureRunTakesEveryFrame(c: Capture, samples: seq<Sample>, frames: seq<Frame>)
    requires c.task.Some? && !c.stopFlag
    requires |frames| == |samples|
    requires forall k | 0 <= k < |samples| :: samples[k] == Sample(samples[k].now, Some(frames[k]))
    requires forall k | 0 <= k < |samples| :: samples[k].now - c.task.value < RecordSeconds
    ensures CaptureRun(c, samples).frames == c.frames + frames
    decreases |samples|
  {
    if samples != [] {
      var c1 := CaptureTaskTick(c, samples[0].slot, samples[0].now);
      assert c1.frames == c.frames + [frames[0]] && c1.task == c.task && c1.stopFlag == c.stopFlag;
      CaptureRunTakesEveryFrame(c1, samples[1..], frames[1..]);
      assert c.frames + [frames[0]] + frames[1..] == c.frames + frames;
    }
  }

  /** The session fields, updated in place by the page script and its
      threads; the recording fields and the camera fields are kept as one
      record each. */
  class Session {
    const alerts: Alerts.AlertLog
    var capture: Capture
    var savedRecordings: seq<RecordingInfo>
    var lastPanicState: bool
    var panicCooldown: Option<int>
    var camera: Camera

    ghost predicate Valid()
      reads this, alerts
    {
      alerts.Valid() && |savedRecordings| <= MaxRecordings
    }

    function State(): Rec
      reads this, alerts
    {
      Rec(alerts.View(), capture, savedRecordings, lastPanicState, panicCooldown, camera)
    }

    constructor ()
      ensures Valid() && State() == Initial && fresh(alerts)
    {
      alerts := new Alerts.AlertLog();
      capture := Initial.capture;
      savedRecordings, lastPanicState, panicCooldown := [], false, None;
      camera := Initial.camera;
    }

    /** `start_emergency_recording` */
    method StartEmergencyRecording(now: int)
      requires Valid()
      modifies this, alerts
      ensures Valid() && State() == StartRecording(old(State()), now)
    {
      if !capture.recording {
        capture := capture.(recording := true, recordStart := Some(now), frames := [], stopFlag := false);
        alerts.Log(now, "recording_started", CameraSource, StartedDetails);
        if camera.slot.Some? {
          capture := capture.(threadRunning := true, task := Some(now), timers := capture.timers + [now]);
        }
      }
    }

    /** `save_emergency_video(frames)` */
    method SaveEmergencyVideo(frames: seq<Frame>, now: int, stamp: string, encode: Result<()>)
      requires Valid()
      modifies this, alerts
      ensures Valid() && State() == SaveVideo(old(State()), frames, now, stamp, encode)
    {
      if frames != [] {
        var filename := Filename(stamp);
        match encode
        case Ok(_) =>
          var recordingInfo := Describe(frames, now, stamp);
          savedRecordings := KeepNewest([recordingInfo] + savedRecordings);
          alerts.Log(now, "recording_saved", CameraSource, "Recording saved: " + filename);
        case Err(message) =>
          alerts.Log(now, "recording_error", CameraSource, "Failed to save: " + message);
      }
    }

    /** `stop_emergency_recording` */
    method StopEmergencyRecording(now: int, stamp: string, encode: Result<()>)
      requires Valid()
      modifies this, alerts
      ensures Valid() && State() == StopRecording(old(State()), now, stamp, encode)
    {
      if capture.recording {
        var frames := capture.frames;
        capture := Detached(capture);
        if frames != [] {
          SaveEmergencyVideo(frames, now, stamp, encode);
        } else {
          alerts.Log(now, "recording_error", CameraSource, NoFramesDetails);
        }
      }
    }

    /** `check_and_handle_panic(latest)` */
    method CheckAndHandlePanic(latest: Record, now: int) returns (isPanic: bool)
      requires Valid()
      modifies this, alerts
      ensures Valid() && (State(), isPanic) == CheckPanic(old(State()), latest, now)
    {
      isPanic := IsPanic(latest);
      var cooldownActive := false;
      if panicCooldown.Some? {
        cooldownActive := now - panicCooldown.value < PanicCooldown;
      }
      if isPanic && !lastPanicState && !cooldownActive {
        TriggerEmergencyProtocol(now);
      }
      lastPanicState := isPanic;
    }

    /** The body of the new-panic branch of `check_and_handle_panic`. */
    method TriggerEmergencyProtocol(now: int)
      requires Valid()
      modifies this, alerts
      ensures Valid() && State() == Trigger(old(State()), now)
    {
      alerts.Log(now, "panic_button", "PANIC BUTTON", PanicDetails);
      alerts.Log(now, "emergency", "Security System", EmergencyDetails);
      if camera.slot.Some? {
        StartEmergencyRecording(now);
      }
      panicCooldown := Some(now);
    }

    /** `capture_emergency_frame` */
    method CaptureEmergencyFrame(now: int, stamp: string, encode: Result<()>)
      requires Valid()
      modifies this, alerts
      ensures Valid() && State() == CaptureFrame(old(State()), now, stamp, encode)
    {
      if capture.recording && !capture.threadRunning && camera.slot.Some? {
        capture := capture.(frames := capture.frames + [camera.slot.value]);
      }
      if capture.recording && capture.recordStart.Some? && now - capture.recordStart.value >= RecordSeconds {
        StopEmergencyRecording(now, stamp, encode);
      }
    }

    /** One iteration of `emergency_recording_thread`. */
    method RecordingThreadStep(now: int)
      modifies this
      ensures State() == old(State()).(capture := CaptureTaskTick(old(capture), camera.slot, now))
    {
      if capture.task.Some? {
        if !capture.stopFlag && now - capture.task.value < RecordSeconds {
          if camera.slot.Some? {
            capture := capture.(frames := capture.frames + [camera.slot.value]);
          }
        } else {
          capture := capture.(task := None);
        }
      }
    }

    /** `emergency_recording_thread`: the loop runs while its stop signal is
        clear and its 30 s last, copying the slot's frame on each pass. */
    method EmergencyRecordingThread(samples: seq<Sample>)
      modifies this
      ensures State() == old(State()).(capture := CaptureRun(old(capture), samples))
    {
      var i := 0;
      while i < |samples| && capture.task.Some?
        invariant 0 <= i <= |samples|
        invariant CaptureRun(capture, samples[i..]) == CaptureRun(old(capture), samples)
        invariant State() == old(State()).(capture := capture)
      {
        var sample := samples[i];
        assert samples[i..][1..] == samples[i + 1..];
        if !capture.stopFlag && sample.now - capture.task.value < RecordSeconds {
          if sample.slot.Some? {
            capture := capture.(frames := capture.frames + [sample.slot.value]);
          }
        } else {
          capture := capture.(task := None);
        }
        i := i + 1;
      }
      if capture.task.None? {
        CaptureRunIdle(capture, samples[i..]);
      }
    }

    /** The oldest `stop_after_duration` timer, if due, wakes up. */
    method StopTimerStep(now: int, stamp: string, encode: Result<()>)
      requires Valid()
      modifies this, alerts
      ensures Valid() && State() == TimerTick(old(State()), now, stamp, encode)
    {
      if capture.timers != [] && now - capture.timers[0] >= RecordSeconds {
        capture := capture.(timers := capture.timers[1..]);
        if capture.recording {
          StopEmergencyRecording(now, stamp, encode);
        }
      }
    }

    /** `start_camera_thread` */
    method StartCameraThread()
      modifies this
      ensures State() == old(State()).(camera := StartCamera(old(camera)))
    {
      if !camera.running {
        camera := camera.(running := true, stopFlag := false);
      }
    }

    /** `stop_camera_thread` */
    method StopCameraThread()
      modifies this
      ensures State() == old(State()).(camera := StopCamera(old(camera)))
    {
      camera := Camera(false, true, None);
    }

    /** The camera thread writes a frame it has read into the slot. */
    method CameraPublishesFrame(f: Frame)
      modifies this
      ensures State() == old(State()).(camera := PublishFrame(old(camera), f))
    {
      if camera.running && !camera.stopFlag {
        camera := camera.(slot := Some(f));
      }
    }

    /** The "Clear Alerts" button. */
    method ClearAlerts()
      requires Valid()
      modifies alerts
      ensures Valid() && State() == old(State()).(journal := Alerts.Empty)
    {
      alerts.Clear();
    }
  }
}
