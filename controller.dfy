/** The ESP32 controller: one pass of `loop()` as a transition over the
    sketch's globals, with the hardware commands it issues and the MQTT
    payload it publishes as output.

    `millis()` is an unsigned 32-bit counter, and every elapsed-time test is
    the unsigned difference `millis() - t`. All reads of `millis()` during
    one pass are taken to return the same instant `now`. */
module Controller {

  /** `unsigned long` on the ESP32. */
  newtype u32 = x: int | 0 <= x < 0x1_0000_0000

  const Modulus: int := 0x1_0000_0000

  /** `now - since` computed in unsigned 32-bit arithmetic. */
  function Elapsed(now: u32, since: u32): (d: u32)
    ensures now >= since ==> d as int == now as int - since as int
    ensures now < since ==> d as int == now as int - since as int + Modulus
  {
    ((now as int - since as int) % Modulus) as u32
  }

  /** The counter's reading at true instant `t` milliseconds after boot. */
  function Clock(t: nat): u32
  {
    (t % Modulus) as u32
  }

  /** The unsigned difference of two readings is the true time between them
      whenever that is less than one period of the counter, even when the
      counter wrapped in between. */
  lemma ElapsedAcrossWrap(tSince: nat, tNow: nat)
    requires tSince <= tNow < tSince + Modulus
    ensures Elapsed(Clock(tNow), Clock(tSince)) as int == tNow - tSince
  {
    var qn, qs := tNow / Modulus, tSince / Modulus;
    assert tNow == qn * Modulus + Clock(tNow) as int;
    assert tSince == qs * Modulus + Clock(tSince) as int;
    if Clock(tNow) < Clock(tSince) {
      assert qn > qs;
    } else {
      assert qn <= qs;
    }
  }

  // Sensor thresholds and timings of the sketch.
  const SmokeThreshold: int := 4000
  const AirQualityThreshold: int := 4000
  const LightThreshold: int := 1500
  const ActiveDuration: u32 := 2000
  const EmergencyDuration: u32 := 15000
  const SensorWarmupTime: u32 := 30000
  const Interval: u32 := 5000

  const WindowOpenAngle: int := 0
  const WindowClosedAngle: int := 100

  // Output pins.
  const FanRelayPin: int := 14
  const LedRelayPin: int := 47
  const BuzzerPin: int := 12

  datatype Level = Low | High

  /** A value of the published JSON document. */
  datatype Json = JInt(i: int) | JBool(b: bool) | JStr(s: string)

  /** The published document: its keys and values, in insertion order. */
  type Payload = seq<(string, Json)>

  /** A command to the hardware or the broker. */
  datatype Action =
    | ServoWrite(angle: int)
    | DigitalWrite(pin: int, level: Level)
    | Tone(pin: int, frequency: int, duration: int)
    | DelayMicros(micros: int)
    | Publish(payload: Payload)

  /** The sketch's globals that `loop()` reads or writes. */
  datatype Globals = Globals(
    motionDetected: bool,
    isSystemActive: bool,
    lastMotionTime: u32,
    isWindowClosed: bool,
    emergencyActive: bool,
    emergencyStartTime: u32,
    startupTime: u32,
    lastMsgTime: u32)

  /** What one pass reads: both samples of the panic pin, 50 ms apart, the
      four sensors, the instant, and whether the MQTT client is connected. */
  datatype Inputs = Inputs(
    panicFirst: Level,
    panicSecond: Level,
    smokeValue: int,
    airValue: int,
    lightLevel: int,
    rainPin: Level,
    now: u32,
    connected: bool)

  /** The globals after a part of the pass, and the commands it issued. */
  datatype Out = Out(g: Globals, actions: seq<Action>)

  /** The rain sensor's output is active low. */
  predicate RainDetected(inp: Inputs)
  {
    inp.rainPin == Low
  }

  /** The servo angle that goes with a window state. */
  function AngleFor(closed: bool): int
  {
    if closed then WindowClosedAngle else WindowOpenAngle
  }

  /** `triggerEmergency()` */
  function Trigger(g: Globals, now: u32): (o: Out)
    ensures o.g.emergencyActive && o.g.isWindowClosed && o.g.emergencyStartTime == now
    ensures o.g == g.(emergencyActive := true, emergencyStartTime := now, isWindowClosed := true)
    ensures o.actions == [ServoWrite(WindowClosedAngle), Tone(BuzzerPin, 1200, 500)]
  {
    Out(g.(emergencyActive := true, emergencyStartTime := now, isWindowClosed := true),
        [ServoWrite(WindowClosedAngle), Tone(BuzzerPin, 1200, 500)])
  }

  /** The debounced panic button: both reads low while no emergency runs. */
  predicate PanicPressed(g: Globals, inp: Inputs)
  {
    inp.panicFirst == Low && !g.emergencyActive && inp.panicSecond == Low
  }

  function PanicPhase(g: Globals, inp: Inputs): Out
  {
    if PanicPressed(g, inp) then Trigger(g, inp.now) else Out(g, [])
  }

  /** The smoke alarm sounds once the sensors have warmed up. */
  predicate SmokeAlarm(g: Globals, inp: Inputs)
  {
    Elapsed(inp.now, g.startupTime) > SensorWarmupTime && inp.smokeValue > SmokeThreshold
  }

  function SmokePhase(g: Globals, inp: Inputs): seq<Action>
  {
    if SmokeAlarm(g, inp) then [Tone(BuzzerPin, 1000, 100)] else []
  }

  /** The window must be shut. */
  predicate ShutWanted(g: Globals, inp: Inputs)
  {
    RainDetected(inp) || inp.airValue > AirQualityThreshold || g.emergencyActive
  }

  /** Window control: the servo moves only when the state changes. */
  function WindowPhase(g: Globals, inp: Inputs): (o: Out)
    ensures o.g == g.(isWindowClosed := ShutWanted(g, inp))
    ensures o.g.isWindowClosed != g.isWindowClosed ==> o.actions == [ServoWrite(AngleFor(o.g.isWindowClosed))]
    ensures o.g.isWindowClosed == g.isWindowClosed ==> o.actions == []
  {
    if ShutWanted(g, inp) then
      if !g.isWindowClosed then Out(g.(isWindowClosed := true), [ServoWrite(WindowClosedAngle)]) else Out(g, [])
    else
      if g.isWindowClosed then Out(g.(isWindowClosed := false), [ServoWrite(WindowOpenAngle)]) else Out(g, [])
  }

  /** Smart comfort: motion outside an emergency switches the fan on, and the
      light too when it is dark (both relays are active low). */
  function ComfortPhase(g: Globals, inp: Inputs): Out
  {
    if g.motionDetected && !g.emergencyActive then
      Out(g.(isSystemActive := true, lastMotionTime := inp.now, motionDetected := false),
          [DigitalWrite(FanRelayPin, Low), DigitalWrite(LedRelayPin, if inp.lightLevel > LightThreshold then Low else High)])
    else
      Out(g, [])
  }

  function IdlePhase(g: Globals, now: u32): Out
  {
    if g.isSystemActive && Elapsed(now, g.lastMotionTime) > ActiveDuration then
      Out(g.(isSystemActive := false), [DigitalWrite(FanRelayPin, High), DigitalWrite(LedRelayPin, High)])
    else
      Out(g, [])
  }

  /** Emergency mode: a flash, a beep, and the end of the emergency after 15 s. */
  function EmergencyPhase(g: Globals, now: u32): Out
  {
    if g.emergencyActive then
      Out(g.(emergencyActive := Elapsed(now, g.emergencyStartTime) <= EmergencyDuration),
          [DigitalWrite(LedRelayPin, Low), Tone(BuzzerPin, 1000, 100), DigitalWrite(LedRelayPin, High)])
    else
      Out(g, [])
  }

  /** The JSON document built from the readings and the globals. */
  function PayloadOf(g: Globals, inp: Inputs): Payload
  {
    [("smoke", JInt(inp.smokeValue)), ("air", JInt(inp.airValue)), ("light", JInt(inp.lightLevel)),
     ("rain", JBool(RainDetected(inp))), ("motion", JBool(g.isSystemActive)),
     ("window", JStr(if g.isWindowClosed then "CLOSED" else "OPEN")),
     ("emergency", JStr(if g.emergencyActive then "true" else "false"))]
  }

  /** A message is due when more than `interval` ms passed since the last. */
  predicate MessageDue(g: Globals, now: u32)
  {
    Elapsed(now, g.lastMsgTime) > Interval
  }

  /** The publish throttle; the timer restarts even when the client is not
      connected and nothing goes out. */
  function MqttPhase(g: Globals, inp: Inputs): Out
  {
    if MessageDue(g, inp.now) then
      Out(g.(lastMsgTime := inp.now), if inp.connected then [Publish(PayloadOf(g, inp))] else [])
    else
      Out(g, [])
  }

  /** The first half of a pass: panic button, smoke alarm, window. */
  function Front(g: Globals, inp: Inputs): Out
  {
    var p := PanicPhase(g, inp);
    var w := WindowPhase(p.g, inp);
    Out(w.g, p.actions + SmokePhase(p.g, inp) + w.actions)
  }

  /** The second half: smart comfort, idle timeout, emergency mode, MQTT. */
  function Back(g: Globals, inp: Inputs): Out
  {
    var c := ComfortPhase(g, inp);
    var i := IdlePhase(c.g, inp.now);
    var e := EmergencyPhase(i.g, inp.now);
    var m := MqttPhase(e.g, inp);
    Out(m.g, c.actions + i.actions + e.actions + m.actions)
  }

  /** One pass of `loop()`. */
  function Step(g: Globals, inp: Inputs): Out
  {
    var f := Front(g, inp);
    var b := Back(f.g, inp);
    Out(b.g, f.actions + b.actions)
  }

  /** Successive passes. */
  function Run(g: Globals, inputs: seq<Inputs>): Out
    decreases |inputs|
  {
    if inputs == [] then Out(g, [])
    else
      var o := Step(g, inputs[0]);
      var rest := Run(o.g, inputs[1..]);
      Out(rest.g, o.actions + rest.actions)
  }

  predicate Publishes(actions: seq<Action>)
  {
    exists i :: 0 <= i < |actions| && actions[i].Publish?
  }

  /** The second half of a pass leaves the window flag and the servo alone. */
  lemma BackKeepsWindow(g: Globals, inp: Inputs)
    ensures Back(g, inp).g.isWindowClosed == g.isWindowClosed
    ensures forall k :: 0 <= k < |Back(g, inp).actions| ==> !Back(g, inp).actions[k].ServoWrite?
  {
  }

  /** Outside an emergency the second half of a pass does not beep. */
  lemma BackQuietOutsideEmergency(g: Globals, inp: Inputs)
    requires !g.emergencyActive
    ensures Tone(BuzzerPin, 1000, 100) !in Back(g, inp).actions
  {
    var c := ComfortPhase(g, inp);
    var i := IdlePhase(c.g, inp.now);
    assert EmergencyPhase(i.g, inp.now).actions == [];
  }

  /** The second half publishes exactly when a message is due and the client
      is connected, and then the record of its final state; it restarts the
      message timer exactly when one is due. */
  lemma BackThrottle(g: Globals, inp: Inputs)
    ensures Publishes(Back(g, inp).actions) ==> inp.connected && MessageDue(g, inp.now)
    ensures inp.connected && MessageDue(g, inp.now) ==> Publish(PayloadOf(Back(g, inp).g, inp)) in Back(g, inp).actions
    ensures Back(g, inp).g.lastMsgTime == if MessageDue(g, inp.now) then inp.now else g.lastMsgTime
  {
    var c := ComfortPhase(g, inp);
    var i := IdlePhase(c.g, inp.now);
    var e := EmergencyPhase(i.g, inp.now);
    var m := MqttPhase(e.g, inp);
    var front := c.actions + i.actions + e.actions;
    MiddleIsQuiet(g, inp);
    PublishesAppend(front, m.actions);
    if inp.connected && MessageDue(g, inp.now) {
      assert m.actions == [Publish(PayloadOf(e.g, inp))];
      assert PayloadOf(m.g, inp) == PayloadOf(e.g, inp);
      assert (front + m.actions)[|front|] == Publish(PayloadOf(m.g, inp));
    }
  }

  /** Comfort, idle timeout and emergency mode send nothing to the broker. */
  lemma MiddleIsQuiet(g: Globals, inp: Inputs)
    ensures var c := ComfortPhase(g, inp);
            var i := IdlePhase(c.g, inp.now);
            !Publishes(c.actions + i.actions + EmergencyPhase(i.g, inp.now).actions)
  {
    var c := ComfortPhase(g, inp);
    var i := IdlePhase(c.g, inp.now);
    var e := EmergencyPhase(i.g, inp.now);
    assert !Publishes(c.actions) && !Publishes(i.actions) && !Publishes(e.actions);
    PublishesAppend(c.actions, i.actions);
    PublishesAppend(c.actions + i.actions, e.actions);
  }

  /** What the second half publishes is the record of its own final state. */
  lemma BackPayload(g: Globals, inp: Inputs, payload: Payload)
    requires Publish(payload) in Back(g, inp).actions
    ensures payload == PayloadOf(Back(g, inp).g, inp)
  {
    var c := ComfortPhase(g, inp);
    var i := IdlePhase(c.g, inp.now);
    var e := EmergencyPhase(i.g, inp.now);
    var m := MqttPhase(e.g, inp);
    var front := c.actions + i.actions + e.actions;
    assert Back(g, inp) == Out(m.g, front + m.actions);
    MiddleIsQuiet(g, inp);
    PublishLandsAfter(front, m.actions, payload);
    assert PayloadOf(m.g, inp) == PayloadOf(e.g, inp);
  }

  /** A message published by `a + b` where `a` publishes nothing is in `b`. */
  lemma PublishLandsAfter(a: seq<Action>, b: seq<Action>, payload: Payload)
    requires !Publishes(a) && Publish(payload) in a + b
    ensures Publish(payload) in b
  {
    var k :| 0 <= k < |a + b| && (a + b)[k] == Publish(payload);
    assert b[k - |a|] == Publish(payload);
  }

  /** A pass publishes the record of the state it ends in. */
  lemma PublishedPayload(g: Globals, inp: Inputs, payload: Payload)
    requires Publish(payload) in Step(g, inp).actions
    ensures payload == PayloadOf(Step(g, inp).g, inp)
  {
    var f := Front(g, inp);
    FrontNeverPublishes(g, inp);
    PublishLandsAfter(f.actions, Back(f.g, inp).actions, payload);
    BackPayload(f.g, inp, payload);
  }

  /** The emergency starts exactly on a debounced press, and it stamps its
      start and shuts the window; a running emergency is not restarted. */
  lemma TriggerRule(g: Globals, inp: Inputs)
    ensures var s := Step(g, inp).g;
            !g.emergencyActive ==> (s.emergencyActive <==> inp.panicFirst == Low && inp.panicSecond == Low)
    ensures var s := Step(g, inp).g;
            PanicPressed(g, inp) ==> s.emergencyActive && s.emergencyStartTime == inp.now && s.isWindowClosed
    ensures g.emergencyActive ==> Step(g, inp).g.emergencyStartTime == g.emergencyStartTime
  {
  }

  /** After a pass the window is shut exactly when it rains, the air is bad
      or an emergency was running when the window was handled. */
  lemma WindowRule(g: Globals, inp: Inputs)
    ensures Step(g, inp).g.isWindowClosed ==
              (RainDetected(inp) || inp.airValue > AirQualityThreshold || PanicPhase(g, inp).g.emergencyActive)
  {
    BackKeepsWindow(Front(g, inp).g, inp);
  }

  /** The angle the servo was last commanded to. */
  function LastAngle(angle: int, actions: seq<Action>): int
    decreases |actions|
  {
    if actions == [] then angle
    else LastAngle(if actions[0].ServoWrite? then actions[0].angle else angle, actions[1..])
  }

  lemma {:induction false} LastAngleAppend(angle: int, a: seq<Action>, b: seq<Action>)
    ensures LastAngle(angle, a + b) == LastAngle(LastAngle(angle, a), b)
    decreases |a|
  {
    if a == [] {
      assert a + b == b;
    } else {
      var next := if a[0].ServoWrite? then a[0].angle else angle;
      assert (a + b)[0] == a[0] && (a + b)[1..] == a[1..] + b;
      assert LastAngle(angle, a + b) == LastAngle(next, a[1..] + b);
      assert LastAngle(angle, a) == LastAngle(next, a[1..]);
      LastAngleAppend(next, a[1..], b);
    }
  }

  /** Commands without a servo write leave the servo where it was. */
  lemma {:induction false} NoServo(actions: seq<Action>, angle: int)
    requires forall i :: 0 <= i < |actions| ==> !actions[i].ServoWrite?
    ensures LastAngle(angle, actions) == angle
    decreases |actions|
  {
    if actions != [] {
      assert !actions[0].ServoWrite?;
      NoServo(actions[1..], angle);
    }
  }

  /** The first half of a pass leaves the servo where the window flag says. */
  lemma FrontServo(g: Globals, inp: Inputs, angle: int)
    requires angle == AngleFor(g.isWindowClosed)
    ensures LastAngle(angle, Front(g, inp).actions) == AngleFor(Front(g, inp).g.isWindowClosed)
  {
    var p := PanicPhase(g, inp);
    var sm := SmokePhase(p.g, inp);
    var w := WindowPhase(p.g, inp);
    LastAngleAppend(angle, p.actions + sm, w.actions);
    LastAngleAppend(angle, p.actions, sm);
    assert LastAngle(angle, p.actions) == AngleFor(p.g.isWindowClosed) by {
      if PanicPressed(g, inp) {
        assert p.actions == [ServoWrite(WindowClosedAngle)] + [Tone(BuzzerPin, 1200, 500)];
        LastAngleAppend(angle, [ServoWrite(WindowClosedAngle)], [Tone(BuzzerPin, 1200, 500)]);
        NoServo([Tone(BuzzerPin, 1200, 500)], WindowClosedAngle);
      } else {
        NoServo(p.actions, angle);
      }
    }
    NoServo(sm, LastAngle(angle, p.actions));
    if w.actions != [] {
      assert w.actions == [ServoWrite(AngleFor(w.g.isWindowClosed))];
      NoServo([], AngleFor(w.g.isWindowClosed));
    } else {
      NoServo(w.actions, AngleFor(p.g.isWindowClosed));
    }
  }

  /** The servo always stands where `isWindowClosed` says. */
  lemma ServoTracksWindow(g: Globals, inp: Inputs, angle: int)
    requires angle == AngleFor(g.isWindowClosed)
    ensures LastAngle(angle, Step(g, inp).actions) == AngleFor(Step(g, inp).g.isWindowClosed)
  {
    var f := Front(g, inp);
    FrontServo(g, inp, angle);
    BackKeepsWindow(f.g, inp);
    LastAngleAppend(angle, f.actions, Back(f.g, inp).actions);
    NoServo(Back(f.g, inp).actions, AngleFor(f.g.isWindowClosed));
  }

  /** Outside an emergency the 1 kHz beep sounds exactly when the smoke
      alarm does. */
  lemma SmokeAlarmRule(g: Globals, inp: Inputs)
    requires !PanicPhase(g, inp).g.emergencyActive
    ensures Tone(BuzzerPin, 1000, 100) in Step(g, inp).actions <==> SmokeAlarm(g, inp)
  {
    var f := Front(g, inp);
    BackQuietOutsideEmergency(f.g, inp);
    assert PanicPhase(g, inp) == Out(g, []);
    assert f.actions == SmokePhase(g, inp) + WindowPhase(g, inp).actions;
  }

  /** Motion outside an emergency wakes the system and consumes the flag;
      the light relay is switched on (driven low) exactly when it is dark. */
  lemma MotionRule(g: Globals, inp: Inputs)
    requires g.motionDetected && !PanicPhase(g, inp).g.emergencyActive
    ensures var s := Step(g, inp).g;
            s.isSystemActive && s.lastMotionTime == inp.now && !s.motionDetected
    ensures DigitalWrite(LedRelayPin, Low) in Step(g, inp).actions <==> inp.lightLevel > LightThreshold
  {
    var f := Front(g, inp);
    var c := ComfortPhase(f.g, inp);
    var i := IdlePhase(c.g, inp.now);
    var e := EmergencyPhase(i.g, inp.now);
    var m := MqttPhase(e.g, inp);
    assert i.actions == [] && e.actions == [];
    assert Back(f.g, inp).actions == c.actions + m.actions;
  }

  /** During an emergency a motion event stays pending. */
  lemma MotionPendingDuringEmergency(g: Globals, inp: Inputs)
    requires PanicPhase(g, inp).g.emergencyActive
    ensures Step(g, inp).g.motionDetected == g.motionDetected
    ensures Step(g, inp).g.lastMotionTime == g.lastMotionTime
  {
  }

  /** An active system with no new motion goes idle, both relays off, once
      more than 2 s passed since the last motion. */
  lemma IdleRule(g: Globals, inp: Inputs)
    requires g.isSystemActive && !(g.motionDetected && !PanicPhase(g, inp).g.emergencyActive)
    requires Elapsed(inp.now, g.lastMotionTime) > ActiveDuration
    ensures !Step(g, inp).g.isSystemActive
    ensures DigitalWrite(FanRelayPin, High) in Step(g, inp).actions
    ensures DigitalWrite(LedRelayPin, High) in Step(g, inp).actions
  {
    var f := Front(g, inp);
    var c := ComfortPhase(f.g, inp);
    var i := IdlePhase(c.g, inp.now);
    assert i.actions[0] == DigitalWrite(FanRelayPin, High);
    assert i.actions[1] == DigitalWrite(LedRelayPin, High);
  }

  /** After a pass the system is active exactly when it took a motion event
      in that pass, or was active and at most 2 s passed since the last
      motion. */
  lemma ActiveRule(g: Globals, inp: Inputs)
    ensures Step(g, inp).g.isSystemActive <==>
              (g.motionDetected && !PanicPhase(g, inp).g.emergencyActive) ||
              (g.isSystemActive && Elapsed(inp.now, g.lastMotionTime) <= ActiveDuration)
  {
    var f := Front(g, inp);
    var c := ComfortPhase(f.g, inp);
    assert f.g.motionDetected == g.motionDetected && f.g.isSystemActive == g.isSystemActive;
    assert f.g.lastMotionTime == g.lastMotionTime && f.g.emergencyActive == PanicPhase(g, inp).g.emergencyActive;
    if g.motionDetected && !PanicPhase(g, inp).g.emergencyActive {
      assert Elapsed(inp.now, c.g.lastMotionTime) == 0;
    }
  }

  /** An emergency ends once more than 15 s passed since it started, and
      not before; the window stays shut for the rest of that pass. */
  lemma TimeoutRule(g: Globals, inp: Inputs)
    requires g.emergencyActive
    ensures var s := Step(g, inp).g;
            s.emergencyActive <==> Elapsed(inp.now, g.emergencyStartTime) <= EmergencyDuration
    ensures Step(g, inp).g.isWindowClosed
  {
  }

  /** An emergency always has the window shut. */
  predicate Safe(g: Globals)
  {
    g.emergencyActive ==> g.isWindowClosed
  }

  /** Whatever the state before, after a pass an emergency has the window shut. */
  lemma StepIsSafe(g: Globals, inp: Inputs)
    ensures Safe(Step(g, inp).g)
  {
  }

  /** A message goes out only when due and connected; when due, the timer
      restarts whether or not it went out; otherwise nothing changes. */
  lemma ThrottleRule(g: Globals, inp: Inputs)
    ensures Publishes(Step(g, inp).actions) ==> inp.connected && MessageDue(g, inp.now)
    ensures inp.connected && MessageDue(g, inp.now) ==> Publish(PayloadOf(Step(g, inp).g, inp)) in Step(g, inp).actions
    ensures MessageDue(g, inp.now) ==> Step(g, inp).g.lastMsgTime == inp.now
    ensures !MessageDue(g, inp.now) ==> Step(g, inp).g.lastMsgTime == g.lastMsgTime
  {
    var f := Front(g, inp);
    var b := Back(f.g, inp);
    BackThrottle(f.g, inp);
    FrontNeverPublishes(g, inp);
    PublishesAppend(f.actions, b.actions);
    if inp.connected && MessageDue(g, inp.now) {
      var k :| 0 <= k < |b.actions| && b.actions[k] == Publish(PayloadOf(b.g, inp));
      assert (f.actions + b.actions)[|f.actions| + k] == Publish(PayloadOf(b.g, inp));
    }
  }

  /** The first half of a pass sends nothing to the broker. */
  lemma FrontNeverPublishes(g: Globals, inp: Inputs)
    ensures !Publishes(Front(g, inp).actions)
  {
    var p := PanicPhase(g, inp);
    var w := WindowPhase(p.g, inp);
    assert forall k :: 0 <= k < |p.actions| ==> !p.actions[k].Publish?;
    PublishesAppend(p.actions, SmokePhase(p.g, inp));
    PublishesAppend(p.actions + SmokePhase(p.g, inp), w.actions);
  }

  /** A concatenation publishes iff one of its parts does. */
  lemma PublishesAppend(a: seq<Action>, b: seq<Action>)
    ensures Publishes(a + b) <==> Publishes(a) || Publishes(b)
  {
    if Publishes(a) {
      var k :| 0 <= k < |a| && a[k].Publish?;
      assert (a + b)[k] == a[k];
    }
    if Publishes(b) {
      var k :| 0 <= k < |b| && b[k].Publish?;
      assert (a + b)[|a| + k] == b[k];
    }
    if Publishes(a + b) {
      var k :| 0 <= k < |a + b| && (a + b)[k].Publish?;
      if k < |a| {
        assert a[k] == (a + b)[k];
      } else {
        assert b[k - |a|] == (a + b)[k];
      }
    }
  }

  /** While no pass comes more than `interval` after the stamp of the last
      message, nothing is published and the stamp stays. */
  lemma {:induction false} QuietWithinInterval(g: Globals, inputs: seq<Inputs>)
    requires forall k :: 0 <= k < |inputs| ==> !MessageDue(g, inputs[k].now)
    ensures !Publishes(Run(g, inputs).actions) && Run(g, inputs).g.lastMsgTime == g.lastMsgTime
    decreases |inputs|
  {
    if inputs != [] {
      var o := Step(g, inputs[0]);
      ThrottleRule(g, inputs[0]);
      assert !MessageDue(g, inputs[0].now);
      assert forall k :: 0 <= k < |inputs[1..]| ==> !MessageDue(o.g, inputs[1..][k].now);
      QuietWithinInterval(o.g, inputs[1..]);
      PublishesAppend(o.actions, Run(o.g, inputs[1..]).actions);
    }
  }

  /** The published keys, in order, and the meaning of the emergency field. */
  lemma PayloadFields(g: Globals, inp: Inputs)
    ensures var p := PayloadOf(g, inp);
            |p| == 7 && p[0].0 == "smoke" && p[1].0 == "air" && p[2].0 == "light" && p[3].0 == "rain" &&
            p[4].0 == "motion" && p[5].0 == "window" && p[6].0 == "emergency"
    ensures PayloadOf(g, inp)[6].1 == JStr("true") <==> g.emergencyActive
    ensures PayloadOf(g, inp)[5].1 == JStr("CLOSED") <==> g.isWindowClosed
    ensures PayloadOf(g, inp)[4].1 == JBool(g.isSystemActive)
  {
    assert "true" != "false" by { assert "true"[0] != "false"[0]; }
    assert "CLOSED" != "OPEN" by { assert "CLOSED"[0] != "OPEN"[0]; }
  }

  /** The hardware commands of one `playTone` loop iteration. */
  function Cycle(pin: int, delayAmount: int): seq<Action>
  {
    [DigitalWrite(pin, High), DelayMicros(delayAmount), DigitalWrite(pin, Low), DelayMicros(delayAmount)]
  }

  /** `n` repetitions of `c`. */
  function Repeat(c: seq<Action>, n: nat): (r: seq<Action>)
    ensures |r| == n * |c|
  {
    if n == 0 then [] else Repeat(c, n - 1) + c
  }

  /** Every block of the repetition is `c`. */
  lemma {:induction false} RepeatBlocks(c: seq<Action>, n: nat, k: nat)
    requires k < n
    ensures Repeat(c, n)[k * |c|..(k + 1) * |c|] == c
  {
    if k < n - 1 {
      RepeatBlocks(c, n - 1, k);
      assert Repeat(c, n) == Repeat(c, n - 1) + c;
      assert (k + 1) * |c| <= (n - 1) * |c|;
    } else {
      assert k * |c| == |Repeat(c, n - 1)|;
    }
  }

  /** Iterations of `playTone`'s loop. The product and both quotients are
      taken on non-negative values whenever the loop runs, so C's truncating
      division and Dafny's agree here. */
  function ToneLoops(frequency: int, duration: int): nat
    requires frequency > 0
  {
    var loops := frequency * duration / 1000;
    if loops > 0 then loops else 0
  }

  /** Half a period, in microseconds. */
  function HalfPeriod(frequency: int): int
    requires frequency > 0
  {
    1000000 / frequency / 2
  }

  /** The waveform `playTone(pin, frequency, duration)` writes. */
  function Waveform(pin: int, frequency: int, duration: int): seq<Action>
    requires frequency > 0
  {
    Repeat(Cycle(pin, HalfPeriod(frequency)), ToneLoops(frequency, duration))
  }

  /** `playTone(pin, frequency, duration)`: the pin toggles high then low,
      half a period each, `frequency * duration / 1000` times. The source's
      32-bit `int` product must not overflow. */
  method PlayTone(pin: int, frequency: int, duration: int) returns (writes: seq<Action>)
    requires frequency > 0 && -0x8000_0000 <= frequency * duration < 0x8000_0000
    ensures writes == Waveform(pin, frequency, duration)
    ensures |writes| == 4 * ToneLoops(frequency, duration)
    ensures forall k :: 0 <= k < ToneLoops(frequency, duration) ==> writes[4 * k..4 * k + 4] == Cycle(pin, HalfPeriod(frequency))
  {
    var delayAmount := 1000000 / frequency / 2;
    var loops := frequency * duration / 1000;
    writes := [];
    var i := 0;
    while i < loops
      invariant 0 <= i && (loops <= 0 ==> i == 0) && (loops > 0 ==> i <= loops)
      invariant writes == Repeat(Cycle(pin, delayAmount), i)
    {
      writes := writes + [DigitalWrite(pin, High), DelayMicros(delayAmount), DigitalWrite(pin, Low), DelayMicros(delayAmount)];
      i := i + 1;
    }
    forall k | 0 <= k < ToneLoops(frequency, duration)
      ensures writes[4 * k..4 * k + 4] == Cycle(pin, HalfPeriod(frequency))
    {
      RepeatBlocks(Cycle(pin, delayAmount), ToneLoops(frequency, duration), k);
    }
  }

  lemma Associative(a: seq<Action>, b: seq<Action>, c: seq<Action>)
    ensures a + (b + c) == a + b + c
  {
  }

  /** The sketch's globals and the commands issued so far. */
  class Esp32 {
    var motionDetected: bool
    var isSystemActive: bool
    var lastMotionTime: u32
    var isWindowClosed: bool
    var emergencyActive: bool
    var emergencyStartTime: u32
    var startupTime: u32
    var lastMsgTime: u32
    /** Every command issued to the hardware or the broker, oldest first. */
    var issued: seq<Action>

    function State(): Globals
      reads this
    {
      Globals(motionDetected, isSystemActive, lastMotionTime, isWindowClosed, emergencyActive,
              emergencyStartTime, startupTime, lastMsgTime)
    }

    /** The globals' initial values and the part of `setup()` that drives
        the outputs and stamps `startupTime`. */
    constructor (now: u32)
      ensures State() == Globals(false, false, 0, false, false, 0, now, 0)
      ensures issued == [DigitalWrite(BuzzerPin, Low), DigitalWrite(FanRelayPin, High),
                         DigitalWrite(LedRelayPin, High), ServoWrite(WindowOpenAngle)]
    {
      motionDetected, isSystemActive, lastMotionTime := false, false, 0;
      isWindowClosed, emergencyActive, emergencyStartTime := false, false, 0;
      lastMsgTime := 0;
      startupTime := now;
      issued := [DigitalWrite(BuzzerPin, Low), DigitalWrite(FanRelayPin, High),
                 DigitalWrite(LedRelayPin, High), ServoWrite(WindowOpenAngle)];
    }

    /** The PIR interrupt handler `motionDetect()`. */
    method MotionDetect()
      modifies this
      ensures State() == old(State()).(motionDetected := true) && issued == old(issued)
    {
      motionDetected := true;
    }

    /** `triggerEmergency()` */
    method TriggerEmergency(now: u32)
      modifies this
      ensures State() == Trigger(old(State()), now).g
      ensures issued == old(issued) + Trigger(old(State()), now).actions
    {
      emergencyActive := true;
      emergencyStartTime := now;
      issued := issued + [ServoWrite(WindowClosedAngle)];
      isWindowClosed := true;
      issued := issued + [Tone(BuzzerPin, 1200, 500)];
    }

    /** The panic-button block of `loop()`. */
    method PanicButton(inp: Inputs)
      modifies this
      ensures State() == PanicPhase(old(State()), inp).g
      ensures issued == old(issued) + PanicPhase(old(State()), inp).actions
    {
      if inp.panicFirst == Low && !emergencyActive {
        if inp.panicSecond == Low {
          TriggerEmergency(inp.now);
        }
      }
    }

    /** The smoke-alarm block. */
    method SmokeAlarmBlock(inp: Inputs)
      modifies this
      ensures State() == old(State())
      ensures issued == old(issued) + SmokePhase(old(State()), inp)
    {
      if Elapsed(inp.now, startupTime) > SensorWarmupTime {
        var smokeAlarm := inp.smokeValue > SmokeThreshold;
        if smokeAlarm {
          issued := issued + [Tone(BuzzerPin, 1000, 100)];
        }
      }
    }

    /** The window-control block. */
    method WindowControl(inp: Inputs)
      modifies this
      ensures State() == WindowPhase(old(State()), inp).g
      ensures issued == old(issued) + WindowPhase(old(State()), inp).actions
    {
      var rainDetected := inp.rainPin == Low;
      var badAir := inp.airValue > AirQualityThreshold;
      if rainDetected || badAir || emergencyActive {
        if !isWindowClosed {
          issued := issued + [ServoWrite(WindowClosedAngle)];
          isWindowClosed := true;
        }
      } else {
        if isWindowClosed {
          issued := issued + [ServoWrite(WindowOpenAngle)];
          isWindowClosed := false;
        }
      }
    }

    /** The smart-comfort block. */
    method SmartComfort(inp: Inputs)
      modifies this
      ensures State() == ComfortPhase(old(State()), inp).g
      ensures issued == old(issued) + ComfortPhase(old(State()), inp).actions
    {
      var isDark := inp.lightLevel > LightThreshold;
      if motionDetected && !emergencyActive {
        issued := issued + [DigitalWrite(FanRelayPin, Low), DigitalWrite(LedRelayPin, if isDark then Low else High)];
        isSystemActive := true;
        lastMotionTime := inp.now;
        motionDetected := false;
      }
    }

    /** The idle timeout. */
    method IdleTimeout(now: u32)
      modifies this
      ensures State() == IdlePhase(old(State()), now).g
      ensures issued == old(issued) + IdlePhase(old(State()), now).actions
    {
      if isSystemActive && Elapsed(now, lastMotionTime) > ActiveDuration {
        issued := issued + [DigitalWrite(FanRelayPin, High), DigitalWrite(LedRelayPin, High)];
        isSystemActive := false;
      }
    }

    /** The emergency-mode block. */
    method EmergencyMode(now: u32)
      modifies this
      ensures State() == EmergencyPhase(old(State()), now).g
      ensures issued == old(issued) + EmergencyPhase(old(State()), now).actions
    {
      if emergencyActive {
        issued := issued + [DigitalWrite(LedRelayPin, Low), Tone(BuzzerPin, 1000, 100), DigitalWrite(LedRelayPin, High)];
        if Elapsed(now, emergencyStartTime) > EmergencyDuration {
          emergencyActive := false;
        }
      }
    }

    /** The MQTT block. */
    method MqttBlock(inp: Inputs)
      modifies this
      ensures State() == MqttPhase(old(State()), inp).g
      ensures issued == old(issued) + MqttPhase(old(State()), inp).actions
    {
      if Elapsed(inp.now, lastMsgTime) > Interval {
        lastMsgTime := inp.now;
        var doc := [("smoke", JInt(inp.smokeValue)), ("air", JInt(inp.airValue)), ("light", JInt(inp.lightLevel)),
                    ("rain", JBool(inp.rainPin == Low)), ("motion", JBool(isSystemActive)),
                    ("window", JStr(if isWindowClosed then "CLOSED" else "OPEN")),
                    ("emergency", JStr(if emergencyActive then "true" else "false"))];
        if inp.connected {
          issued := issued + [Publish(doc)];
        }
      }
    }

    /** `loop()` */
    method Loop(inp: Inputs)
      modifies this
      ensures State() == Step(old(State()), inp).g
      ensures issued == old(issued) + Step(old(State()), inp).actions
    {
      ghost var g, before := State(), issued;
      PanicButton(inp);
      SmokeAlarmBlock(inp);
      WindowControl(inp);
      assert State() == Front(g, inp).g;
      ghost var p := PanicPhase(g, inp);
      Associative(before, p.actions + SmokePhase(p.g, inp), WindowPhase(p.g, inp).actions);
      Associative(before, p.actions, SmokePhase(p.g, inp));
      assert issued == before + Front(g, inp).actions;
      ghost var f, middle := State(), issued;
      ghost var c := ComfortPhase(f, inp);
      ghost var i := IdlePhase(c.g, inp.now);
      ghost var e := EmergencyPhase(i.g, inp.now);
      SmartComfort(inp);
      IdleTimeout(inp.now);
      EmergencyMode(inp.now);
      MqttBlock(inp);
      assert State() == Back(f, inp).g;
      ghost var m := MqttPhase(e.g, inp);
      assert issued == middle + c.actions + i.actions + e.actions + m.actions;
      Associative(middle, c.actions + i.actions + e.actions, m.actions);
      Associative(middle, c.actions + i.actions, e.actions);
      Associative(middle, c.actions, i.actions);
      Associative(before, Front(g, inp).actions, Back(f, inp).actions);
    }
  }
}
