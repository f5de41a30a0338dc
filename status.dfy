/** The dashboard's small classifiers: the icon shown next to an alert and
    the colour bands of the live sensor panel.

    The glyphs are named rather than spelled: the dashboard file holds them
    as UTF-8 bytes read back in another encoding. */
module Status {
  import opened Wrappers
  import opened Records

  /** The glyphs of `get_alert_icon`. */
  datatype Icon =
    | Cigarette | Fire | RotatingLight | Sos | RedCircle
    | CameraCross | CameraCheck | RecordButton | FloppyDisk | RoundPushpin

  /** The icon table of `get_alert_icon`. */
  const Icons: map<string, Icon> := map[
    "smoking" := Cigarette, "fire_risk" := Fire, "panic" := RotatingLight,
    "emergency" := Sos, "panic_button" := RedCircle,
    "camera_offline" := CameraCross, "camera_online" := CameraCheck,
    "recording_started" := RecordButton, "recording_saved" := FloppyDisk]

  /** `get_alert_icon(event_type)`: the table entry, or the pushpin. */
  function AlertIcon(eventType: string): (icon: Icon)
    ensures eventType in Icons ==> icon == Icons[eventType]
    ensures eventType !in Icons ==> icon == RoundPushpin
  {
    if eventType in Icons then Icons[eventType] else RoundPushpin
  }

  /** The pushpin marks exactly the event types the table does not list. */
  lemma PushpinMeansUnlisted(eventType: string)
    ensures AlertIcon(eventType) == RoundPushpin <==> eventType !in Icons
  {
    assert RoundPushpin !in Icons.Values;
  }

  /** The alerts the recorder logs: each has its own icon, except a failed
      recording, which falls back to the pushpin. */
  lemma RecorderAlertIcons()
    ensures AlertIcon("panic_button") == RedCircle && AlertIcon("emergency") == Sos
    ensures AlertIcon("recording_started") == RecordButton && AlertIcon("recording_saved") == FloppyDisk
    ensures AlertIcon("recording_error") == RoundPushpin
  {
    assert "recording_error" !in Icons by {
      assert "recording_error"[10] != "recording_saved"[10];
      assert "recording_error"[10] != "recording_started"[10];
      assert "recording_error"[0] != "camera_offline"[0];
      assert "recording_error"[0] != "panic_button"[0];
    }
  }

  /** The traffic-light glyphs of the smoke and air-quality readings. */
  datatype Colour = Green | Yellow | Red

  function ColourRank(c: Colour): nat
  {
    match c
    case Green => 0
    case Yellow => 1
    case Red => 2
  }

  /** A reading as the panel compares it: an integer, or NaN. */
  datatype Number = Int(n: int) | NaN

  /** `x < bound`: every comparison with NaN is false. */
  predicate Below(x: Number, bound: int)
  {
    x.Int? && x.n < bound
  }

  /** The smoke and air bands: green below 2000, yellow below 3000, red from
      3000 on; NaN fails both tests and shows red. */
  function GasColour(v: Number): (c: Colour)
    ensures v.Int? ==> (c == Green <==> v.n < 2000) && (c == Red <==> 3000 <= v.n)
    ensures v.NaN? ==> c == Red
  {
    if Below(v, 2000) then Green else if Below(v, 3000) then Yellow else Red
  }

  lemma {:induction false} GasColourMonotone(a: int, b: int)
    requires a <= b
    ensures ColourRank(GasColour(Int(a))) <= ColourRank(GasColour(Int(b)))
  {
  }

  /** The moon-phase glyphs of the light reading, darkest first. */
  datatype Moon = NewMoon | WaningCrescent | LastQuarter | FullMoon

  function MoonRank(m: Moon): nat
  {
    match m
    case NewMoon => 0
    case WaningCrescent => 1
    case LastQuarter => 2
    case FullMoon => 3
  }

  /** The light bands: cut at 500, 1500 and 2500; NaN fails every test and
      shows the brightest band. */
  function LightMoon(v: Number): (m: Moon)
    ensures v.Int? ==> (m == NewMoon <==> v.n < 500) && (m == WaningCrescent <==> 500 <= v.n < 1500) &&
                       (m == LastQuarter <==> 1500 <= v.n < 2500) && (m == FullMoon <==> 2500 <= v.n)
    ensures v.NaN? ==> m == FullMoon
  {
    if Below(v, 500) then NewMoon else if Below(v, 1500) then WaningCrescent else if Below(v, 2500) then LastQuarter else FullMoon
  }

  lemma {:induction false} LightMoonMonotone(a: int, b: int)
    requires a <= b
    ensures MoonRank(LightMoon(Int(a))) <= MoonRank(LightMoon(Int(b)))
  {
  }

  /** A reading compared with an integer threshold: a missing field reads as
      0, a boolean as 0 or 1, NaN as itself; comparing a string or `None`
      with an integer raises, which is `None` here. */
  function Reading(latest: Record, key: string): (r: Option<Number>)
    ensures key !in latest ==> r == Some(Int(0))
    ensures key in latest && latest[key].VInt? ==> r == Some(Int(latest[key].i))
    ensures key in latest && latest[key].VBool? ==> r == Some(Int(if latest[key].b then 1 else 0))
    ensures key in latest && latest[key].VNaN? ==> r == Some(NaN)
    ensures r.None? <==> key in latest && (latest[key].VStr? || latest[key].VNone?)
  {
    match Get(latest, key, VInt(0))
    case VInt(i) => Some(Int(i))
    case VBool(b) => Some(Int(if b then 1 else 0))
    case VNaN => Some(NaN)
    case VStr(_) => None
    case VNone => None
  }

  /** Python truthiness of a field value; NaN is truthy. */
  predicate Truthy(v: Value)
  {
    match v
    case VBool(b) => b
    case VInt(i) => i != 0
    case VStr(s) => s != ""
    case VNone => false
    case VNaN => true
  }

  /** The live sensor panel: rain, smoke band, air band, light band. */
  datatype Panel = Panel(rain: bool, smoke: Colour, air: Colour, light: Moon)

  /** The panel for a given light reading; `None` when a comparison raises. */
  function PanelWith(latest: Record, light: Option<Number>): (p: Option<Panel>)
    ensures p.Some? <==> Reading(latest, "smoke").Some? && Reading(latest, "air").Some? && light.Some?
    ensures p.Some? ==> p.value.smoke == GasColour(Reading(latest, "smoke").value) &&
                        p.value.air == GasColour(Reading(latest, "air").value) &&
                        p.value.light == LightMoon(light.value)
    ensures p.Some? ==> p.value.rain == Truthy(Get(latest, "rain", VBool(false)))
  {
    var smoke, air := Reading(latest, "smoke"), Reading(latest, "air");
    if smoke.Some? && air.Some? && light.Some? then
      Some(Panel(Truthy(Get(latest, "rain", VBool(false))), GasColour(smoke.value), GasColour(air.value), LightMoon(light.value)))
    else
      None
  }

  /** The panel as the dashboard computes it: the light level is read from
      the `ldr` field. */
  function StatusPanelAsWritten(latest: Record): (p: Option<Panel>)
    ensures p.Some? <==> Reading(latest, "smoke").Some? && Reading(latest, "air").Some? && Reading(latest, "ldr").Some?
    ensures p.Some? && "ldr" !in latest ==> p.value.light == NewMoon
    ensures p.Some? && "ldr" in latest && latest["ldr"].VInt? ==> p.value.light == LightMoon(Int(latest["ldr"].i))
    ensures p.Some? && "ldr" in latest && latest["ldr"].VNaN? ==> p.value.light == FullMoon
  {
    PanelWith(latest, Reading(latest, "ldr"))
  }

  /** The light reading with the controller's field name as a fallback: the
      controller publishes the level under `light`, while demo records
      carry `ldr`. */
  function LightReading(latest: Record): (r: Option<Number>)
    ensures "ldr" in latest ==> r == Reading(latest, "ldr")
    ensures "ldr" !in latest ==> r == Reading(latest, "light")
  {
    if "ldr" in latest then Reading(latest, "ldr") else Reading(latest, "light")
  }

  /** The panel with the light reading corrected. */
  function StatusPanel(latest: Record): (p: Option<Panel>)
    ensures "ldr" in latest ==> p == StatusPanelAsWritten(latest)
    ensures p.Some? && "ldr" !in latest && "light" in latest && latest["light"].VInt? ==>
              p.value.light == LightMoon(Int(latest["light"].i))
  {
    PanelWith(latest, LightReading(latest))
  }
}
