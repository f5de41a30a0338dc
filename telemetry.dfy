/** The link between the controller and the dashboard: a published payload,
    once decoded from JSON, is a sensor record the dashboard reads. */
module Telemetry {
  import opened Wrappers
  import opened Records
  import Controller
  import Status

  /** `json.loads` of one value. */
  function FromJson(v: Controller.Json): Value
  {
    match v
    case JInt(i) => VInt(i)
    case JBool(b) => VBool(b)
    case JStr(s) => VStr(s)
  }

  /** `json.loads` of a whole document: a later key overrides an earlier one. */
  function Decode(p: Controller.Payload): Record
    decreases |p|
  {
    if p == [] then map[]
    else Decode(p[..|p| - 1])[p[|p| - 1].0 := FromJson(p[|p| - 1].1)]
  }

  /** Every key of the document is decoded, and nothing else. */
  lemma {:induction false} DecodeKeys(p: Controller.Payload)
    ensures forall i | 0 <= i < |p| :: p[i].0 in Decode(p)
    ensures forall k | k in Decode(p) :: exists i | 0 <= i < |p| :: p[i].0 == k
    decreases |p|
  {
    if p != [] {
      var init := p[..|p| - 1];
      DecodeKeys(init);
      assert forall i | 0 <= i < |init| :: init[i] == p[i];
    }
  }

  /** The value decoded for a key is that of its last occurrence. */
  lemma {:induction false} DecodeLastWins(p: Controller.Payload, i: nat)
    requires i < |p|
    requires forall j | i < j < |p| :: p[j].0 != p[i].0
    ensures p[i].0 in Decode(p) && Decode(p)[p[i].0] == FromJson(p[i].1)
    decreases |p|
  {
    if i < |p| - 1 {
      var init := p[..|p| - 1];
      assert forall j | i < j < |init| :: init[j] == p[j];
      DecodeLastWins(init, i);
    }
  }

  /** The record stored for a pass's payload, field by field. */
  lemma DecodedPayload(g: Controller.Globals, inp: Controller.Inputs)
    ensures var r := Decode(Controller.PayloadOf(g, inp));
            r == map["smoke" := VInt(inp.smokeValue), "air" := VInt(inp.airValue), "light" := VInt(inp.lightLevel),
                     "rain" := VBool(Controller.RainDetected(inp)), "motion" := VBool(g.isSystemActive),
                     "window" := VStr(if g.isWindowClosed then "CLOSED" else "OPEN"),
                     "emergency" := VStr(if g.emergencyActive then "true" else "false")]
  {
    var p := Controller.PayloadOf(g, inp);
    assert p[..1][..0] == [];
    assert Decode(p[..1]) == map[p[0].0 := FromJson(p[0].1)];
    assert p[..2][..1] == p[..1];
    assert Decode(p[..2]) == Decode(p[..1])[p[1].0 := FromJson(p[1].1)];
    assert p[..3][..2] == p[..2];
    assert Decode(p[..3]) == Decode(p[..2])[p[2].0 := FromJson(p[2].1)];
    assert p[..4][..3] == p[..3];
    assert Decode(p[..4]) == Decode(p[..3])[p[3].0 := FromJson(p[3].1)];
    assert p[..5][..4] == p[..4];
    assert Decode(p[..5]) == Decode(p[..4])[p[4].0 := FromJson(p[4].1)];
    assert p[..6][..5] == p[..5];
    assert Decode(p[..6]) == Decode(p[..5])[p[5].0 := FromJson(p[5].1)];
    assert p[..6] == p[..|p| - 1];
    assert Decode(p) == Decode(p[..6])[p[6].0 := FromJson(p[6].1)];
  }

  /** The dashboard sees a panic in a controller record exactly when the
      controller was in an emergency after that pass. */
  lemma PanicSeenIffEmergency(g: Controller.Globals, inp: Controller.Inputs)
    ensures IsPanic(Decode(Controller.PayloadOf(g, inp))) == g.emergencyActive
  {
    DecodedPayload(g, inp);
    var r := Decode(Controller.PayloadOf(g, inp));
    assert "panic" !in r by {
      assert "panic"[0] != "smoke"[0] && "panic"[0] != "air"[0] && "panic"[0] != "light"[0];
      assert "panic"[0] != "rain"[0] && "panic"[0] != "motion"[0] && "panic"[0] != "window"[0];
      assert "panic"[0] != "emergency"[0];
    }
    assert "false" != "true" by { assert "false"[0] != "true"[0]; }
  }

  /** The record of a pass that is published: its `emergency` field
      reflects the state after the emergency timeout was applied. */
  lemma PublishedRecordPanic(g: Controller.Globals, inp: Controller.Inputs, payload: Controller.Payload)
    requires Controller.Publish(payload) in Controller.Step(g, inp).actions
    ensures IsPanic(Decode(payload)) == Controller.Step(g, inp).g.emergencyActive
  {
    Controller.PublishedPayload(g, inp, payload);
    PanicSeenIffEmergency(Controller.Step(g, inp).g, inp);
  }

  /** As written, the light band of every controller record is the darkest
      one, however bright it is: the record has no `ldr` field. */
  lemma LiveLightBandAsWritten(g: Controller.Globals, inp: Controller.Inputs)
    ensures var p := Status.StatusPanelAsWritten(Decode(Controller.PayloadOf(g, inp)));
            p.Some? && p.value.light == Status.NewMoon
  {
    DecodedPayload(g, inp);
    var r := Decode(Controller.PayloadOf(g, inp));
    assert "ldr" !in r by {
      assert "ldr"[0] != "smoke"[0] && "ldr"[0] != "air"[0] && "ldr"[0] != "rain"[0];
      assert "ldr"[0] != "motion"[0] && "ldr"[0] != "window"[0] && "ldr"[0] != "emergency"[0];
      assert "ldr"[1] != "light"[1];
    }
  }

  /** Corrected, the light band of a controller record follows the light
      level it carries, and the smoke and air bands follow theirs. */
  lemma LiveLightBandCorrected(g: Controller.Globals, inp: Controller.Inputs)
    ensures var p := Status.StatusPanel(Decode(Controller.PayloadOf(g, inp)));
            p.Some? && p.value.light == Status.LightMoon(Status.Int(inp.lightLevel)) &&
            p.value.smoke == Status.GasColour(Status.Int(inp.smokeValue)) &&
            p.value.air == Status.GasColour(Status.Int(inp.airValue)) &&
            p.value.rain == Controller.RainDetected(inp)
  {
    LiveLightBandAsWritten(g, inp);
    DecodedPayload(g, inp);
  }
}
