/** Sensor records as the dashboard receives them: loosely typed field maps. */
module Records {

  /** A field value of a record. `VNone` stands for Python's `None`; `VNaN`
      for the NaN that pandas writes into a field this record lacks while
      another record of the same batch has it. */
  datatype Value = VBool(b: bool) | VInt(i: int) | VStr(s: string) | VNone | VNaN

  /** One sensor reading: field name to value. */
  type Record = map<string, Value>

  /** `record.get(key, default)`. */
  function Get(r: Record, key: string, default: Value): Value
  {
    if key in r then r[key] else default
  }

  /** Python's `v == True or v == "true"`. In Python the integer 1 is equal to
      `True`, so it counts as well. */
  predicate IsTrueFlag(v: Value)
  {
    v == VBool(true) || v == VInt(1) || v == VStr("true")
  }

  /** The panic test of `check_and_handle_panic`: the `panic` or the
      `emergency` field (each defaulting to `False`) is true or "true". */
  function IsPanic(latest: Record): (p: bool)
    ensures p <==> exists key :: key in latest && (key == "panic" || key == "emergency") && IsTrueFlag(latest[key])
    ensures latest == map[] ==> !p
  {
    IsTrueFlag(Get(latest, "panic", VBool(false))) || IsTrueFlag(Get(latest, "emergency", VBool(false)))
  }
}
