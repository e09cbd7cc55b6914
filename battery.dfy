/**
 * Battery sampling and the telemetry note. The ADC reading is clamped to the
 * calibrated range 500 (empty, about 3.75 V) .. 800 (full, about 6.40 V) and
 * turned into a percentage, computed here over the reals.
 */
module Battery {
  import opened Wrappers
  import opened Relay

  const Empty: nat := 500
  const Full: nat := 800

  datatype SensorReadings = SensorReadings(raw_battery_reading: nat, battery_percentage: real)

  /** Distance between two readings. */
  function Dist(x: int, y: int): (d: nat) { if x < y then y - x else x - y }

  /** The calibrated reading: the point of [Empty, Full] nearest the raw ADC value. */
  function Clamp(adc: nat): (raw: nat)
    ensures Empty <= raw <= Full
    ensures Empty <= adc <= Full ==> raw == adc
    ensures forall y: int :: Empty <= y <= Full ==> Dist(adc, raw) <= Dist(adc, y)
  {
    if adc < Empty then Empty else if adc > Full then Full else adc
  }

  /** ((raw - 500) / 300) * 100 */
  function Percentage(raw: nat): (pct: real)
    requires Empty <= raw <= Full
    ensures 0.0 <= pct <= 100.0
    ensures pct * 3.0 == (raw - Empty) as real
  {
    ((raw - Empty) as real / 300.0) * 100.0
  }

  /** What one sample reports for a raw ADC value. */
  function Sample(adc: nat): (r: SensorReadings)
    ensures Empty <= r.raw_battery_reading <= Full
    ensures 0.0 <= r.battery_percentage <= 100.0
  {
    var raw := Clamp(adc);
    SensorReadings(raw, Percentage(raw))
  }

  lemma PercentageEnds()
    ensures Percentage(Empty) == 0.0 && Percentage(650) == 50.0 && Percentage(Full) == 100.0
    ensures Percentage(620) == 40.0
  {
  }

  /** A fuller battery never reports a lower percentage. */
  lemma SampleMonotone(a: nat, b: nat)
    requires a <= b
    ensures Sample(a).raw_battery_reading <= Sample(b).raw_battery_reading
    ensures Sample(a).battery_percentage <= Sample(b).battery_percentage
  {
  }

  /** Within the calibrated range a higher reading reports a strictly higher percentage. */
  lemma PercentageStrict(a: nat, b: nat)
    requires Empty <= a < b <= Full
    ensures Percentage(a) < Percentage(b)
  {
  }

  /**
   * note.add with body {raw_battery_reading, battery_percentage}; when the
   * body object could not be attached (`bodyOk` false) the request goes
   * without it.
   */
  function NoteAdd(r: SensorReadings, bodyOk: bool): (e: Emitted)
    ensures e.Sent? && e.name == "note.add" && e.via == Send && e.kind == Request
    ensures bodyOk <==> e.fields != []
    ensures bodyOk ==> At(Obj(e.fields), [Key("body"), Key("raw_battery_reading")]) == Some(Int(r.raw_battery_reading))
    ensures bodyOk ==> At(Obj(e.fields), [Key("body"), Key("battery_percentage")]) == Some(Num(r.battery_percentage))
  {
    var body := Obj([Field("raw_battery_reading", Int(r.raw_battery_reading)),
                     Field("battery_percentage", Num(r.battery_percentage))]);
    assert body.members[0].key != "battery_percentage";
    assert FirstMember(body.members[1..], "battery_percentage") == Some(Num(r.battery_percentage));
    Sent(Request, "note.add", if bodyOk then [Field("body", body)] else [], Send)
  }
}
