/**
 * The simulated wristband (`XiaomiMyBand`): value generators, the two
 * device counters, and `publish`, which sends one record to each of five
 * queues.
 *
 * Random draws and wall-clock readings are parameters. A draw is the value
 * of the primitive under Python's `random` functions: `random.uniform(a, b)`
 * is `a + (b - a) * random.random()` with `random.random()` in [0, 1), and
 * `random.randint(a, b)` is `a + r` with `r` drawn below `b - a + 1`.
 */
module Band {
  import opened Numerals
  import opened Codec

  const Producer := "Xiaomi"
  const ModelName := "Xiaomi My Band 2"
  const HardwareVersion := "2.0.3.2.1"
  const SoftwareVersion := "10.2.3.1"
  const InitialStepCount := 0
  const InitialBatteryLevel := 81

  /** The queues of one publish cycle, in the order the records are sent. */
  const Topics: seq<string> := ["body_temperature", "heart_rate", "blood_preasure", "positions", "medicine"]

  /** The fields of each record before the metadata, queue by queue. */
  const TopicFields: seq<seq<string>> := [
    ["body_temperature"], ["heart_rate"], ["blood_preasure"],
    ["x_position", "y_position", "z_position"],
    ["medicine", "dose", "first_intake", "hour"]]

  const Medicines: seq<string> := ["Paracetamol", "Ibuprofeno", "Insulina", "Furosemida", "Piroxicam", "Tolbutamida"]

  /** The fields every record carries after its topic fields, in insertion order. */
  const MetadataKeys: seq<string> := ["id", "datetime", "producer", "model", "hardware_version", "software_version"]

  // ---------------------------------------------------------------------
  // Wall clock
  // ---------------------------------------------------------------------

  /** One reading of the wall clock, as `time.strftime` formats it. */
  datatype Clock = Clock(day: int, month: int, year: int, hour: int, minute: int, second: int)

  predicate ValidClock(c: Clock) {
    && 1 <= c.day <= 31 && 1 <= c.month <= 12 && 1000 <= c.year <= 9999
    && 0 <= c.hour <= 23 && 0 <= c.minute <= 59 && 0 <= c.second <= 61
  }

  /** A two-digit, zero-padded field of `strftime`. */
  function Pad2(n: int): (s: string)
    requires 0 <= n <= 99
    ensures |s| == 2 && AllDigits(s) && DigitsValue(s) == n
  {
    var s := [DigitChar(n / 10), DigitChar(n % 10)];
    TwoDigitsValue(s);
    s
  }

  function Pad4(n: int): (s: string)
    requires 0 <= n <= 9999
    ensures |s| == 4 && AllDigits(s)
  {
    Pad2(n / 100) + Pad2(n % 100)
  }

  /** `simulate_datetime`: `time.strftime("%d:%m:%Y:%H:%M:%S")`. */
  function SimulateDatetime(c: Clock): string
    requires ValidClock(c)
  {
    Pad2(c.day) + ":" + Pad2(c.month) + ":" + Pad4(c.year) + ":"
    + Pad2(c.hour) + ":" + Pad2(c.minute) + ":" + Pad2(c.second)
  }

  /**
   * The datetime text is 19 characters, six two-digit fields and a
   * four-digit year separated by colons; the hour sits at positions 11-12
   * and the minute at 14-15.
   */
  lemma DatetimeLayout(c: Clock)
    requires ValidClock(c)
    ensures var s := SimulateDatetime(c);
      && |s| == 19
      && (forall i :: 0 <= i < 19 ==> (if i in {2, 5, 10, 13, 16} then s[i] == ':' else IsDigit(s[i])))
      && DigitsValue(s[11..13]) == c.hour && DigitsValue(s[14..16]) == c.minute
  {
    var s := SimulateDatetime(c);
    assert s[11..13] == Pad2(c.hour) && s[14..16] == Pad2(c.minute);
  }

  // ---------------------------------------------------------------------
  // Value generators
  // ---------------------------------------------------------------------

  /** `simulate_body_temperature`: `random.uniform(67, 72)`. */
  function SimulateBodyTemperature(u: real): (t: real)
    requires 0.0 <= u < 1.0
    ensures 67.0 <= t < 72.0
  {
    67.0 + (72.0 - 67.0) * u
  }

  /** `simulate_x_position` (and the y and z ones): `random.uniform(0, 1)`. */
  function SimulatePosition(u: real): (p: real)
    requires 0.0 <= u < 1.0
    ensures 0.0 <= p < 1.0
  {
    0.0 + (1.0 - 0.0) * u
  }

  /** `simulate_hours_of_sleep`: `10 - random.uniform(0, 3)`. */
  function SimulateHoursOfSleep(u: real): (h: real)
    requires 0.0 <= u < 1.0
    ensures 7.0 < h <= 10.0
  {
    10.0 - (0.0 + (3.0 - 0.0) * u)
  }

  /** `simulate_calories_burned`: `random.randint(1500, 2500)`. */
  function SimulateCaloriesBurned(r: nat): (kcal: int)
    requires r < 1001
    ensures 1500 <= kcal <= 2500
  {
    1500 + r
  }

  /** `simulate_heart_rate`: `random.randint(60, 150)`. */
  function SimulateHeartRate(r: nat): (bpm: int)
    requires r < 91
    ensures 60 <= bpm <= 150
  {
    60 + r
  }

  /** `simulate_blood_preasure`: `random.randint(100, 200)`. */
  function SimulateBloodPreasure(r: nat): (p: int)
    requires r < 101
    ensures 100 <= p <= 200
  {
    100 + r
  }

  /** The `if`/`elif` chain of `simulate_meds`: 1..6 name a medicine, anything else leaves "". */
  function MedicineFor(num: int): (med: string)
    ensures 1 <= num <= 6 ==> med == Medicines[num - 1]
    ensures !(1 <= num <= 6) ==> med == ""
  {
    if num == 1 then "Paracetamol"
    else if num == 2 then "Ibuprofeno"
    else if num == 3 then "Insulina"
    else if num == 4 then "Furosemida"
    else if num == 5 then "Piroxicam"
    else if num == 6 then "Tolbutamida"
    else ""
  }

  /** `simulate_meds`: `num = random.randint(1, 6)`, then the chain above. */
  function SimulateMeds(r: nat): (med: string)
    requires r < 6
    ensures med in Medicines && med == Medicines[r]
  {
    MedicineFor(1 + r)
  }

  /** `simulate_dose`: `random.randint(1, 2)`. */
  function SimulateDose(r: nat): (dose: int)
    requires r < 2
    ensures dose == 1 || dose == 2
  {
    1 + r
  }

  /** The `if`/`elif` chain of `simulate_med_hours`: 1, 2, 3 give 8, 12, 24 hours; anything else leaves 0. */
  function IntervalFor(num: int): (hours: int)
    ensures 1 <= num <= 3 ==> hours == [8, 12, 24][num - 1]
    ensures hours in {8, 12, 24} <==> 1 <= num <= 3
    ensures hours == 0 <==> !(1 <= num <= 3)
  {
    if num == 1 then 8
    else if num == 2 then 12
    else if num == 3 then 24
    else 0
  }

  /** `simulate_med_hours`: `num = random.randint(1, 3)`, then the chain above. */
  function SimulateMedHours(r: nat): (hours: int)
    requires r < 3
    ensures hours in {8, 12, 24}
  {
    IntervalFor(1 + r)
  }

  /**
   * `simulate_first_intake`: an hour drawn from 0 up to the current hour
   * (`int(time.strftime("%H"))`), a colon, and the current two-digit minute
   * (`time.strftime("%M")`). The two readings are separate calls.
   */
  function SimulateFirstIntake(r: nat, hourRead: Clock, minuteRead: Clock): (s: string)
    requires ValidClock(hourRead) && ValidClock(minuteRead)
    requires r < hourRead.hour + 1
    ensures 4 <= |s| <= 5 && s[|s| - 3] == ':'
    ensures AllDigits(s[..|s| - 3]) && DigitsValue(s[..|s| - 3]) == r <= hourRead.hour
    ensures |s| == 5 ==> s[0] != '0'
    ensures AllDigits(s[|s| - 2..]) && DigitsValue(s[|s| - 2..]) == minuteRead.minute
  {
    var h := IntToString(0 + r);
    var s := h + ":" + Pad2(minuteRead.minute);
    assert s[..|s| - 3] == h && s[|s| - 2..] == Pad2(minuteRead.minute);
    NatToStringValue(r);
    s
  }

  // ---------------------------------------------------------------------
  // Records of one publish cycle
  // ---------------------------------------------------------------------

  /** The random draws one `publish` call makes, in the units described above. */
  datatype Draws = Draws(
    temperature: real, heartRate: nat, bloodPressure: nat,
    x: real, y: real, z: real,
    medicine: nat, dose: nat, intakeHour: nat, interval: nat)

  /** The wall-clock readings of one `publish` call: five datetimes and the two reads of `simulate_first_intake`. */
  datatype Readings = Readings(stamps: seq<Clock>, intakeHourRead: Clock, intakeMinuteRead: Clock)

  predicate ValidReadings(t: Readings) {
    && |t.stamps| == 5 && (forall i :: 0 <= i < 5 ==> ValidClock(t.stamps[i]))
    && ValidClock(t.intakeHourRead) && ValidClock(t.intakeMinuteRead)
  }

  /** The ranges of the random primitives behind each draw. */
  predicate ValidDraws(d: Draws, t: Readings) {
    && 0.0 <= d.temperature < 1.0 && d.heartRate < 91 && d.bloodPressure < 101
    && 0.0 <= d.x < 1.0 && 0.0 <= d.y < 1.0 && 0.0 <= d.z < 1.0
    && d.medicine < 6 && d.dose < 2 && d.intakeHour < t.intakeHourRead.hour + 1 && d.interval < 3
  }

  /** One `basic_publish`: the routing key and the dict whose `str` is the body. */
  datatype Outgoing = Outgoing(queue: string, message: Dict)

  /**
   * The six assignments every record gets after its topic fields, in the
   * order `publish` makes them.
   */
  function Stamped(m: Dict, id: int, stamp: Clock): Dict
    requires ValidClock(stamp)
  {
    m.Insert("id", Str(IntToString(id)))
     .Insert("datetime", Str(SimulateDatetime(stamp)))
     .Insert("producer", Str(Producer))
     .Insert("model", Str(ModelName))
     .Insert("hardware_version", Str(HardwareVersion))
     .Insert("software_version", Str(SoftwareVersion))
  }

  /** The six metadata fields as a map. */
  function Metadata(id: int, stamp: Clock): map<string, Value>
    requires ValidClock(stamp)
  {
    map[
      "id" := Str(IntToString(id)),
      "datetime" := Str(SimulateDatetime(stamp)),
      "producer" := Str(Producer),
      "model" := Str(ModelName),
      "hardware_version" := Str(HardwareVersion),
      "software_version" := Str(SoftwareVersion)]
  }

  /** None of the metadata keys is set yet. */
  predicate Unstamped(m: Dict) {
    && "id" !in m.vals && "datetime" !in m.vals && "producer" !in m.vals
    && "model" !in m.vals && "hardware_version" !in m.vals && "software_version" !in m.vals
  }

  lemma MetadataKeysHalves(s: seq<string>)
    ensures s + ["id", "datetime", "producer"] + ["model", "hardware_version", "software_version"] == s + MetadataKeys
  {
  }

  lemma UnstampedKeys(m: Dict)
    requires Unstamped(m)
    ensures forall k :: k in MetadataKeys ==> k !in m.vals
  {
  }

  /**
   * Stamping a well-formed dict that has none of the metadata keys appends
   * the six keys after its own, in order, and adds their values without
   * touching the others.
   */
  lemma StampedShape(m: Dict, id: int, stamp: Clock)
    requires ValidClock(stamp) && m.Valid() && Unstamped(m)
    ensures Stamped(m, id, stamp).Valid()
    ensures Stamped(m, id, stamp).keys == m.keys + MetadataKeys
    ensures Stamped(m, id, stamp).vals == m.vals + Metadata(id, stamp)
  {
    StampIdentity(m, id, stamp);
    var m3 := m.Insert("id", Str(IntToString(id))).Insert("datetime", Str(SimulateDatetime(stamp))).Insert("producer", Str(Producer));
    StampVersions(m3);
    var m6 := m3.Insert("model", Str(ModelName)).Insert("hardware_version", Str(HardwareVersion)).Insert("software_version", Str(SoftwareVersion));
    MetadataKeysHalves(m.keys);
    MetadataUpdates(m.vals, id, stamp);
    MetadataKeysDistinct();
    UnstampedKeys(m);
    ValidExtend(m, MetadataKeys, Metadata(id, stamp), m6);
  }

  /** The first three metadata assignments: who sent the record and when. */
  lemma StampIdentity(m: Dict, id: int, stamp: Clock)
    requires ValidClock(stamp) && Unstamped(m)
    ensures var m3 := m.Insert("id", Str(IntToString(id))).Insert("datetime", Str(SimulateDatetime(stamp))).Insert("producer", Str(Producer));
      && m3.keys == m.keys + ["id", "datetime", "producer"]
      && m3.vals == m.vals["id" := Str(IntToString(id))]["datetime" := Str(SimulateDatetime(stamp))]["producer" := Str(Producer)]
      && "model" !in m3.vals && "hardware_version" !in m3.vals && "software_version" !in m3.vals
  {
    MetadataKeysDiffer();
    var m1 := m.Insert("id", Str(IntToString(id)));
    assert m1.keys == m.keys + ["id"];
    var m2 := m1.Insert("datetime", Str(SimulateDatetime(stamp)));
    assert m2.keys == m1.keys + ["datetime"];
    var m3 := m2.Insert("producer", Str(Producer));
    assert m3.keys == m2.keys + ["producer"];
  }

  /** The last three metadata assignments: the fixed device descriptors. */
  lemma StampVersions(m3: Dict)
    requires "model" !in m3.vals && "hardware_version" !in m3.vals && "software_version" !in m3.vals
    ensures var m6 := m3.Insert("model", Str(ModelName)).Insert("hardware_version", Str(HardwareVersion)).Insert("software_version", Str(SoftwareVersion));
      && m6.keys == m3.keys + ["model", "hardware_version", "software_version"]
      && m6.vals == m3.vals["model" := Str(ModelName)]["hardware_version" := Str(HardwareVersion)]["software_version" := Str(SoftwareVersion)]
  {
    MetadataKeysDiffer();
    var m4 := m3.Insert("model", Str(ModelName));
    assert m4.keys == m3.keys + ["model"];
    var m5 := m4.Insert("hardware_version", Str(HardwareVersion));
    assert m5.keys == m4.keys + ["hardware_version"];
  }

  /** The six metadata keys are different strings, and they are the keys of the metadata map. */
  lemma MetadataKeysDistinct()
    ensures forall i, j :: 0 <= i < j < |MetadataKeys| ==> MetadataKeys[i] != MetadataKeys[j]
    ensures forall id, stamp, k :: ValidClock(stamp) ==> (k in Metadata(id, stamp) <==> k in MetadataKeys)
  {
    MetadataKeysDiffer();
  }

  /** The six metadata keys are different strings. */
  lemma MetadataKeysDiffer()
    ensures "datetime" != "id"
    ensures "producer" !in {"id", "datetime"}
    ensures "model" !in {"id", "datetime", "producer"}
    ensures "hardware_version" !in {"id", "datetime", "producer", "model"}
    ensures "software_version" !in {"id", "datetime", "producer", "model", "hardware_version"}
  {
    assert "software_version"[0] != "hardware_version"[0];
  }

  /** The six assignments add exactly the metadata map. */
  lemma MetadataUpdates(vals: map<string, Value>, id: int, stamp: Clock)
    requires ValidClock(stamp)
    ensures vals
      ["id" := Str(IntToString(id))]
      ["datetime" := Str(SimulateDatetime(stamp))]
      ["producer" := Str(Producer)]
      ["model" := Str(ModelName)]
      ["hardware_version" := Str(HardwareVersion)]
      ["software_version" := Str(SoftwareVersion)] == vals + Metadata(id, stamp)
  {
  }

  /** A record: its own fields, then the six metadata fields. */
  function Record(fields: seq<string>, topic: map<string, Value>, id: int, stamp: Clock): Dict
    requires ValidClock(stamp)
  {
    Dict(fields + MetadataKeys, topic + Metadata(id, stamp))
  }

  function TemperatureRecord(id: int, d: Draws, t: Readings): Dict
    requires ValidDraws(d, t) && ValidReadings(t)
  {
    Record(["body_temperature"], map["body_temperature" := Float(SimulateBodyTemperature(d.temperature))], id, t.stamps[0])
  }

  function HeartRateRecord(id: int, d: Draws, t: Readings): Dict
    requires ValidDraws(d, t) && ValidReadings(t)
  {
    Record(["heart_rate"], map["heart_rate" := Int(SimulateHeartRate(d.heartRate))], id, t.stamps[1])
  }

  function BloodPreasureRecord(id: int, d: Draws, t: Readings): Dict
    requires ValidDraws(d, t) && ValidReadings(t)
  {
    Record(["blood_preasure"], map["blood_preasure" := Int(SimulateBloodPreasure(d.bloodPressure))], id, t.stamps[2])
  }

  function PositionsRecord(id: int, d: Draws, t: Readings): Dict
    requires ValidDraws(d, t) && ValidReadings(t)
  {
    Record(["x_position", "y_position", "z_position"],
           map["x_position" := Float(SimulatePosition(d.x)),
               "y_position" := Float(SimulatePosition(d.y)),
               "z_position" := Float(SimulatePosition(d.z))],
           id, t.stamps[3])
  }

  function MedicineRecord(id: int, d: Draws, t: Readings): Dict
    requires ValidDraws(d, t) && ValidReadings(t)
  {
    Record(["medicine", "dose", "first_intake", "hour"],
           map["medicine" := Str(SimulateMeds(d.medicine)),
               "dose" := Int(SimulateDose(d.dose)),
               "first_intake" := Str(SimulateFirstIntake(d.intakeHour, t.intakeHourRead, t.intakeMinuteRead)),
               "hour" := Int(SimulateMedHours(d.interval))],
           id, t.stamps[4])
  }

  /** A record with one field of its own: the single assignment on an empty dict. */
  lemma SingleField(k: string, v1: Value)
    ensures EmptyDict.Insert(k, v1).keys == [k] && EmptyDict.Insert(k, v1).vals == map[k := v1]
  {
  }

  lemma SingleFieldValid(k: string, v1: Value, m: Dict)
    requires m.keys == [k] && m.vals == map[k := v1]
    ensures m.Valid()
  {
    assert map[] + map[k := v1] == map[k := v1];
    ValidExtend(EmptyDict, [k], map[k := v1], m);
  }

  /** A single field whose key is not a metadata key leaves every metadata key unset. */
  lemma SingleFieldUnstamped(k: string, v1: Value, m: Dict)
    requires k !in MetadataKeys
    requires m.keys == [k] && m.vals == map[k := v1]
    ensures Unstamped(m)
  {
  }

  /**
   * A single-field record: assigning the field on an empty dict and then
   * stamping it builds exactly the record, and the record is well formed.
   */
  lemma SingleShape(k: string, v1: Value, id: int, stamp: Clock)
    requires k !in MetadataKeys && ValidClock(stamp)
    ensures Stamped(EmptyDict.Insert(k, v1), id, stamp) == Record([k], map[k := v1], id, stamp)
    ensures Record([k], map[k := v1], id, stamp).Valid()
  {
    var m := EmptyDict.Insert(k, v1);
    SingleField(k, v1);
    SingleFieldValid(k, v1, m);
    SingleFieldUnstamped(k, v1, m);
    StampedShape(m, id, stamp);
  }

  /**
   * The assignments `publish` makes for the body temperature queue build
   * exactly the body temperature record, and that record is well formed.
   */
  lemma TemperatureShape(id: int, d: Draws, t: Readings)
    requires ValidDraws(d, t) && ValidReadings(t)
    ensures Stamped(EmptyDict.Insert("body_temperature", Float(SimulateBodyTemperature(d.temperature))), id, t.stamps[0]) == TemperatureRecord(id, d, t)
    ensures TemperatureRecord(id, d, t).Valid()
  {
    SingleShape("body_temperature", Float(SimulateBodyTemperature(d.temperature)), id, t.stamps[0]);
  }

  /**
   * The assignments `publish` makes for the heart rate queue build
   * exactly the heart rate record, and that record is well formed.
   */
  lemma HeartRateShape(id: int, d: Draws, t: Readings)
    requires ValidDraws(d, t) && ValidReadings(t)
    ensures Stamped(EmptyDict.Insert("heart_rate", Int(SimulateHeartRate(d.heartRate))), id, t.stamps[1]) == HeartRateRecord(id, d, t)
    ensures HeartRateRecord(id, d, t).Valid()
  {
    SingleShape("heart_rate", Int(SimulateHeartRate(d.heartRate)), id, t.stamps[1]);
  }

  /**
   * The assignments `publish` makes for the blood pressure queue build
   * exactly the blood pressure record, and that record is well formed.
   */
  lemma BloodPreasureShape(id: int, d: Draws, t: Readings)
    requires ValidDraws(d, t) && ValidReadings(t)
    ensures Stamped(EmptyDict.Insert("blood_preasure", Int(SimulateBloodPreasure(d.bloodPressure))), id, t.stamps[2]) == BloodPreasureRecord(id, d, t)
    ensures BloodPreasureRecord(id, d, t).Valid()
  {
    SingleShape("blood_preasure", Int(SimulateBloodPreasure(d.bloodPressure)), id, t.stamps[2]);
  }

  /** The positions fields, assigned in order on an empty dict. */
  lemma PositionsFields(v1: Value, v2: Value, v3: Value)
    ensures var m := EmptyDict.Insert("x_position", v1).Insert("y_position", v2).Insert("z_position", v3);
      m.keys == ["x_position", "y_position", "z_position"] && m.vals == map["x_position" := v1, "y_position" := v2, "z_position" := v3]
  {
    var m1 := EmptyDict.Insert("x_position", v1);
    var m2 := m1.Insert("y_position", v2);
    assert m2.keys == ["x_position", "y_position"];
  }

  lemma PositionsFieldsValid(v1: Value, v2: Value, v3: Value, m: Dict)
    requires m.keys == ["x_position", "y_position", "z_position"] && m.vals == map["x_position" := v1, "y_position" := v2, "z_position" := v3]
    ensures m.Valid()
  {
    assert map[] + map["x_position" := v1, "y_position" := v2, "z_position" := v3] == map["x_position" := v1, "y_position" := v2, "z_position" := v3];
    ValidExtend(EmptyDict, ["x_position", "y_position", "z_position"], map["x_position" := v1, "y_position" := v2, "z_position" := v3], m);
  }

  lemma PositionsFieldsUnstamped(v1: Value, v2: Value, v3: Value, m: Dict)
    requires m.keys == ["x_position", "y_position", "z_position"] && m.vals == map["x_position" := v1, "y_position" := v2, "z_position" := v3]
    ensures Unstamped(m)
  {
  }

  /**
   * The assignments `publish` makes for the positions queue build
   * exactly the positions record, and that record is well formed.
   */
  lemma PositionsShape(id: int, d: Draws, t: Readings)
    requires ValidDraws(d, t) && ValidReadings(t)
    ensures Stamped(EmptyDict.Insert("x_position", Float(SimulatePosition(d.x))).Insert("y_position", Float(SimulatePosition(d.y))).Insert("z_position", Float(SimulatePosition(d.z))), id, t.stamps[3]) == PositionsRecord(id, d, t)
    ensures PositionsRecord(id, d, t).Valid()
  {
    var m := EmptyDict.Insert("x_position", Float(SimulatePosition(d.x))).Insert("y_position", Float(SimulatePosition(d.y))).Insert("z_position", Float(SimulatePosition(d.z)));
    PositionsFields(Float(SimulatePosition(d.x)), Float(SimulatePosition(d.y)), Float(SimulatePosition(d.z)));
    PositionsFieldsValid(Float(SimulatePosition(d.x)), Float(SimulatePosition(d.y)), Float(SimulatePosition(d.z)), m);
    PositionsFieldsUnstamped(Float(SimulatePosition(d.x)), Float(SimulatePosition(d.y)), Float(SimulatePosition(d.z)), m);
    StampedShape(m, id, t.stamps[3]);
  }

  /** The medicine fields, assigned in order on an empty dict. */
  lemma MedicineFields(v1: Value, v2: Value, v3: Value, v4: Value)
    ensures var m := EmptyDict.Insert("medicine", v1).Insert("dose", v2).Insert("first_intake", v3).Insert("hour", v4);
      m.keys == ["medicine", "dose", "first_intake", "hour"] && m.vals == map["medicine" := v1, "dose" := v2, "first_intake" := v3, "hour" := v4]
  {
    var m1 := EmptyDict.Insert("medicine", v1);
    var m2 := m1.Insert("dose", v2);
    assert m2.keys == ["medicine", "dose"];
    var m3 := m2.Insert("first_intake", v3);
    assert m3.keys == ["medicine", "dose", "first_intake"];
  }

  lemma MedicineFieldsValid(v1: Value, v2: Value, v3: Value, v4: Value, m: Dict)
    requires m.keys == ["medicine", "dose", "first_intake", "hour"] && m.vals == map["medicine" := v1, "dose" := v2, "first_intake" := v3, "hour" := v4]
    ensures m.Valid()
  {
    assert map[] + map["medicine" := v1, "dose" := v2, "first_intake" := v3, "hour" := v4] == map["medicine" := v1, "dose" := v2, "first_intake" := v3, "hour" := v4];
    ValidExtend(EmptyDict, ["medicine", "dose", "first_intake", "hour"], map["medicine" := v1, "dose" := v2, "first_intake" := v3, "hour" := v4], m);
  }

  lemma MedicineFieldsUnstamped(v1: Value, v2: Value, v3: Value, v4: Value, m: Dict)
    requires m.keys == ["medicine", "dose", "first_intake", "hour"] && m.vals == map["medicine" := v1, "dose" := v2, "first_intake" := v3, "hour" := v4]
    ensures Unstamped(m)
  {
  }

  /**
   * The assignments `publish` makes for the medicine queue build
   * exactly the medicine record, and that record is well formed.
   */
  lemma MedicineShape(id: int, d: Draws, t: Readings)
    requires ValidDraws(d, t) && ValidReadings(t)
    ensures Stamped(EmptyDict.Insert("medicine", Str(SimulateMeds(d.medicine))).Insert("dose", Int(SimulateDose(d.dose))).Insert("first_intake", Str(SimulateFirstIntake(d.intakeHour, t.intakeHourRead, t.intakeMinuteRead))).Insert("hour", Int(SimulateMedHours(d.interval))), id, t.stamps[4]) == MedicineRecord(id, d, t)
    ensures MedicineRecord(id, d, t).Valid()
  {
    var m := EmptyDict.Insert("medicine", Str(SimulateMeds(d.medicine))).Insert("dose", Int(SimulateDose(d.dose))).Insert("first_intake", Str(SimulateFirstIntake(d.intakeHour, t.intakeHourRead, t.intakeMinuteRead))).Insert("hour", Int(SimulateMedHours(d.interval)));
    MedicineFields(Str(SimulateMeds(d.medicine)), Int(SimulateDose(d.dose)), Str(SimulateFirstIntake(d.intakeHour, t.intakeHourRead, t.intakeMinuteRead)), Int(SimulateMedHours(d.interval)));
    MedicineFieldsValid(Str(SimulateMeds(d.medicine)), Int(SimulateDose(d.dose)), Str(SimulateFirstIntake(d.intakeHour, t.intakeHourRead, t.intakeMinuteRead)), Int(SimulateMedHours(d.interval)), m);
    MedicineFieldsUnstamped(Str(SimulateMeds(d.medicine)), Int(SimulateDose(d.dose)), Str(SimulateFirstIntake(d.intakeHour, t.intakeHourRead, t.intakeMinuteRead)), Int(SimulateMedHours(d.interval)), m);
    StampedShape(m, id, t.stamps[4]);
  }

  /** What one `publish` call sends, in order. */
  function Cycle(id: int, d: Draws, t: Readings): (sent: seq<Outgoing>)
    requires ValidDraws(d, t) && ValidReadings(t)
    ensures |sent| == |Topics|
  {
    [ Outgoing("body_temperature", TemperatureRecord(id, d, t)),
      Outgoing("heart_rate", HeartRateRecord(id, d, t)),
      Outgoing("blood_preasure", BloodPreasureRecord(id, d, t)),
      Outgoing("positions", PositionsRecord(id, d, t)),
      Outgoing("medicine", MedicineRecord(id, d, t)) ]
  }

  /** `m` holds every entry of `extra` under the same key. */
  predicate Carries(m: Dict, extra: map<string, Value>) {
    forall k :: k in extra ==> k in m.vals && m.vals[k] == extra[k]
  }

  lemma RecordCarriesMetadata(fields: seq<string>, topic: map<string, Value>, id: int, stamp: Clock)
    requires ValidClock(stamp)
    ensures Carries(Record(fields, topic, id, stamp), Metadata(id, stamp))
  {
  }

  /** A record keeps each topic value under its own key, since no topic key is a metadata key. */
  lemma RecordTopicValue(fields: seq<string>, topic: map<string, Value>, id: int, stamp: Clock, k: string)
    requires ValidClock(stamp) && k in topic && k !in MetadataKeys
    ensures k in Record(fields, topic, id, stamp).vals && Record(fields, topic, id, stamp).vals[k] == topic[k]
  {
    MetadataKeysDistinct();
  }

  /**
   * A send to `queue` of a well-formed record whose keys are `fields` and
   * then the six metadata keys, and whose metadata names the device and
   * the clock reading `stamp`.
   */
  predicate SentAs(o: Outgoing, queue: string, fields: seq<string>, id: int, stamp: Clock)
    requires ValidClock(stamp)
  {
    && o.queue == queue && o.message.Valid()
    && o.message.keys == fields + MetadataKeys
    && Carries(o.message, Metadata(id, stamp))
  }

  /** The `i`-th send of a cycle goes to the `i`-th queue with a record of the `i`-th fields and the `i`-th clock reading. */
  lemma CycleEntry(id: int, d: Draws, t: Readings, i: nat)
    requires ValidDraws(d, t) && ValidReadings(t) && i < |Topics|
    ensures SentAs(Cycle(id, d, t)[i], Topics[i], TopicFields[i], id, t.stamps[i])
  {
    if i == 0 {
      TemperatureSent(id, d, t);
    } else if i == 1 {
      HeartRateSent(id, d, t);
    } else if i == 2 {
      BloodPreasureSent(id, d, t);
    } else if i == 3 {
      PositionsSent(id, d, t);
    } else {
      MedicineSent(id, d, t);
    }
  }

  lemma TemperatureSent(id: int, d: Draws, t: Readings)
    requires ValidDraws(d, t) && ValidReadings(t)
    ensures SentAs(Cycle(id, d, t)[0], Topics[0], TopicFields[0], id, t.stamps[0])
  {
    assert Cycle(id, d, t)[0] == Outgoing("body_temperature", TemperatureRecord(id, d, t));
    TemperatureShape(id, d, t);
    RecordCarriesMetadata(["body_temperature"], map["body_temperature" := Float(SimulateBodyTemperature(d.temperature))], id, t.stamps[0]);
  }

  lemma HeartRateSent(id: int, d: Draws, t: Readings)
    requires ValidDraws(d, t) && ValidReadings(t)
    ensures SentAs(Cycle(id, d, t)[1], Topics[1], TopicFields[1], id, t.stamps[1])
  {
    assert Cycle(id, d, t)[1] == Outgoing("heart_rate", HeartRateRecord(id, d, t));
    HeartRateShape(id, d, t);
    RecordCarriesMetadata(["heart_rate"], map["heart_rate" := Int(SimulateHeartRate(d.heartRate))], id, t.stamps[1]);
  }

  lemma BloodPreasureSent(id: int, d: Draws, t: Readings)
    requires ValidDraws(d, t) && ValidReadings(t)
    ensures SentAs(Cycle(id, d, t)[2], Topics[2], TopicFields[2], id, t.stamps[2])
  {
    assert Cycle(id, d, t)[2] == Outgoing("blood_preasure", BloodPreasureRecord(id, d, t));
    BloodPreasureShape(id, d, t);
    RecordCarriesMetadata(["blood_preasure"], map["blood_preasure" := Int(SimulateBloodPreasure(d.bloodPressure))], id, t.stamps[2]);
  }

  lemma PositionsSent(id: int, d: Draws, t: Readings)
    requires ValidDraws(d, t) && ValidReadings(t)
    ensures SentAs(Cycle(id, d, t)[3], Topics[3], TopicFields[3], id, t.stamps[3])
  {
    assert Cycle(id, d, t)[3] == Outgoing("positions", PositionsRecord(id, d, t));
    PositionsShape(id, d, t);
    RecordCarriesMetadata(["x_position", "y_position", "z_position"],
      map["x_position" := Float(SimulatePosition(d.x)), "y_position" := Float(SimulatePosition(d.y)), "z_position" := Float(SimulatePosition(d.z))],
      id, t.stamps[3]);
  }

  lemma MedicineSent(id: int, d: Draws, t: Readings)
    requires ValidDraws(d, t) && ValidReadings(t)
    ensures SentAs(Cycle(id, d, t)[4], Topics[4], TopicFields[4], id, t.stamps[4])
  {
    assert Cycle(id, d, t)[4] == Outgoing("medicine", MedicineRecord(id, d, t));
    MedicineShape(id, d, t);
    RecordCarriesMetadata(["medicine", "dose", "first_intake", "hour"],
      map["medicine" := Str(SimulateMeds(d.medicine)), "dose" := Int(SimulateDose(d.dose)),
          "first_intake" := Str(SimulateFirstIntake(d.intakeHour, t.intakeHourRead, t.intakeMinuteRead)),
          "hour" := Int(SimulateMedHours(d.interval))],
      id, t.stamps[4]);
  }

  // ---------------------------------------------------------------------
  // The device
  // ---------------------------------------------------------------------

  class XiaomiMyBand {
    const id: int
    var stepCount: int
    var batteryLevel: int

    constructor (id: int)
      ensures this.id == id
      ensures stepCount == InitialStepCount && batteryLevel == InitialBatteryLevel
    {
      this.id := id;
      stepCount := InitialStepCount;
      batteryLevel := InitialBatteryLevel;
    }

    /** `simulate_step_count`: one more step, and the new count. */
    method SimulateStepCount() returns (steps: int)
      modifies this`stepCount
      ensures stepCount == old(stepCount) + 1 && steps == stepCount
      ensures batteryLevel == old(batteryLevel)
    {
      stepCount := stepCount + 1;
      steps := stepCount;
    }

    /** `simulate_battery_level`: one unit less charge, and the new level. */
    method SimulateBatteryLevel() returns (level: int)
      modifies this`batteryLevel
      ensures batteryLevel == old(batteryLevel) - 1 && level == batteryLevel
      ensures stepCount == old(stepCount)
    {
      batteryLevel := batteryLevel - 1;
      level := batteryLevel;
    }

    /**
     * `publish`: builds each record key by key and sends it to its queue,
     * five sends in a fixed order. Connections, queue declarations and the
     * one-second pauses between sends are not modelled.
     */
    method Publish(d: Draws, t: Readings) returns (sent: seq<Outgoing>)
      requires ValidDraws(d, t) && ValidReadings(t)
      ensures sent == Cycle(id, d, t)
    {
      var temperatureMessage := TemperatureMessage(d, t);
      var heartRateMessage := HeartRateMessage(d, t);
      var bloodPreasureMessage := BloodPreasureMessage(d, t);
      var positionsMessage := PositionsMessage(d, t);
      var medicineMessage := MedicineMessage(d, t);
      sent := [Outgoing("body_temperature", temperatureMessage), Outgoing("heart_rate", heartRateMessage),
               Outgoing("blood_preasure", bloodPreasureMessage), Outgoing("positions", positionsMessage),
               Outgoing("medicine", medicineMessage)];
    }

    /** The assignments that fill the message for the `body_temperature` queue. */
    method TemperatureMessage(d: Draws, t: Readings) returns (message: Dict)
      requires ValidDraws(d, t) && ValidReadings(t)
      ensures message == TemperatureRecord(id, d, t)
    {
      message := EmptyDict;
      message := message.Insert("body_temperature", Float(SimulateBodyTemperature(d.temperature)));
      message := message.Insert("id", Str(IntToString(id)));
      message := message.Insert("datetime", Str(SimulateDatetime(t.stamps[0])));
      message := message.Insert("producer", Str(Producer));
      message := message.Insert("model", Str(ModelName));
      message := message.Insert("hardware_version", Str(HardwareVersion));
      message := message.Insert("software_version", Str(SoftwareVersion));
      TemperatureShape(id, d, t);
    }

    /** The assignments that fill the message for the `heart_rate` queue. */
    method HeartRateMessage(d: Draws, t: Readings) returns (message: Dict)
      requires ValidDraws(d, t) && ValidReadings(t)
      ensures message == HeartRateRecord(id, d, t)
    {
      message := EmptyDict;
      message := message.Insert("heart_rate", Int(SimulateHeartRate(d.heartRate)));
      message := message.Insert("id", Str(IntToString(id)));
      message := message.Insert("datetime", Str(SimulateDatetime(t.stamps[1])));
      message := message.Insert("producer", Str(Producer));
      message := message.Insert("model", Str(ModelName));
      message := message.Insert("hardware_version", Str(HardwareVersion));
      message := message.Insert("software_version", Str(SoftwareVersion));
      HeartRateShape(id, d, t);
    }

    /** The assignments that fill the message for the `blood_preasure` queue. */
    method BloodPreasureMessage(d: Draws, t: Readings) returns (message: Dict)
      requires ValidDraws(d, t) && ValidReadings(t)
      ensures message == BloodPreasureRecord(id, d, t)
    {
      message := EmptyDict;
      message := message.Insert("blood_preasure", Int(SimulateBloodPreasure(d.bloodPressure)));
      message := message.Insert("id", Str(IntToString(id)));
      message := message.Insert("datetime", Str(SimulateDatetime(t.stamps[2])));
      message := message.Insert("producer", Str(Producer));
      message := message.Insert("model", Str(ModelName));
      message := message.Insert("hardware_version", Str(HardwareVersion));
      message := message.Insert("software_version", Str(SoftwareVersion));
      BloodPreasureShape(id, d, t);
    }

    /** The assignments that fill the message for the `positions` queue. */
    method PositionsMessage(d: Draws, t: Readings) returns (message: Dict)
      requires ValidDraws(d, t) && ValidReadings(t)
      ensures message == PositionsRecord(id, d, t)
    {
      message := EmptyDict;
      message := message.Insert("x_position", Float(SimulatePosition(d.x)));
      message := message.Insert("y_position", Float(SimulatePosition(d.y)));
      message := message.Insert("z_position", Float(SimulatePosition(d.z)));
      message := message.Insert("id", Str(IntToString(id)));
      message := message.Insert("datetime", Str(SimulateDatetime(t.stamps[3])));
      message := message.Insert("producer", Str(Producer));
      message := message.Insert("model", Str(ModelName));
      message := message.Insert("hardware_version", Str(HardwareVersion));
      message := message.Insert("software_version", Str(SoftwareVersion));
      PositionsShape(id, d, t);
    }

    /** The assignments that fill the message for the `medicine` queue. */
    method MedicineMessage(d: Draws, t: Readings) returns (message: Dict)
      requires ValidDraws(d, t) && ValidReadings(t)
      ensures message == MedicineRecord(id, d, t)
    {
      message := EmptyDict;
      message := message.Insert("medicine", Str(SimulateMeds(d.medicine)));
      message := message.Insert("dose", Int(SimulateDose(d.dose)));
      message := message.Insert("first_intake", Str(SimulateFirstIntake(d.intakeHour, t.intakeHourRead, t.intakeMinuteRead)));
      message := message.Insert("hour", Int(SimulateMedHours(d.interval)));
      message := message.Insert("id", Str(IntToString(id)));
      message := message.Insert("datetime", Str(SimulateDatetime(t.stamps[4])));
      message := message.Insert("producer", Str(Producer));
      message := message.Insert("model", Str(ModelName));
      message := message.Insert("hardware_version", Str(HardwareVersion));
      message := message.Insert("software_version", Str(SoftwareVersion));
      MedicineShape(id, d, t);
    }
  }
}
