/**
 * The band and its two subscribers together: what the subscribers read
 * from the records the band sends, and what they decide on them.
 */
module Pipeline {
  import opened Wrappers
  import opened Numerals
  import opened Codec
  import opened Band
  import Medication
  import Position

  // ---------------------------------------------------------------------
  // The records survive the text protocol
  // ---------------------------------------------------------------------

  /** A key made of lower-case letters and underscores is carried intact. */
  lemma KeyClean(k: string)
    requires forall i :: 0 <= i < |k| ==> 'a' <= k[i] <= 'z' || k[i] == '_'
    ensures CleanText(k)
  {
    CleanWithoutSpace(k);
  }

  /** The timestamp is digits and colons, so it is carried intact. */
  lemma DatetimeClean(c: Clock)
    requires ValidClock(c)
    ensures CleanText(SimulateDatetime(c))
  {
    DatetimeLayout(c);
    var s := SimulateDatetime(c);
    forall i | 0 <= i < |s| ensures PlainChar(s[i]) && s[i] != ' ' {
      if i in {2, 5, 10, 13, 16} { } else { assert IsDigit(s[i]); }
    }
    CleanWithoutSpace(s);
  }

  /** The first intake is digits around a colon, so it is carried intact. */
  lemma FirstIntakeClean(r: nat, hourRead: Clock, minuteRead: Clock)
    requires ValidClock(hourRead) && ValidClock(minuteRead) && r < hourRead.hour + 1
    ensures CleanText(SimulateFirstIntake(r, hourRead, minuteRead))
  {
    var s := SimulateFirstIntake(r, hourRead, minuteRead);
    var n := |s|;
    forall i | 0 <= i < n ensures PlainChar(s[i]) && s[i] != ' ' {
      if i < n - 3 {
        assert s[i] == s[..n - 3][i];
      } else if i > n - 3 {
        assert s[i] == s[n - 2..][i - (n - 2)];
      }
    }
    CleanWithoutSpace(s);
  }

  /** The six medicine names are letters only. */
  lemma MedicinesClean(r: nat)
    requires r < 6
    ensures CleanText(Medicines[r])
  {
    CleanWithoutSpace(Medicines[r]);
  }

  /** The metadata keys and values are all carried intact. */
  lemma MetadataClean(id: int, stamp: Clock, showFloat: real -> string)
    requires ValidClock(stamp)
    ensures forall k :: k in Metadata(id, stamp) ==> CleanText(k) && CleanValue(Metadata(id, stamp)[k], showFloat)
  {
    MetadataKeysClean();
    DescriptorsClean();
    IntTextClean(id);
    DatetimeClean(stamp);
  }

  lemma MetadataKeysClean()
    ensures CleanText("id") && CleanText("datetime") && CleanText("producer")
    ensures CleanText("model") && CleanText("hardware_version") && CleanText("software_version")
  {
    KeyClean("id");
    KeyClean("datetime");
    KeyClean("producer");
    KeyClean("model");
    KeyClean("hardware_version");
    KeyClean("software_version");
  }

  /** The device's fixed descriptors hold neither ", " nor ": ". */
  lemma DescriptorsClean()
    ensures CleanText(Producer) && CleanText(ModelName) && CleanText(HardwareVersion) && CleanText(SoftwareVersion)
  {
    CleanWithoutSpace(Producer);
    CleanWithoutMarks(ModelName);
    CleanWithoutSpace(HardwareVersion);
    CleanWithoutSpace(SoftwareVersion);
  }

  /** A record whose own entries are carried intact is carried intact as a whole. */
  lemma RecordClean(fields: seq<string>, topic: map<string, Value>, id: int, stamp: Clock, showFloat: real -> string)
    requires ValidClock(stamp)
    requires forall k :: k in topic ==> CleanText(k) && CleanValue(topic[k], showFloat)
    ensures CleanDict(Record(fields, topic, id, stamp), showFloat)
  {
    MetadataClean(id, stamp, showFloat);
  }

  /** The medicine record's own entries are carried intact. */
  lemma MedicineTopicClean(d: Draws, t: Readings, showFloat: real -> string)
    requires ValidDraws(d, t) && ValidReadings(t)
    ensures var topic := map["medicine" := Str(SimulateMeds(d.medicine)), "dose" := Int(SimulateDose(d.dose)),
                             "first_intake" := Str(SimulateFirstIntake(d.intakeHour, t.intakeHourRead, t.intakeMinuteRead)),
                             "hour" := Int(SimulateMedHours(d.interval))];
      forall k :: k in topic ==> CleanText(k) && CleanValue(topic[k], showFloat)
  {
    MedicineKeysClean();
    MedicinesClean(d.medicine);
    FirstIntakeClean(d.intakeHour, t.intakeHourRead, t.intakeMinuteRead);
  }

  lemma MedicineKeysClean()
    ensures CleanText("medicine") && CleanText("dose") && CleanText("first_intake") && CleanText("hour")
  {
    KeyClean("medicine");
    KeyClean("dose");
    KeyClean("first_intake");
    KeyClean("hour");
  }

  /**
   * The medication subscriber decodes the medicine record the band sends
   * into every key of the record with its value as text.
   */
  lemma MedicineRoundTrip(id: int, d: Draws, t: Readings, showFloat: real -> string)
    requires ValidDraws(d, t) && ValidReadings(t)
    ensures MedicineRecord(id, d, t).Valid()
      && Decode(Encode(MedicineRecord(id, d, t), showFloat)) == Success(Texts(MedicineRecord(id, d, t), showFloat))
  {
    MedicineShape(id, d, t);
    MedicineTopicClean(d, t, showFloat);
    RecordClean(["medicine", "dose", "first_intake", "hour"],
      map["medicine" := Str(SimulateMeds(d.medicine)), "dose" := Int(SimulateDose(d.dose)),
          "first_intake" := Str(SimulateFirstIntake(d.intakeHour, t.intakeHourRead, t.intakeMinuteRead)),
          "hour" := Int(SimulateMedHours(d.interval))],
      id, t.stamps[4], showFloat);
    RoundTrip(MedicineRecord(id, d, t), showFloat);
  }

  /** The metadata a subscriber reads from any record: the timestamp, the device id and the model, as text. */
  lemma RecordMetadataTexts(fields: seq<string>, topic: map<string, Value>, id: int, stamp: Clock, showFloat: real -> string)
    requires ValidClock(stamp)
    ensures var m := Texts(Record(fields, topic, id, stamp), showFloat);
      && "datetime" in m && m["datetime"] == SimulateDatetime(stamp)
      && "id" in m && m["id"] == IntToString(id)
      && "model" in m && m["model"] == ModelName
  {
    var r := Record(fields, topic, id, stamp);
    MetadataEntries(id, stamp);
    RecordCarriesMetadata(fields, topic, id, stamp);
    TextsAt(r, "datetime", showFloat);
    TextsAt(r, "id", showFloat);
    TextsAt(r, "model", showFloat);
  }

  lemma MetadataEntries(id: int, stamp: Clock)
    requires ValidClock(stamp)
    ensures var meta := Metadata(id, stamp);
      && "datetime" in meta && meta["datetime"] == Str(SimulateDatetime(stamp))
      && "id" in meta && meta["id"] == Str(IntToString(id))
      && "model" in meta && meta["model"] == Str(ModelName)
  {
  }

  /** What the medication subscriber reads from the medicine record's own fields, as text. */
  lemma MedicineTopicTexts(id: int, d: Draws, t: Readings, showFloat: real -> string)
    requires ValidDraws(d, t) && ValidReadings(t)
    ensures var m := Texts(MedicineRecord(id, d, t), showFloat);
      && "medicine" in m && m["medicine"] == SimulateMeds(d.medicine)
      && "dose" in m && m["dose"] == IntToString(SimulateDose(d.dose))
      && "first_intake" in m && m["first_intake"] == SimulateFirstIntake(d.intakeHour, t.intakeHourRead, t.intakeMinuteRead)
      && "hour" in m && m["hour"] == IntToString(SimulateMedHours(d.interval))
  {
    var topic := map["medicine" := Str(SimulateMeds(d.medicine)), "dose" := Int(SimulateDose(d.dose)),
                     "first_intake" := Str(SimulateFirstIntake(d.intakeHour, t.intakeHourRead, t.intakeMinuteRead)),
                     "hour" := Int(SimulateMedHours(d.interval))];
    var fields := ["medicine", "dose", "first_intake", "hour"];
    var r := MedicineRecord(id, d, t);
    MedicineKeysNotMetadata();
    RecordTopicValue(fields, topic, id, t.stamps[4], "medicine");
    RecordTopicValue(fields, topic, id, t.stamps[4], "dose");
    RecordTopicValue(fields, topic, id, t.stamps[4], "first_intake");
    RecordTopicValue(fields, topic, id, t.stamps[4], "hour");
    TextsAt(r, "medicine", showFloat);
    TextsAt(r, "dose", showFloat);
    TextsAt(r, "first_intake", showFloat);
    TextsAt(r, "hour", showFloat);
  }

  lemma MedicineKeysNotMetadata()
    ensures "medicine" !in MetadataKeys && "dose" !in MetadataKeys
    ensures "first_intake" !in MetadataKeys && "hour" !in MetadataKeys
  {
  }

  // ---------------------------------------------------------------------
  // The medication subscriber on the band's records
  // ---------------------------------------------------------------------

  /**
   * The subscriber's "current" time is the hour and minute of the band's
   * clock reading in the record, not the clock at the time of consumption.
   */
  lemma DatetimeCurrentTime(c: Clock)
    requires ValidClock(c)
    ensures Medication.CurrentTime(SimulateDatetime(c)) == Success(Medication.Time(c.hour, c.minute))
  {
    DatetimeLayout(c);
    var s := SimulateDatetime(c);
    assert s[11..13][0] == s[11] && s[11..13][1] == s[12];
    assert s[14..16][0] == s[14] && s[14..16][1] == s[15];
    Medication.CurrentTimeFields(s);
  }

  /** The first intake the band writes parses back as the drawn hour and the minute read. */
  lemma FirstIntakeParses(r: nat, hourRead: Clock, minuteRead: Clock)
    requires ValidClock(hourRead) && ValidClock(minuteRead) && r < hourRead.hour + 1
    ensures Medication.ParseTime(SimulateFirstIntake(r, hourRead, minuteRead)) == Success(Medication.Time(r, minuteRead.minute))
  {
    NatToStringShort(r);
    NatToStringValue(r);
    assert IntToString(r) == NatToString(r);
    Medication.ParseTimeFields(NatToString(r), Pad2(minuteRead.minute));
  }

  /** The due test of the medication subscriber on a cycle's medicine record, in terms of the draws and the clock readings. */
  predicate DoseDue(d: Draws, t: Readings)
    requires ValidDraws(d, t) && ValidReadings(t)
  {
    Medication.Due(Medication.Time(d.intakeHour, t.intakeMinuteRead.minute), SimulateMedHours(d.interval),
                   Medication.Time(t.stamps[4].hour, t.stamps[4].minute))
  }

  /** The notification for a cycle's medicine record. */
  function MedicineNotice(id: int, d: Draws, t: Readings): Medication.MedNotification
    requires ValidDraws(d, t) && ValidReadings(t)
  {
    Medication.MedNotification(SimulateDatetime(t.stamps[4]), IntToString(id), IntToString(SimulateDose(d.dose)),
                               SimulateMeds(d.medicine), ModelName, IntToString(SimulateMedHours(d.interval)))
  }

  /**
   * End to end: the medication subscriber, given the medicine record the
   * band sends, never raises, and notifies exactly when the next dose by
   * the rule as written falls on the record's own hour and minute.
   */
  lemma MedicineVerdict(id: int, d: Draws, t: Readings, showFloat: real -> string)
    requires ValidDraws(d, t) && ValidReadings(t)
    ensures MedicineRecord(id, d, t).Valid()
      && Medication.Evaluate(Encode(MedicineRecord(id, d, t), showFloat))
         == Success(if DoseDue(d, t) then Some(MedicineNotice(id, d, t)) else None)
  {
    var record := MedicineRecord(id, d, t);
    MedicineRoundTrip(id, d, t, showFloat);
    var m := Texts(record, showFloat);
    RecordMetadataTexts(["medicine", "dose", "first_intake", "hour"],
      map["medicine" := Str(SimulateMeds(d.medicine)), "dose" := Int(SimulateDose(d.dose)),
          "first_intake" := Str(SimulateFirstIntake(d.intakeHour, t.intakeHourRead, t.intakeMinuteRead)),
          "hour" := Int(SimulateMedHours(d.interval))],
      id, t.stamps[4], showFloat);
    MedicineTopicTexts(id, d, t, showFloat);
    DatetimeCurrentTime(t.stamps[4]);
    FirstIntakeParses(d.intakeHour, t.intakeHourRead, t.intakeMinuteRead);
    ParseIntToString(SimulateMedHours(d.interval));
    Medication.DecideOutcome(m);
  }

  // ---------------------------------------------------------------------
  // The position subscriber on the band's records
  // ---------------------------------------------------------------------

  /**
   * The float rendering `showFloat` (Python's `repr`) of `x` is carried
   * intact and the float parser `toReal` (Python's `float`) reads it back
   * as `x`.
   */
  predicate FloatTextFaithful(showFloat: real -> string, toReal: string -> Option<real>, x: real) {
    CleanText(showFloat(x)) && toReal(showFloat(x)) == Some(x)
  }

  /** The three axes of a cycle, as the band draws them. */
  function PositionsTopic(d: Draws, t: Readings): map<string, Value>
    requires ValidDraws(d, t) && ValidReadings(t)
  {
    map["x_position" := Float(SimulatePosition(d.x)),
        "y_position" := Float(SimulatePosition(d.y)),
        "z_position" := Float(SimulatePosition(d.z))]
  }

  lemma PositionsKeysClean()
    ensures CleanText("x_position") && CleanText("y_position") && CleanText("z_position")
  {
    KeyClean("x_position");
    KeyClean("y_position");
    KeyClean("z_position");
  }

  lemma PositionsTopicClean(d: Draws, t: Readings, showFloat: real -> string)
    requires ValidDraws(d, t) && ValidReadings(t)
    requires CleanText(showFloat(SimulatePosition(d.x)))
    requires CleanText(showFloat(SimulatePosition(d.y)))
    requires CleanText(showFloat(SimulatePosition(d.z)))
    ensures forall k :: k in PositionsTopic(d, t) ==> CleanText(k) && CleanValue(PositionsTopic(d, t)[k], showFloat)
  {
    PositionsKeysClean();
  }

  lemma PositionsKeysNotMetadata()
    ensures "x_position" !in MetadataKeys && "y_position" !in MetadataKeys && "z_position" !in MetadataKeys
  {
  }

  /**
   * The position subscriber decodes the positions record the band sends
   * into every key of the record with its value as text, provided the
   * renderings of the three axes are carried intact.
   */
  lemma PositionsRoundTrip(id: int, d: Draws, t: Readings, showFloat: real -> string)
    requires ValidDraws(d, t) && ValidReadings(t)
    requires CleanText(showFloat(SimulatePosition(d.x)))
    requires CleanText(showFloat(SimulatePosition(d.y)))
    requires CleanText(showFloat(SimulatePosition(d.z)))
    ensures PositionsRecord(id, d, t).Valid()
      && Decode(Encode(PositionsRecord(id, d, t), showFloat)) == Success(Texts(PositionsRecord(id, d, t), showFloat))
  {
    PositionsShape(id, d, t);
    PositionsTopicClean(d, t, showFloat);
    assert PositionsRecord(id, d, t) == Record(["x_position", "y_position", "z_position"], PositionsTopic(d, t), id, t.stamps[3]);
    RecordClean(["x_position", "y_position", "z_position"], PositionsTopic(d, t), id, t.stamps[3], showFloat);
    RoundTrip(PositionsRecord(id, d, t), showFloat);
  }

  /** What the position subscriber reads from the three axes, as text. */
  lemma PositionsTopicTexts(id: int, d: Draws, t: Readings, showFloat: real -> string)
    requires ValidDraws(d, t) && ValidReadings(t)
    ensures var m := Texts(PositionsRecord(id, d, t), showFloat);
      && "x_position" in m && m["x_position"] == showFloat(SimulatePosition(d.x))
      && "y_position" in m && m["y_position"] == showFloat(SimulatePosition(d.y))
      && "z_position" in m && m["z_position"] == showFloat(SimulatePosition(d.z))
  {
    var r := PositionsRecord(id, d, t);
    var fields := ["x_position", "y_position", "z_position"];
    PositionsKeysNotMetadata();
    RecordTopicValue(fields, PositionsTopic(d, t), id, t.stamps[3], "x_position");
    RecordTopicValue(fields, PositionsTopic(d, t), id, t.stamps[3], "y_position");
    RecordTopicValue(fields, PositionsTopic(d, t), id, t.stamps[3], "z_position");
    TextsAt(r, "x_position", showFloat);
    TextsAt(r, "y_position", showFloat);
    TextsAt(r, "z_position", showFloat);
  }

  /** The sum the position subscriber computes on a cycle's positions record. */
  function AxesSum(d: Draws, t: Readings): (total: real)
    requires ValidDraws(d, t) && ValidReadings(t)
    ensures 0.0 <= total < 3.0
  {
    SimulatePosition(d.x) + SimulatePosition(d.y) + SimulatePosition(d.z)
  }

  /**
   * End to end: the position subscriber, given the positions record the
   * band sends, never raises, and reports a movement exactly when the
   * three drawn axes add up to more than 2, with the record's timestamp,
   * the device id, the sum and the model.
   */
  lemma PositionsVerdict(id: int, d: Draws, t: Readings, showFloat: real -> string, toReal: string -> Option<real>)
    requires ValidDraws(d, t) && ValidReadings(t)
    requires FloatTextFaithful(showFloat, toReal, SimulatePosition(d.x))
    requires FloatTextFaithful(showFloat, toReal, SimulatePosition(d.y))
    requires FloatTextFaithful(showFloat, toReal, SimulatePosition(d.z))
    ensures PositionsRecord(id, d, t).Valid()
      && Position.Evaluate(Encode(PositionsRecord(id, d, t), showFloat), toReal)
         == Success(if AxesSum(d, t) > 2.0
                    then Some(Position.MoveNotification(SimulateDatetime(t.stamps[3]), IntToString(id), AxesSum(d, t), "movimiento", ModelName))
                    else None)
  {
    PositionsRoundTrip(id, d, t, showFloat);
    var m := Texts(PositionsRecord(id, d, t), showFloat);
    RecordMetadataTexts(["x_position", "y_position", "z_position"], PositionsTopic(d, t), id, t.stamps[3], showFloat);
    PositionsTopicTexts(id, d, t, showFloat);
    Position.DecideOutcome(m, toReal);
  }
}
