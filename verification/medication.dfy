/**
 * The medication subscriber (`ProcesadorRitmoCardiaco`): it decodes a
 * record of the `medicine` queue, reads the current hour and minute from
 * the record's own timestamp, and notifies the monitor when the next dose
 * of the medicine falls on that hour and minute. The message is
 * acknowledged once the record has been evaluated.
 */
module Medication {
  import opened Wrappers
  import opened Numerals
  import opened Codec

  /** A `datetime.time`, reduced to the two fields the schedule reads. */
  datatype Time = Time(hour: int, minute: int)

  /** The arguments of `Monitor.print_med_notification`, in order. */
  datatype MedNotification = MedNotification(
    datetime: string, id: string, dose: string, medicine: string, model: string, interval: string)

  /** The hour field `%H` of `strptime` accepts: one digit, or two digits up to 23. */
  predicate HourText(s: string) {
    1 <= |s| <= 2 && AllDigits(s) && DigitsValue(s) <= 23
  }

  /** The minute field `%M` of `strptime` accepts: one digit, or two digits up to 59. */
  predicate MinuteText(s: string) {
    1 <= |s| <= 2 && AllDigits(s) && DigitsValue(s) <= 59
  }

  /**
   * `datetime.strptime(s, '%H:%M').time()`: an hour field, a colon and a
   * minute field that together make up the whole text; anything else is
   * the `ValueError` that `strptime` raises.
   */
  function ParseTime(s: string): (r: Result<Time, Fault>)
    ensures r.Success? ==> 0 <= r.value.hour <= 23 && 0 <= r.value.minute <= 59
  {
    if |s| >= 2 && s[1] == ':' && HourText(s[..1]) && MinuteText(s[2..]) then
      Success(Time(DigitsValue(s[..1]), DigitsValue(s[2..])))
    else if |s| >= 3 && s[2] == ':' && HourText(s[..2]) && MinuteText(s[3..]) then
      Success(Time(DigitsValue(s[..2]), DigitsValue(s[3..])))
    else
      Failure(ValueError(s))
  }

  /** `date[11] + date[12] + ":" + date[14] + date[15]`: an `IndexError` when the text is shorter than 16. */
  function CurrentText(date: string): Result<string, Fault> {
    if |date| < 16 then Failure(IndexError(date))
    else Success([date[11], date[12], ':', date[14], date[15]])
  }

  /** The current time, as the callback reads it from the record's `datetime` field. */
  function CurrentTime(date: string): Result<Time, Fault> {
    var current :- CurrentText(date);
    ParseTime(current)
  }

  /** `int(s)`: a `ValueError` when the text is not a decimal integer. */
  function IntOf(s: string): Result<int, Fault> {
    match ParseInt(s)
    case Some(i) => Success(i)
    case None => Failure(ValueError(s))
  }

  /** `abs(intake.hour + interval - 24)`: the hour the callback expects the next dose at. */
  function ScheduledHour(intake: Time, interval: int): nat {
    if intake.hour + interval - 24 < 0 then 24 - intake.hour - interval else intake.hour + interval - 24
  }

  /** The condition of the callback's `if`. */
  predicate Due(intake: Time, interval: int, current: Time) {
    ScheduledHour(intake, interval) == current.hour && intake.minute == current.minute
  }

  /**
   * The decision `callback` makes on a decoded record, with the lookups and
   * conversions in the order the callback performs them: `Success(None)`
   * when no dose is due, `Success(Some(n))` when the monitor is notified
   * with `n`, and `Failure` when an exception escapes the callback.
   */
  function Decide(m: map<string, string>): Result<Option<MedNotification>, Fault> {
    var date :- Get(m, "datetime");
    var current :- CurrentTime(date);
    var first :- Get(m, "first_intake");
    var intake :- ParseTime(first);
    var hourText :- Get(m, "hour");
    var interval :- IntOf(hourText);
    if Due(intake, interval, current) then
      // The callback looks `datetime` and `hour` up a second time here; the
      // dict has not changed, so those lookups give `date` and `hourText`.
      var id :- Get(m, "id");
      var dose :- Get(m, "dose");
      var medicine :- Get(m, "medicine");
      var model :- Get(m, "model");
      Success(Some(MedNotification(date, id, dose, medicine, model, hourText)))
    else
      Success(None)
  }

  /** `string_to_json` followed by the decision. */
  function Evaluate(body: string): Result<Option<MedNotification>, Fault> {
    var m :- Decode(body);
    Decide(m)
  }

  /**
   * The subscriber with what it has done so far: the notifications it
   * handed to the monitor and the delivery tags it acknowledged.
   */
  class MedicationConsumer {
    var notifications: seq<MedNotification>
    var acked: seq<nat>

    constructor ()
      ensures notifications == [] && acked == []
    {
      notifications := [];
      acked := [];
    }

    /**
     * `callback`: decode, decide, notify when a dose is due, then
     * acknowledge the delivery exactly once. An exception leaves the
     * delivery unacknowledged and nothing notified.
     */
    method Callback(deliveryTag: nat, body: string) returns (r: Result<Option<MedNotification>, Fault>)
      modifies this
      ensures r == Evaluate(body)
      ensures r.Success? ==> notifications == old(notifications) + r.value.Elements() && acked == old(acked) + [deliveryTag]
      ensures r.Failure? ==> notifications == old(notifications) && acked == old(acked)
    {
      var decoded := StringToJson(body);
      if decoded.Failure? {
        return Failure(decoded.error);
      }
      r := Decide(decoded.value);
      if r.Failure? {
        return;
      }
      if r.value.Some? {
        notifications := notifications + [r.value.value];
      }
      acked := acked + [deliveryTag];
    }
  }

  // ---------------------------------------------------------------------
  // Properties
  // ---------------------------------------------------------------------

  /** `strptime` succeeds exactly on an hour field, a colon, and a minute field. */
  lemma ParseTimeIff(s: string)
    ensures ParseTime(s).Success? <==>
      exists c :: 0 <= c < |s| && s[c] == ':' && HourText(s[..c]) && MinuteText(s[c + 1..])
  {
    if ParseTime(s).Success? {
      if |s| >= 2 && s[1] == ':' && HourText(s[..1]) && MinuteText(s[2..]) {
        assert 0 <= 1 < |s| && s[1] == ':' && HourText(s[..1]) && MinuteText(s[1 + 1..]);
      } else {
        assert 0 <= 2 < |s| && s[2] == ':' && HourText(s[..2]) && MinuteText(s[2 + 1..]);
      }
    } else {
      forall c | 0 <= c < |s| && s[c] == ':'
        ensures !(HourText(s[..c]) && MinuteText(s[c + 1..]))
      {
        assert |s[..c]| == c;
      }
    }
  }

  /** Parsing an hour field, a colon and a minute field gives back their values. */
  lemma ParseTimeFields(h: string, m: string)
    requires HourText(h) && MinuteText(m)
    ensures ParseTime(h + ":" + m) == Success(Time(DigitsValue(h), DigitsValue(m)))
  {
    var s := h + ":" + m;
    assert s[..|h|] == h && s[|h| + 1..] == m && s[|h|] == ':';
    if |h| == 2 {
      assert s[1] != ':' by { assert s[1] == h[1] && IsDigit(h[1]); }
    }
  }

  /** The current time is the hour at characters 11-12 and the minute at 14-15 of `datetime`. */
  lemma CurrentTimeFields(date: string)
    requires |date| >= 16 && HourText(date[11..13]) && MinuteText(date[14..16])
    ensures CurrentTime(date) == Success(Time(DigitsValue(date[11..13]), DigitsValue(date[14..16])))
  {
    var current := [date[11], date[12], ':', date[14], date[15]];
    assert current == date[11..13] + ":" + date[14..16];
    ParseTimeFields(date[11..13], date[14..16]);
  }

  /** A timestamp shorter than 16 characters makes the callback raise `IndexError`. */
  lemma CurrentTimeShort(date: string)
    requires |date| < 16
    ensures CurrentTime(date) == Failure(IndexError(date))
  {
  }

  /** Everything the callback reads before its `if` is present and well formed. */
  predicate Readable(m: map<string, string>) {
    && "datetime" in m && CurrentTime(m["datetime"]).Success?
    && "first_intake" in m && ParseTime(m["first_intake"]).Success?
    && "hour" in m && ParseInt(m["hour"]).Some?
  }

  /** The outcome of the callback's `if` on a readable record. */
  predicate Verdict(m: map<string, string>)
    requires Readable(m)
  {
    Due(ParseTime(m["first_intake"]).value, ParseInt(m["hour"]).value, CurrentTime(m["datetime"]).value)
  }

  /** The keys a notification reads. */
  predicate HasNotificationKeys(m: map<string, string>) {
    "datetime" in m && "id" in m && "dose" in m && "medicine" in m && "model" in m && "hour" in m
  }

  /**
   * The callback gets through a record exactly when everything before the
   * `if` is readable and, should a dose be due, every notified key is
   * present; it notifies exactly when the dose is due, and then passes the
   * decoded `datetime`, `id`, `dose`, `medicine`, `model` and `hour`
   * unchanged.
   */
  lemma DecideOutcome(m: map<string, string>)
    ensures Decide(m).Success? <==> Readable(m) && (Verdict(m) ==> HasNotificationKeys(m))
    ensures Decide(m).Success? ==> (Decide(m).value.Some? <==> Verdict(m))
    ensures Decide(m).Success? && Decide(m).value.Some? ==>
      Decide(m).value.value == MedNotification(m["datetime"], m["id"], m["dose"], m["medicine"], m["model"], m["hour"])
  {
  }

  /** A record the decoder cannot read is never evaluated: the callback raises before any decision. */
  lemma EvaluateUndecodable(body: string)
    requires Decode(body).Failure?
    ensures Evaluate(body) == Failure(Decode(body).error)
  {
  }

  /**
   * With the rule as written the scheduled hour agrees with the next dose
   * on a 24-hour clock, `(intake + interval) % 24`, exactly when the dose
   * falls on the next day or at noon.
   */
  lemma ScheduledHourMatchesNextDoseIff(intake: Time, interval: int)
    requires 0 <= intake.hour <= 23 && interval in {8, 12, 24}
    ensures ScheduledHour(intake, interval) == (intake.hour + interval) % 24
      <==> intake.hour + interval >= 24 || intake.hour + interval == 12
  {
  }

  /** For a daily medicine the scheduled hour is the hour of the first intake. */
  lemma DailyScheduleIsIntakeHour(intake: Time)
    requires 0 <= intake.hour
    ensures ScheduledHour(intake, 24) == intake.hour
  {
  }

  /** A first intake at 10:30 with a 24-hour interval is due at 10:30. */
  lemma DailyDoseExample(m: map<string, string>)
    requires HasNotificationKeys(m) && "first_intake" in m
    requires m["datetime"] == "11:10:2026:10:30:00" && m["first_intake"] == "10:30" && m["hour"] == "24"
    ensures Decide(m) == Success(Some(MedNotification(m["datetime"], m["id"], m["dose"], m["medicine"], m["model"], "24")))
  {
    DailyDoseTexts();
    DecideOutcome(m);
  }

  lemma DailyDoseTexts()
    ensures CurrentTime("11:10:2026:10:30:00") == Success(Time(10, 30))
    ensures ParseTime("10:30") == Success(Time(10, 30)) && ParseInt("24") == Some(24)
  {
    ClockTexts("11:10:2026:10:30:00", "10", "30");
    ParseTimeFields("10", "30");
    assert "10" + ":" + "30" == "10:30";
    ParseShortDigits("24");
  }

  /** A first intake at 6:30 with an 8-hour interval is scheduled for 10, so 14:30 is not due. */
  lemma EightHourDoseExample(m: map<string, string>)
    requires "datetime" in m && "first_intake" in m && "hour" in m
    requires m["datetime"] == "11:10:2026:14:30:00" && m["first_intake"] == "6:30" && m["hour"] == "8"
    ensures ScheduledHour(Time(6, 30), 8) == 10
    ensures Decide(m) == Success(None)
  {
    EightHourDoseTexts();
    DecideOutcome(m);
  }

  lemma EightHourDoseTexts()
    ensures CurrentTime("11:10:2026:14:30:00") == Success(Time(14, 30))
    ensures ParseTime("6:30") == Success(Time(6, 30)) && ParseInt("8") == Some(8)
  {
    ClockTexts("11:10:2026:14:30:00", "14", "30");
    ParseTimeFields("6", "30");
    assert "6" + ":" + "30" == "6:30";
    ParseShortDigits("8");
  }

  /** The callback never reads character 13: a timestamp with another character there still reads as 10:30. */
  lemma CurrentTimeSkipsSeparator()
    ensures CurrentTime("11:10:2026:10X30:00") == Success(Time(10, 30))
  {
    ClockTexts("11:10:2026:10X30:00", "10", "30");
  }

  /** Reads the two-digit hour and minute of a literal timestamp. */
  lemma ClockTexts(date: string, hh: string, mm: string)
    requires |date| == 19 && date[11..13] == hh && date[14..16] == mm
    requires |hh| == 2 && AllDigits(hh) && DigitValue(hh[0]) <= 1
    requires |mm| == 2 && AllDigits(mm) && DigitValue(mm[0]) <= 5
    ensures CurrentTime(date) == Success(Time(DigitsValue(hh), DigitsValue(mm)))
  {
    TwoDigitsValue(hh);
    TwoDigitsValue(mm);
    CurrentTimeFields(date);
  }
}
