# Wristband publish/subscribe core in Dafny

This project models the core of the `smam` publish/subscribe demo. A
simulated wristband (`XiaomiMyBand`) publishes five readings per cycle, one
to each of the queues `body_temperature`, `heart_rate`, `blood_preasure`,
`positions` and `medicine`. Two subscribers each consume one queue:

- the medication subscriber checks whether the next dose of a medicine
  falls on the hour and minute stamped in the record;
- the position subscriber adds up the three accelerometer axes and reports
  a probable fall when the sum exceeds 2.

The publisher sends each record as `str(message)`, the Python rendering of a
dict. Both subscribers read it back with the same hand-written
`string_to_json`.

Modules, one per concern of the source:

- `Wrappers`: `Option` and `Result`.
- `Numerals`: `str(int)` and `int(str)`.
- `Codec`: the record as an insertion-ordered dict `Dict(keys, vals)`, its
  rendering `Encode` (`str(dict)`) and the decoder `Decode` /
  `StringToJson` (`string_to_json`), with lemmas about both.
- `Band`: the value generators, the device counters and `publish`.
  `XiaomiMyBand` is a class whose `Publish` builds each record key by key and
  returns the five sends in order. Each send is proved equal to a
  specification function (`Cycle`, `TemperatureRecord`, …).
- `Medication` and `Position`: each subscriber's decision as a pure function
  (`Decide`) and its `callback` as a method of a consumer class. The class
  records the notifications handed to the monitor and the delivery tags
  acknowledged.
- `Pipeline`: the band and its subscribers together. A subscriber decodes
  what the band sends. The end-to-end verdict of each subscriber is stated in
  terms of the band's random draws and clock readings.

The environment appears as parameters:

- random draws are the `Draws` datatype;
- wall-clock readings (`time.strftime`) are the `Readings` datatype;
- Python's float `repr` is `showFloat: real -> string`;
- `float(text)` is `toReal: string -> Option<real>`.

Python exceptions are `Result` failures carrying `IndexError`, `KeyError` or
`ValueError`. A callback that raises acknowledges nothing and notifies
nothing.

Two behaviours of the code are followed as written:

- The step and battery counters are class attributes, but `self.x += 1`
  creates an instance attribute on first use. Each device therefore counts
  on its own, and the model keeps them as per-instance fields.
- The medication rule `abs(intake.hour + hour - 24) == current.hour` is
  modelled literally. `Medication.ScheduledHourMatchesNextDoseIff` states
  exactly when it agrees with the next dose on a 24-hour clock.

## Model

| member | source | states |
|---|---|---|
| Numerals.NatToStringValue | publica-suscribe-main/smam/publicadores/xiaomi_my_band.py:277 | the decimal text `str(n)` of a natural number reads back as `n` |
| Numerals.ParseIntToString | publica-suscribe-main/smam/suscriptores/procesador_de_medicamento.py:100 | `int(str(i)) == i` for every integer, so the interval written by the band is read back unchanged |
| Numerals.ParseInt | publica-suscribe-main/smam/suscriptores/procesador_de_medicamento.py:100 | the model of `int(s)` succeeds exactly on an optional sign followed by at least one ASCII digit, and raises `ValueError` on every other text (Python accepts more; see "Left out") |
| Codec.InsertKeepsValid | publica-suscribe-main/smam/publicadores/xiaomi_my_band.py:116-123 | `message[k] = v` keeps the dict's keys distinct and in step with its values; it binds `k` to `v`, leaves every other key alone, and appends a new key at the end; an existing key keeps the key list, order included, unchanged |
| Codec.Without | publica-suscribe-main/smam/suscriptores/procesador_de_medicamento.py:111-112 | `s.replace(c, '')` leaves no `c`, is no longer than `s`, and adds no character |
| Codec.WithoutAbsent | publica-suscribe-main/smam/suscriptores/procesador_de_medicamento.py:111-112 | deleting a character the text does not hold leaves the text unchanged |
| Codec.WithoutAppend | publica-suscribe-main/smam/suscriptores/procesador_de_medicamento.py:111-112 | deleting a character from a concatenation deletes it from each part |
| Codec.UnbraceWrapped | publica-suscribe-main/smam/suscriptores/procesador_de_medicamento.py:111-112 | deleting the braces from `{body}` gives back `body` when `body` holds no brace |
| Codec.JoinSplit | publica-suscribe-main/smam/suscriptores/procesador_de_medicamento.py:113 | `sep.join(s.split(sep)) == s`: splitting loses nothing |
| Codec.SplitJoin | publica-suscribe-main/smam/suscriptores/procesador_de_medicamento.py:113 | splitting text joined from pieces that hold no separator gives back exactly those pieces |
| Codec.SplitWhole | publica-suscribe-main/smam/suscriptores/procesador_de_medicamento.py:115 | text without the two-character separator comes back from `split` as its only part |
| Codec.SplitHead | publica-suscribe-main/smam/suscriptores/procesador_de_medicamento.py:113 | a separator-free piece followed by the separator is cut off as the first part |
| Codec.SplitCutsIff | publica-suscribe-main/smam/suscriptores/procesador_de_medicamento.py:115 | `split` yields two or more parts if and only if the separator occurs in the text |
| Codec.StringToJson | publica-suscribe-main/smam/suscriptores/procesador_de_medicamento.py:108-117 | the loop that deletes the braces, splits and fills the dict computes exactly `Decode(body)`, raising `IndexError` on the first piece without ": " |
| Codec.DecodeEntriesFails | publica-suscribe-main/smam/suscriptores/procesador_de_medicamento.py:114-116 | the loop raises if and only if some piece has no ": ", and then raises `IndexError` on the first such piece |
| Codec.DecodeEntriesDomain | publica-suscribe-main/smam/suscriptores/procesador_de_medicamento.py:114-116 | when every piece has a ": ", the loop succeeds, and the decoded keys are the starting keys plus the unquoted key of every piece |
| Codec.DecodeEntriesLastWins | publica-suscribe-main/smam/suscriptores/procesador_de_medicamento.py:114-116 | a key that occurs in several pieces is bound to the value of the last of them |
| Codec.DecodeEntriesKeepsOthers | publica-suscribe-main/smam/suscriptores/procesador_de_medicamento.py:114-116 | keys that no piece names keep the value they had before the loop |
| Codec.DecodeFailsIff | publica-suscribe-main/smam/suscriptores/procesador_de_medicamento.py:108-117 | `string_to_json` raises if and only if some ", "-separated piece of the brace-free body has no ": " |
| Codec.RoundTrip | publica-suscribe-main/smam/suscriptores/procesador_de_medicamento.py:108-117 | decoding `str(message)` of a non-empty record with clean keys and values gives every key with its value as text |
| Codec.EmptyRecordFails | publica-suscribe-main/smam/suscriptores/procesador_de_medicamento.py:108-117 | decoding `str({})` raises `IndexError` on the empty piece |
| Band.DatetimeLayout | publica-suscribe-main/smam/publicadores/xiaomi_my_band.py:217-218 | the `%d:%m:%Y:%H:%M:%S` stamp is 19 characters: colons at 2, 5, 10, 13 and 16, digits elsewhere; characters 11-12 read as the hour and 14-15 as the minute |
| Band.SimulateBodyTemperature | publica-suscribe-main/smam/publicadores/xiaomi_my_band.py:229-230 | the temperature lies in [67, 72) |
| Band.SimulatePosition | publica-suscribe-main/smam/publicadores/xiaomi_my_band.py:220-227 | each axis lies in [0, 1) |
| Band.SimulateHoursOfSleep | publica-suscribe-main/smam/publicadores/xiaomi_my_band.py:240-242 | the hours of sleep lie in (7, 10] |
| Band.SimulateCaloriesBurned | publica-suscribe-main/smam/publicadores/xiaomi_my_band.py:244-245 | the calories lie in [1500, 2500] |
| Band.SimulateHeartRate | publica-suscribe-main/smam/publicadores/xiaomi_my_band.py:247-248 | the heart rate lies in [60, 150] |
| Band.SimulateBloodPreasure | publica-suscribe-main/smam/publicadores/xiaomi_my_band.py:250-251 | the blood pressure lies in [100, 200] |
| Band.MedicineFor | publica-suscribe-main/smam/publicadores/xiaomi_my_band.py:255-268 | numbers 1 to 6 name the six medicines in order; any other number leaves the empty name |
| Band.SimulateMeds | publica-suscribe-main/smam/publicadores/xiaomi_my_band.py:253-268 | the drawn medicine is always one of the six, the one the draw selects |
| Band.SimulateDose | publica-suscribe-main/smam/publicadores/xiaomi_my_band.py:270-271 | the dose is 1 or 2 |
| Band.IntervalFor | publica-suscribe-main/smam/publicadores/xiaomi_my_band.py:281-288 | 1 gives 8 hours, 2 gives 12 and 3 gives 24; any other number gives 0 |
| Band.SimulateMedHours | publica-suscribe-main/smam/publicadores/xiaomi_my_band.py:279-288 | the interval is 8, 12 or 24 hours |
| Band.SimulateFirstIntake | publica-suscribe-main/smam/publicadores/xiaomi_my_band.py:273-277 | the first intake is the drawn hour as unpadded `str(hour)` (no leading zero), no later than the hour read, then a colon and the two-digit minute read |
| Band.StampedShape | publica-suscribe-main/smam/publicadores/xiaomi_my_band.py:118-123 | the six metadata assignments append `id`, `datetime`, `producer`, `model`, `hardware_version`, `software_version` in that order, add exactly their values, and keep the dict well formed |
| Band.MetadataKeysDistinct | publica-suscribe-main/smam/publicadores/xiaomi_my_band.py:118-123 | the six metadata keys are pairwise different and are exactly the keys of the metadata map |
| Band.MetadataUpdates | publica-suscribe-main/smam/publicadores/xiaomi_my_band.py:118-123 | the six assignments add exactly the metadata map to the values |
| Band.TemperatureShape | publica-suscribe-main/smam/publicadores/xiaomi_my_band.py:116-123 | the temperature assignments on an empty dict build exactly the temperature record, and it is well formed |
| Band.HeartRateShape | publica-suscribe-main/smam/publicadores/xiaomi_my_band.py:136-143 | the heart-rate assignments build exactly the heart-rate record, and it is well formed |
| Band.BloodPreasureShape | publica-suscribe-main/smam/publicadores/xiaomi_my_band.py:155-162 | the blood-pressure assignments build exactly the blood-pressure record, and it is well formed |
| Band.PositionsShape | publica-suscribe-main/smam/publicadores/xiaomi_my_band.py:174-183 | the three axis assignments and the metadata build exactly the positions record, and it is well formed |
| Band.MedicineShape | publica-suscribe-main/smam/publicadores/xiaomi_my_band.py:195-205 | the medicine, dose, first intake and interval assignments and the metadata build exactly the medicine record, and it is well formed |
| Band.CycleEntry | publica-suscribe-main/smam/publicadores/xiaomi_my_band.py:115-213 | the i-th send of a cycle goes to the i-th queue. Its record is well formed, holds that queue's fields and then the six metadata keys, and carries the device id and the i-th clock reading |
| Band.TemperatureSent | publica-suscribe-main/smam/publicadores/xiaomi_my_band.py:129-131 | the first send goes to `body_temperature` with a well-formed record of the temperature and the metadata |
| Band.HeartRateSent | publica-suscribe-main/smam/publicadores/xiaomi_my_band.py:148-150 | the second send goes to `heart_rate` with a well-formed record of the heart rate and the metadata |
| Band.BloodPreasureSent | publica-suscribe-main/smam/publicadores/xiaomi_my_band.py:167-169 | the third send goes to `blood_preasure` with a well-formed record of the blood pressure and the metadata |
| Band.PositionsSent | publica-suscribe-main/smam/publicadores/xiaomi_my_band.py:188-190 | the fourth send goes to `positions` with a well-formed record of the three axes and the metadata |
| Band.MedicineSent | publica-suscribe-main/smam/publicadores/xiaomi_my_band.py:210-212 | the fifth send goes to `medicine` with a well-formed record of the four medicine fields and the metadata |
| Band.XiaomiMyBand.constructor | publica-suscribe-main/smam/publicadores/xiaomi_my_band.py:103-113 | a new device has the given id, step count 0 and battery level 81 |
| Band.XiaomiMyBand.SimulateStepCount | publica-suscribe-main/smam/publicadores/xiaomi_my_band.py:232-234 | the step count goes up by one and the new count is returned; the battery level is unchanged |
| Band.XiaomiMyBand.SimulateBatteryLevel | publica-suscribe-main/smam/publicadores/xiaomi_my_band.py:236-238 | the battery level goes down by one and the new level is returned; the step count is unchanged |
| Band.XiaomiMyBand.Publish | publica-suscribe-main/smam/publicadores/xiaomi_my_band.py:115-213 | one call sends exactly the five records of `Cycle`, in queue order (their shape is stated by `Band.CycleEntry`) |
| Band.XiaomiMyBand.TemperatureMessage | publica-suscribe-main/smam/publicadores/xiaomi_my_band.py:116-123 | the key-by-key assignments yield the temperature record |
| Band.XiaomiMyBand.HeartRateMessage | publica-suscribe-main/smam/publicadores/xiaomi_my_band.py:136-143 | the key-by-key assignments yield the heart-rate record |
| Band.XiaomiMyBand.BloodPreasureMessage | publica-suscribe-main/smam/publicadores/xiaomi_my_band.py:155-162 | the key-by-key assignments yield the blood-pressure record |
| Band.XiaomiMyBand.PositionsMessage | publica-suscribe-main/smam/publicadores/xiaomi_my_band.py:174-183 | the key-by-key assignments yield the positions record |
| Band.XiaomiMyBand.MedicineMessage | publica-suscribe-main/smam/publicadores/xiaomi_my_band.py:195-205 | the key-by-key assignments yield the medicine record |
| Medication.ParseTime | publica-suscribe-main/smam/suscriptores/procesador_de_medicamento.py:97 | a parsed `%H:%M` time has an hour in 0..23 and a minute in 0..59 |
| Medication.ParseTimeIff | publica-suscribe-main/smam/suscriptores/procesador_de_medicamento.py:97 | `strptime(s, '%H:%M')` succeeds if and only if `s` is an hour field, a colon and a minute field |
| Medication.ParseTimeFields | publica-suscribe-main/smam/suscriptores/procesador_de_medicamento.py:97 | parsing `h + ":" + m` gives back the values of the two fields |
| Medication.CurrentTimeFields | publica-suscribe-main/smam/suscriptores/procesador_de_medicamento.py:92-95 | the current time is the hour at characters 11-12 and the minute at 14-15 of the record's `datetime`, whatever character 13 holds |
| Medication.CurrentTimeSkipsSeparator | publica-suscribe-main/smam/suscriptores/procesador_de_medicamento.py:94 | a timestamp with `X` instead of `:` at character 13 still reads as 10:30 |
| Medication.CurrentTimeShort | publica-suscribe-main/smam/suscriptores/procesador_de_medicamento.py:94 | a `datetime` shorter than 16 characters raises `IndexError` |
| Medication.DecideOutcome | publica-suscribe-main/smam/suscriptores/procesador_de_medicamento.py:90-103 | the callback gets through a record if and only if the time fields and interval are readable and, when a dose is due, every notified key is present. It notifies if and only if the dose is due, passing `datetime`, `id`, `dose`, `medicine`, `model` and `hour` unchanged |
| Medication.EvaluateUndecodable | publica-suscribe-main/smam/suscriptores/procesador_de_medicamento.py:91 | a body the decoder rejects raises before any decision |
| Medication.ScheduledHourMatchesNextDoseIff | publica-suscribe-main/smam/suscriptores/procesador_de_medicamento.py:100 | for intervals 8, 12 and 24, `abs(h + i - 24)` equals `(h + i) % 24` if and only if the dose falls on the next day or at noon |
| Medication.DailyScheduleIsIntakeHour | publica-suscribe-main/smam/suscriptores/procesador_de_medicamento.py:100 | with a 24-hour interval the scheduled hour is the hour of the first intake |
| Medication.DailyDoseExample | publica-suscribe-main/smam/suscriptores/procesador_de_medicamento.py:100-103 | a record stamped 10:30 with first intake 10:30 and interval 24 is notified with its own fields |
| Medication.EightHourDoseExample | publica-suscribe-main/smam/suscriptores/procesador_de_medicamento.py:100 | first intake 6:30 with interval 8 is scheduled for 10, so a record stamped 14:30 is not notified |
| Medication.MedicationConsumer.constructor | publica-suscribe-main/smam/suscriptores/procesador_de_medicamento.py:70 | a new subscriber has notified and acknowledged nothing |
| Medication.MedicationConsumer.Callback | publica-suscribe-main/smam/suscriptores/procesador_de_medicamento.py:90-106 | the callback's outcome is `Evaluate(body)`. On success the notification, if any, is appended and the delivery tag is acknowledged once; on an exception nothing changes |
| Position.DecideOutcome | publica-suscribe-main/smam/suscriptores/procesador_de_posicion.py:88-96 | the callback gets through a record if and only if the three axes are present and numeric and, above the threshold, the notified keys are present. It notifies if and only if the plain sum of the axes exceeds 2, with `datetime`, `id`, the sum, "movimiento" and `model` |
| Position.ThresholdIsStrict | publica-suscribe-main/smam/suscriptores/procesador_de_posicion.py:94 | a sum of exactly 2 is not reported |
| Position.EvaluateUndecodable | publica-suscribe-main/smam/suscriptores/procesador_de_posicion.py:89 | a body the decoder rejects raises before any decision |
| Position.FirstUnreadableAxis | publica-suscribe-main/smam/suscriptores/procesador_de_posicion.py:91 | a missing or non-numeric axis makes the callback raise: `KeyError` for a missing `x_position`, `ValueError` for its bad text |
| Position.PositionConsumer.constructor | publica-suscribe-main/smam/suscriptores/procesador_de_posicion.py:68 | a new subscriber has notified and acknowledged nothing |
| Position.PositionConsumer.Callback | publica-suscribe-main/smam/suscriptores/procesador_de_posicion.py:88-98 | the callback's outcome is `Evaluate(body, toReal)`. On success the notification, if any, is appended and the delivery tag is acknowledged once; on an exception nothing changes |
| Pipeline.KeyClean | publica-suscribe-main/smam/publicadores/xiaomi_my_band.py:117 | a key of lower-case letters and underscores survives the protocol intact |
| Pipeline.DatetimeClean | publica-suscribe-main/smam/publicadores/xiaomi_my_band.py:217-218 | the timestamp survives the protocol intact |
| Pipeline.FirstIntakeClean | publica-suscribe-main/smam/publicadores/xiaomi_my_band.py:273-277 | the first intake text survives the protocol intact |
| Pipeline.MedicinesClean | publica-suscribe-main/smam/publicadores/xiaomi_my_band.py:253-268 | every medicine name survives the protocol intact |
| Pipeline.DescriptorsClean | publica-suscribe-main/smam/publicadores/xiaomi_my_band.py:104-107 | producer, model and version strings survive the protocol intact |
| Pipeline.MetadataClean | publica-suscribe-main/smam/publicadores/xiaomi_my_band.py:118-123 | every metadata key and value survives the protocol intact |
| Pipeline.RecordClean | publica-suscribe-main/smam/publicadores/xiaomi_my_band.py:130 | a record whose own entries survive intact survives intact as a whole |
| Pipeline.MedicineRoundTrip | publica-suscribe-main/smam/publicadores/xiaomi_my_band.py:195-211 | the medicine record is well formed, and the medication subscriber decodes it into every key with its value as text |
| Pipeline.RecordMetadataTexts | publica-suscribe-main/smam/publicadores/xiaomi_my_band.py:118-123 | any decoded record yields the band's timestamp, `str(id)` and model name |
| Pipeline.MedicineTopicTexts | publica-suscribe-main/smam/publicadores/xiaomi_my_band.py:196-199 | the decoded medicine record yields the medicine name, `str(dose)`, the first intake text and `str(interval)` |
| Pipeline.DatetimeCurrentTime | publica-suscribe-main/smam/suscriptores/procesador_de_medicamento.py:92-95 | the subscriber's current time is the hour and minute of the band's clock reading, not the time of consumption |
| Pipeline.FirstIntakeParses | publica-suscribe-main/smam/suscriptores/procesador_de_medicamento.py:97 | the first intake the band writes parses as the drawn hour and the minute read |
| Pipeline.MedicineVerdict | publica-suscribe-main/smam/suscriptores/procesador_de_medicamento.py:90-103 | on the band's medicine record the medication subscriber never raises. It notifies, with the record's own fields, if and only if the rule is due for the drawn intake hour, the minute read, the drawn interval and the record's clock reading |
| Pipeline.PositionsRoundTrip | publica-suscribe-main/smam/publicadores/xiaomi_my_band.py:174-190 | the positions record is well formed, and the position subscriber decodes it into every key with its value as text when the axis renderings are clean |
| Pipeline.PositionsTopicTexts | publica-suscribe-main/smam/publicadores/xiaomi_my_band.py:175-177 | the decoded positions record yields the rendering of each drawn axis |
| Pipeline.AxesSum | publica-suscribe-main/smam/suscriptores/procesador_de_posicion.py:91 | the sum of three drawn axes lies in [0, 3) |
| Pipeline.PositionsVerdict | publica-suscribe-main/smam/suscriptores/procesador_de_posicion.py:88-96 | on the band's positions record the position subscriber never raises. It reports a movement, with the record's timestamp, `str(id)`, the sum, "movimiento" and the model, if and only if the drawn axes add up to more than 2 |

## Left out

- Broker plumbing is not modelled: connections, `queue_declare`, `basic_qos(prefetch_count=1)`, `basic_consume`, `start_consuming` and the persistent delivery mode. Neither are the `consume` methods and the redelivery of unacknowledged messages. A send is an `Outgoing(queue, message)` value; a delivery is a call of `Callback` with its tag.
- The `time.sleep(1)` pauses in `publish` and in both callbacks are not modelled; only the order of the sends is.
- The `Monitor` is not part of this model. Its two notification calls are recorded as `MedNotification` / `MoveNotification` values in the consumer classes.
- The `KeyboardInterrupt` / `SystemExit` handling and the `__main__` entry points are process control and are left out.
- Connection failures in `publish` are not modelled; every send succeeds.
- `random` and `time.strftime` are inputs (`Draws`, `Readings`). Years outside 1000-9999 are excluded by `ValidClock`, since `%Y` is then not four digits.
- Floats are exact reals. Python's float `repr` and `float()` are the parameters `showFloat` and `toReal`, and the sum of the axes is exact. Rounding in `random.uniform`, which can reach its upper bound, and in the addition near the threshold 2 is not captured.
- Position.DecideOutcome: non-finite floats are not represented. Python's `float()` also accepts "nan", "inf" and "infinity" (with a sign, in any case). A NaN axis makes `suma > 2` false whatever the other axes hold, so the record is acknowledged without a notification. An infinite axis notifies with `suma = inf`. `toReal` returns a real number or `None` (a `ValueError`), so neither case can be expressed, and `Position.Axis`, `Position.Decide` and `Position.Evaluate` cover finite values only.
- `body.decode('utf-8')` is not modelled: the body is taken as already decoded text.
- `str(dict)` escaping is not modelled. A string with a quote, a backslash or a non-printable character is rendered with plain single quotes. `Codec.RoundTrip` only covers clean records, which are all the band produces.
- Numerals.ParseInt: models `int()` for an optional sign and ASCII digits only. Python also accepts surrounding whitespace, underscores between digits and non-ASCII decimal digits (`int(" 5")`, `int("1_0")`). The model raises on those. Non-ASCII digits in `strptime` are not covered either.
- Codec.RoundTrip: requires a non-empty record whose keys and values are printable ASCII (0x20-0x7E) and hold no brace, quote, backslash, ", " or ": ". Backslashes and control characters are escaped by `repr` and do not come back. Printable non-ASCII text, such as an accented medicine name, is left alone by `repr` and would be read back by the decoder, but the lemma does not cover it because the model's character class is ASCII only. `Codec.EmptyRecordFails` covers the empty record.
- Pipeline.PositionsVerdict: assumes that each axis' float rendering is clean and that `toReal` reads it back exactly (`FloatTextFaithful`), because float `repr` and `float()` are parameters here.
- Pipeline.PositionsRoundTrip: assumes clean axis renderings, for the same reason.
- `procesador_de_posicion.py` has its own copy of `string_to_json` (lines 100-109), identical to the medication one. It is modelled once as `Codec.Decode` / `Codec.StringToJson`.
- `simulate_hours_of_sleep`, `simulate_calories_burned`, `simulate_step_count` and `simulate_battery_level` are modelled, but `publish` does not use them.
