/**
 * The position subscriber (`ProcesadorPosicion`): it decodes a record of
 * the `positions` queue, adds up the three accelerometer axes and notifies
 * the monitor of a probable fall when the sum exceeds 2. The message is
 * acknowledged once the record has been evaluated.
 *
 * `float(text)` is a parameter `toReal`: `None` stands for the `ValueError`
 * it raises on text that is not a number. The sum is exact.
 */
module Position {
  import opened Wrappers
  import opened Codec

  /** The label the callback attaches to a movement notification. */
  const MovementLabel := "movimiento"

  /** The threshold the sum of the axes must exceed. */
  const Threshold: real := 2.0

  /** The arguments of `Monitor.print_notification`, in order. */
  datatype MoveNotification = MoveNotification(datetime: string, id: string, total: real, kind: string, model: string)

  /** `float(json_message[k])`. */
  function Axis(m: map<string, string>, k: string, toReal: string -> Option<real>): Result<real, Fault> {
    var text :- Get(m, k);
    match toReal(text)
    case Some(x) => Success(x)
    case None => Failure(ValueError(text))
  }

  /**
   * The decision `callback` makes on a decoded record: the three axes are
   * read and converted left to right and added up; above the threshold the
   * monitor is notified with the timestamp, the device id, the sum, the
   * label and the model.
   */
  function Decide(m: map<string, string>, toReal: string -> Option<real>): Result<Option<MoveNotification>, Fault> {
    var x :- Axis(m, "x_position", toReal);
    var y :- Axis(m, "y_position", toReal);
    var z :- Axis(m, "z_position", toReal);
    var total := x + y + z;
    if total > Threshold then
      var datetime :- Get(m, "datetime");
      var id :- Get(m, "id");
      var model :- Get(m, "model");
      Success(Some(MoveNotification(datetime, id, total, MovementLabel, model)))
    else
      Success(None)
  }

  /** `string_to_json` followed by the decision. */
  function Evaluate(body: string, toReal: string -> Option<real>): Result<Option<MoveNotification>, Fault> {
    var m :- Decode(body);
    Decide(m, toReal)
  }

  /**
   * The subscriber with what it has done so far: the notifications it
   * handed to the monitor and the delivery tags it acknowledged.
   */
  class PositionConsumer {
    var notifications: seq<MoveNotification>
    var acked: seq<nat>

    constructor ()
      ensures notifications == [] && acked == []
    {
      notifications := [];
      acked := [];
    }

    /**
     * `callback`: decode, add up the axes, notify above the threshold,
     * then acknowledge the delivery exactly once. An exception leaves the
     * delivery unacknowledged and nothing notified.
     */
    method Callback(deliveryTag: nat, body: string, toReal: string -> Option<real>) returns (r: Result<Option<MoveNotification>, Fault>)
      modifies this
      ensures r == Evaluate(body, toReal)
      ensures r.Success? ==> notifications == old(notifications) + r.value.Elements() && acked == old(acked) + [deliveryTag]
      ensures r.Failure? ==> notifications == old(notifications) && acked == old(acked)
    {
      var decoded := StringToJson(body);
      if decoded.Failure? {
        return Failure(decoded.error);
      }
      r := Decide(decoded.value, toReal);
      if r.Failure? {
        return;
      }
      if r.value.Some? {
        notifications := notifications + [r.value.value];
      }
      acked := acked + [deliveryTag];
    }
  }

  // ---------------------------------------------------------------------
  // Properties
  // ---------------------------------------------------------------------

  /** The three axes are present and each converts to a number. */
  predicate Readable(m: map<string, string>, toReal: string -> Option<real>) {
    && "x_position" in m && toReal(m["x_position"]).Some?
    && "y_position" in m && toReal(m["y_position"]).Some?
    && "z_position" in m && toReal(m["z_position"]).Some?
  }

  /** The plain sum of the three converted axes: no squares, no magnitude. */
  function Total(m: map<string, string>, toReal: string -> Option<real>): real
    requires Readable(m, toReal)
  {
    toReal(m["x_position"]).value + toReal(m["y_position"]).value + toReal(m["z_position"]).value
  }

  /**
   * The callback gets through a record exactly when the axes are readable
   * and, should the sum exceed 2, the notified keys are present; it
   * notifies exactly when the sum exceeds 2, with the decoded `datetime`,
   * `id` and `model`, the sum, and the label `MovementLabel` ("movimiento").
   */
  lemma DecideOutcome(m: map<string, string>, toReal: string -> Option<real>)
    ensures Decide(m, toReal).Success? <==>
      Readable(m, toReal) && (Total(m, toReal) > Threshold ==> "datetime" in m && "id" in m && "model" in m)
    ensures Decide(m, toReal).Success? ==> (Decide(m, toReal).value.Some? <==> Total(m, toReal) > Threshold)
    ensures Decide(m, toReal).Success? && Decide(m, toReal).value.Some? ==>
      Decide(m, toReal).value.value == MoveNotification(m["datetime"], m["id"], Total(m, toReal), MovementLabel, m["model"])
  {
  }

  /** A sum of exactly 2 is not a fall: the threshold is strict. */
  lemma ThresholdIsStrict(m: map<string, string>, toReal: string -> Option<real>)
    requires Readable(m, toReal) && Total(m, toReal) == Threshold
    ensures Decide(m, toReal) == Success(None)
  {
  }

  /** A record the decoder cannot read is never evaluated: the callback raises before any decision. */
  lemma EvaluateUndecodable(body: string, toReal: string -> Option<real>)
    requires Decode(body).Failure?
    ensures Evaluate(body, toReal) == Failure(Decode(body).error)
  {
  }

  /** An axis that is missing, or that `float` rejects, stops the callback with that error. */
  lemma FirstUnreadableAxis(m: map<string, string>, toReal: string -> Option<real>)
    requires !Readable(m, toReal)
    ensures Decide(m, toReal).Failure?
    ensures "x_position" !in m ==> Decide(m, toReal) == Failure(KeyError("x_position"))
    ensures "x_position" in m && toReal(m["x_position"]).None? ==> Decide(m, toReal) == Failure(ValueError(m["x_position"]))
  {
  }
}
