/**
 * The error value the parser returns instead of throwing, and its text form.
 */
module DataErrors {
  import opened Wrappers

  /** `ErrorID`, in declaration order. */
  datatype ErrorID =
    | UnknownSensor
    | IncorrectSensorState
    | SensorReadingError
    | UnknownActivity
    | IncorrectActivityState
    | ActivityStatusError

  /** `ErrorID.ToString()`: the member name. */
  function IdName(id: ErrorID): (s: string)
    ensures |s| > 0
  {
    match id
    case UnknownSensor => "UnknownSensor"
    case IncorrectSensorState => "IncorrectSensorState"
    case SensorReadingError => "SensorReadingError"
    case UnknownActivity => "UnknownActivity"
    case IncorrectActivityState => "IncorrectActivityState"
    case ActivityStatusError => "ActivityStatusError"
  }

  /** The enumeration has exactly six members, with six distinct names. */
  lemma SixErrorIds(id: ErrorID)
    ensures id in {UnknownSensor, IncorrectSensorState, SensorReadingError,
                   UnknownActivity, IncorrectActivityState, ActivityStatusError}
    ensures forall a: ErrorID, b: ErrorID :: IdName(a) == IdName(b) ==> a == b
  {
  }

  /** A data error; each string property may be null (`None`). */
  datatype DataError = DataError(
    id: ErrorID,
    sensor: Option<string>,
    sensorReading: Option<string>,
    activity: Option<string>,
    resident: Option<string>,
    message: Option<string>)

  /** `string.IsNullOrEmpty`. */
  predicate IsNullOrEmpty(s: Option<string>)
  {
    s.None? || s.value == ""
  }

  /** The fragment one optional property contributes: ", Label=value", or nothing. */
  function Field(key: string, v: Option<string>): (f: string)
    ensures IsNullOrEmpty(v) <==> f == ""
    ensures !IsNullOrEmpty(v) ==> f == ", " + key + "=" + v.value
  {
    if IsNullOrEmpty(v) then "" else ", " + key + "=" + v.value
  }

  function Header(id: ErrorID): string
  {
    "[DataError: Id=" + IdName(id)
  }

  /** The optional part of the text, in the fixed order Sensor, SensorReading, Activity, Resident, Message. */
  function Fields(e: DataError): string
  {
    Field("Sensor", e.sensor)
      + Field("SensorReading", e.sensorReading)
      + Field("Activity", e.activity)
      + Field("Resident", e.resident)
      + Field("Message", e.message)
  }

  /** `DataError.ToString()`. */
  function ToString(e: DataError): string
  {
    Header(e.id) + Fields(e) + "]"
  }

  /** The text opens with "[DataError: Id=<Id>" and closes with "]". */
  lemma ToStringFrame(e: DataError)
    ensures Header(e.id) <= ToString(e)
    ensures |ToString(e)| > |Header(e.id)|
    ensures ToString(e)[|ToString(e)| - 1] == ']'
  {
    assert ToString(e) == Header(e.id) + (Fields(e) + "]");
  }

  /** With every optional property null or empty, the text is exactly "[DataError: Id=<Id>]". */
  lemma ToStringOfBareError(e: DataError)
    requires IsNullOrEmpty(e.sensor) && IsNullOrEmpty(e.sensorReading) && IsNullOrEmpty(e.activity)
    requires IsNullOrEmpty(e.resident) && IsNullOrEmpty(e.message)
    ensures ToString(e) == "[DataError: Id=" + IdName(e.id) + "]"
  {
  }

  /** Null and empty strings are interchangeable: only the non-empty properties shape the text. */
  lemma ToStringIgnoresEmpty(e: DataError, e': DataError)
    requires e.id == e'.id
    requires IsNullOrEmpty(e.sensor) == IsNullOrEmpty(e'.sensor) && (!IsNullOrEmpty(e.sensor) ==> e.sensor == e'.sensor)
    requires IsNullOrEmpty(e.sensorReading) == IsNullOrEmpty(e'.sensorReading)
    requires !IsNullOrEmpty(e.sensorReading) ==> e.sensorReading == e'.sensorReading
    requires IsNullOrEmpty(e.activity) == IsNullOrEmpty(e'.activity) && (!IsNullOrEmpty(e.activity) ==> e.activity == e'.activity)
    requires IsNullOrEmpty(e.resident) == IsNullOrEmpty(e'.resident) && (!IsNullOrEmpty(e.resident) ==> e.resident == e'.resident)
    requires IsNullOrEmpty(e.message) == IsNullOrEmpty(e'.message) && (!IsNullOrEmpty(e.message) ==> e.message == e'.message)
    ensures ToString(e) == ToString(e')
  {
  }

  lemma PrefixOfConcat(a: string, b: string, c: string, d: string)
    ensures a + b <= a + (b + c) + d
  {
    assert a + (b + c) + d == (a + b) + (c + d);
  }

  lemma SuffixOfAppend(a: string, b: string)
    ensures (a + b)[|a|..] == b
  {
  }

  lemma SeqAssoc5(a: string, b: string, c: string, d: string, e: string)
    ensures a + b + c + d + e == a + (b + c + d + e)
  {
  }

  /** A present Sensor follows the header at once: it is the first property shown. */
  lemma ToStringSensorFirst(e: DataError)
    requires !IsNullOrEmpty(e.sensor)
    ensures Header(e.id) + Field("Sensor", e.sensor) <= ToString(e)
    ensures Field("Sensor", e.sensor) == ", Sensor=" + e.sensor.value
  {
    var rest := Field("SensorReading", e.sensorReading) + Field("Activity", e.activity)
      + Field("Resident", e.resident) + Field("Message", e.message);
    assert Fields(e) == Field("Sensor", e.sensor) + rest by {
      var f1, f2, f3, f4, f5 := Field("Sensor", e.sensor), Field("SensorReading", e.sensorReading),
        Field("Activity", e.activity), Field("Resident", e.resident), Field("Message", e.message);
      SeqAssoc5(f1, f2, f3, f4, f5);
    }
    PrefixOfConcat(Header(e.id), Field("Sensor", e.sensor), rest, "]");
  }

  /** A present Message is the last property shown, just before the closing bracket. */
  lemma ToStringMessageLast(e: DataError)
    requires !IsNullOrEmpty(e.message)
    ensures var tail := ", Message=" + e.message.value + "]";
      ToString(e)[|ToString(e)| - |tail|..] == tail
  {
    var front := Field("Sensor", e.sensor) + Field("SensorReading", e.sensorReading)
      + Field("Activity", e.activity) + Field("Resident", e.resident);
    var m := Field("Message", e.message);
    var tail := ", Message=" + e.message.value + "]";
    assert m + "]" == tail;
    assert Fields(e) == front + m;
    assert ToString(e) == (Header(e.id) + front) + tail;
    SuffixOfAppend(Header(e.id) + front, tail);
  }

  /** The two errors the parser builds, with the properties it fills in. */
  function UnknownSensorError(code: string, reading: string): (e: DataError)
    ensures e.id == UnknownSensor && e.sensor == Some(code) && e.sensorReading == Some(reading)
    ensures e.activity.None? && e.resident.None? && e.message.None?
  {
    DataError(UnknownSensor, Some(code), Some(reading), None, None, None)
  }

  function SensorError(id: ErrorID, code: string, reading: string, message: Option<string>): (e: DataError)
    ensures e.id == id && e.sensor == Some(code) && e.sensorReading == Some(reading) && e.message == message
    ensures e.activity.None? && e.resident.None?
  {
    DataError(id, Some(code), Some(reading), None, None, message)
  }

  /** The labels the text uses, spelled out. */
  lemma Labels()
    ensures ", " + "Sensor" + "=" == ", Sensor="
    ensures ", " + "SensorReading" + "=" == ", SensorReading="
    ensures ", " + "Message" + "=" == ", Message="
  {
  }

  /**
   * The unknown-sensor error shows the header "[DataError: Id=UnknownSensor", then its code
   * and its reading, each only when non-empty, and nothing else.
   */
  lemma UnknownSensorErrorText(code: string, reading: string)
    ensures ToString(UnknownSensorError(code, reading))
      == Header(UnknownSensor)
        + (if code == "" then "" else ", Sensor=" + code)
        + (if reading == "" then "" else ", SensorReading=" + reading)
        + "]"
  {
    var e := UnknownSensorError(code, reading);
    var f1 := if code == "" then "" else ", Sensor=" + code;
    var f2 := if reading == "" then "" else ", SensorReading=" + reading;
    Labels();
    assert Field("Sensor", e.sensor) == f1;
    assert Field("SensorReading", e.sensorReading) == f2;
    assert Fields(e) == f1 + f2;
    assert ToString(e) == Header(UnknownSensor) + (f1 + f2) + "]";
  }

  /**
   * The errors a known sensor's line produces show the header "[DataError: Id=<Id>", the
   * code, then the reading and the message, each only when non-empty, in that order.
   */
  lemma SensorErrorText(id: ErrorID, code: string, reading: string, message: Option<string>)
    requires code != ""
    ensures ToString(SensorError(id, code, reading, message))
      == Header(id) + ", Sensor=" + code
        + (if reading == "" then "" else ", SensorReading=" + reading)
        + (if IsNullOrEmpty(message) then "" else ", Message=" + message.value)
        + "]"
  {
    var e := SensorError(id, code, reading, message);
    var f2 := if reading == "" then "" else ", SensorReading=" + reading;
    var m := if IsNullOrEmpty(message) then "" else ", Message=" + message.value;
    Labels();
    assert Field("Sensor", e.sensor) == ", Sensor=" + code;
    assert Field("SensorReading", e.sensorReading) == f2;
    assert Field("Message", e.message) == m;
    assert Fields(e) == (", Sensor=" + code) + f2 + m;
    Regroup(Header(id), ", Sensor=", code, f2, m);
  }

  lemma Regroup(h: string, l1: string, a: string, b: string, m: string)
    ensures h + ((l1 + a) + b + m) + "]" == h + l1 + a + b + m + "]"
  {
  }
}
