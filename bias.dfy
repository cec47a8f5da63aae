/** `Bias`: a shared sensor with one bucket that always reports its configured value. */
module Biases {
  import opened Wrappers
  import opened Runtime
  import opened Sensors

  /** `-Math.Sqrt(10)` as a double. */
  const DefaultValue: real := -3.1622776601683795

  /**
   * `new Bias(value)`: stores the value unchanged and is shared. The constructor leaves
   * `Id` unset (`None`); a creator that then assigns `Id` passes it as `id`.
   */
  method New(value: real, id: Option<string>) returns (s: Sensor)
    ensures fresh(s) && s.Shaped() && s.cls == Bias && s.id == id
    ensures s.value == value && s.isShared && s.buckets == [] && s.allReadings == null
  {
    s := new Sensor(Bias, id, null, null);
    s.value := value;
    s.isShared := true;
  }

  /** `new Bias()`: the value minus the square root of ten. */
  method NewDefault(id: Option<string>) returns (s: Sensor)
    ensures fresh(s) && s.Shaped() && s.cls == Bias && s.id == id
    ensures s.value == DefaultValue && s.isShared && s.buckets == [] && s.allReadings == null
  {
    s := New(DefaultValue, id);
  }

  /** The default value squares to ten, up to the precision of a double. */
  lemma DefaultValueIsMinusRootTen()
    ensures DefaultValue < 0.0
    ensures 9.9999999999 < DefaultValue * DefaultValue < 10.0000000001
  {
  }

  /** `Configure`: exactly one bucket, "Bias", at index 0. */
  method Configure(s: Sensor)
    modifies s
    ensures s.Props() == old(s.Props())
    ensures |s.buckets| == 1 && fresh(s.buckets[0])
    ensures s.buckets[0].index == 0 && s.buckets[0].name == Some("Bias") && s.buckets[0].owner == s
  {
    var b := new SensorBucket(0, Some("Bias"), s);
    s.buckets := [b];
  }

  /** The bucket `Compute` reports, whatever the reading: `Buckets[0]`. */
  function Choose(s: Sensor): (r: Result<SensorBucket, Exn>)
    reads s
    ensures r.Ok? <==> |s.buckets| > 0
    ensures r.Ok? ==> r.value == s.buckets[0]
  {
    BucketAt(s.buckets, 0)
  }

  /**
   * `Compute`: ignores the reading and reports a fresh reading of bucket 0 with the
   * configured `Value` and the given time.
   */
  method Compute(s: Sensor, reading: string, dateTime: DateTime) returns (r: Result<SensorReading, Exn>)
    ensures r.Ok? <==> Choose(s).Ok?
    ensures r.Err? ==> r.error == Choose(s).error
    ensures r.Ok? ==> fresh(r.value) && r.value.bucket == Choose(s).value && r.value.value == s.value && r.value.dateTime == dateTime
  {
    var b := Choose(s);
    if b.Err? {
      return Err(b.error);
    }
    var sr := new SensorReading(b.value, s.value, dateTime);
    r := Ok(sr);
  }
}
