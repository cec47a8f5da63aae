/**
 * `OneOfNSensor`: a sensor whose reading selects one of its buckets, reported with the
 * value 1.0.
 */
module OneOfNSensors {
  import opened Wrappers
  import opened Runtime
  import opened Sensors

  /** The names `SensorBucketFunc` gives to the buckets built from `BucketNames`. */
  function NamesFrom(names: seq<seq<string>>, f: BucketNamer): (r: seq<Option<string>>)
    ensures |r| == |names|
    ensures forall i :: 0 <= i < |names| ==> r[i] == f(names[i], i)
  {
    seq(|names|, i requires 0 <= i < |names| => f(names[i], i))
  }

  /**
   * `Configure`: when both `BucketNames` and `SensorBucketFunc` are set, bucket i becomes
   * the bucket the function builds from `BucketNames[i]` and i; otherwise the buckets stay
   * as they are.
   */
  method Configure(s: Sensor)
    modifies s
    ensures s.Props() == old(s.Props())
    ensures old(s.bucketNames).None? || old(s.bucketFunc).None? ==> s.buckets == old(s.buckets)
    ensures old(s.bucketNames).Some? && old(s.bucketFunc).Some? ==>
      && s.SensorNames() == NamesFrom(s.bucketNames.value, s.bucketFunc.value)
      && |s.buckets| == |s.bucketNames.value|
      && forall i :: 0 <= i < |s.buckets| ==> s.buckets[i].index == i && s.buckets[i].owner == s && fresh(s.buckets[i])
  {
    if s.bucketNames.Some? && s.bucketFunc.Some? {
      var bs := NewBuckets(s, NamesFrom(s.bucketNames.value, s.bucketFunc.value));
      s.buckets := bs;
    }
  }

  /**
   * `Compute`: a fresh reading of the bucket `ComputeSensor` chose, with the value 1.0 and
   * the given time; a failed choice is passed on.
   */
  method Compute(choice: Result<SensorBucket, Exn>, dateTime: DateTime) returns (r: Result<SensorReading, Exn>)
    ensures r.Ok? <==> choice.Ok?
    ensures r.Err? ==> r.error == choice.error
    ensures r.Ok? ==> fresh(r.value) && r.value.bucket == choice.value && r.value.value == 1.0 && r.value.dateTime == dateTime
  {
    if choice.Err? {
      return Err(choice.error);
    }
    var sr := new SensorReading(choice.value, 1.0, dateTime);
    r := Ok(sr);
  }
}
