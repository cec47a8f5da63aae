/** `HourOfDay`: a one-of-N sensor with one bucket per hour of the reading's time stamp. */
module HoursOfDay {
  import opened Wrappers
  import opened Runtime
  import opened Text
  import opened Sensors

  /** The bucket names "0" to "23". */
  function HourNames(): (names: seq<Option<string>>)
    ensures |names| == 24
    ensures forall i :: 0 <= i < 24 ==> names[i] == Some(IntToString(i))
  {
    seq(24, i => Some(IntToString(i)))
  }

  /** The hour names are pairwise distinct. */
  lemma HourNamesDistinct(i: int, j: int)
    requires 0 <= i < 24 && 0 <= j < 24 && i != j
    ensures HourNames()[i] != HourNames()[j]
  {
    IntToStringInjective(i, j);
  }

  /**
   * `new HourOfDay()`: `Description` "HourOfDay", `StringFormat` "[{0}]", and bucket i
   * (for i below 24) at index i named after i in decimal. The constructor leaves `Id`
   * unset (`None`); a creator that then assigns `Id` passes it as `id`.
   */
  method New(id: Option<string>) returns (s: Sensor)
    ensures fresh(s) && s.Shaped() && s.cls == HourOfDay && s.id == id
    ensures s.description == Some("HourOfDay") && s.stringFormat == "[{0}]"
    ensures s.SensorNames() == HourNames()
    ensures forall i :: 0 <= i < |s.buckets| ==> s.buckets[i].index == i && s.buckets[i].owner == s && fresh(s.buckets[i])
    ensures s.bucketNames.None? && s.bucketFunc.None? && s.isShared && s.allReadings == null
  {
    s := new Sensor(HourOfDay, id, null, null);
    s.description := Some("HourOfDay");
    s.stringFormat := "[{0}]";
    var bs := NewBuckets(s, HourNames());
    s.buckets := bs;
  }

  /** `ComputeSensor`: the bucket at the hour of the parsed time stamp. */
  function ComputeSensor(s: Sensor, reading: string, p: Platform): (r: Result<SensorBucket, Exn>)
    reads s
    ensures ParseDate(p, reading).Err? ==> r == Err(ParseDate(p, reading).error)
    ensures ParseDate(p, reading).Ok? ==> r == BucketAt(s.buckets, ParseDate(p, reading).value.hour)
  {
    match ParseDate(p, reading)
    case Err(e) => Err(e)
    case Ok(d) => BucketAt(s.buckets, d.hour)
  }

  /**
   * On a sensor as constructed, a time stamp that parses selects the bucket whose index
   * is its hour and whose name is that hour in decimal; one that does not parse throws.
   */
  lemma ComputeSensorPicksHour(s: Sensor, reading: string, p: Platform)
    requires s.SensorNames() == HourNames()
    requires forall i :: 0 <= i < |s.buckets| ==> s.buckets[i].index == i
    ensures ComputeSensor(s, reading, p).Ok? <==> ParseDate(p, reading).Ok?
    ensures ComputeSensor(s, reading, p).Ok? ==>
      var h := ParseDate(p, reading).value.hour;
      ComputeSensor(s, reading, p).value.index == h && ComputeSensor(s, reading, p).value.name == Some(IntToString(h))
    ensures ComputeSensor(s, reading, p).Err? ==> ComputeSensor(s, reading, p).error.kind == FormatError
  {
    assert |s.buckets| == |s.SensorNames()| == 24;
    if ParseDate(p, reading).Ok? {
      var h := ParseDate(p, reading).value.hour;
      assert s.SensorNames()[h] == s.buckets[h].name;
    }
  }
}
