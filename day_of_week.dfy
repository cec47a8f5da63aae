/** `DayOfWeek`: a one-of-N sensor with one bucket per weekday of the reading's time stamp. */
module DaysOfWeek {
  import opened Wrappers
  import opened Runtime
  import opened Sensors

  /** The weekday names, Sunday first. */
  const Names: seq<string> := ["Sun", "Mon", "Tue", "Wed", "Thu", "Fri", "Sat"]

  function DayNames(): (names: seq<Option<string>>)
    ensures |names| == 7
    ensures forall i :: 0 <= i < 7 ==> names[i] == Some(Names[i])
  {
    seq(7, i requires 0 <= i < 7 => Some(Names[i]))
  }

  /** The weekday names are pairwise distinct: no two share both of their first two letters. */
  lemma DayNamesDistinct(i: int, j: int)
    requires 0 <= i < 7 && 0 <= j < 7 && i != j
    ensures DayNames()[i] != DayNames()[j]
  {
    assert forall k :: 0 <= k < 7 ==> Names[k][1] == "uouehra"[k] && Names[k][0] == "SMTWTFS"[k];
  }

  /**
   * `new DayOfWeek()`: `Description` "DayOfWeek", `StringFormat` "[{0}]", and bucket i (for
   * i below 7) at index i named after weekday i, Sunday being 0. The constructor leaves
   * `Id` unset (`None`); a creator that then assigns `Id` passes it as `id`.
   */
  method New(id: Option<string>) returns (s: Sensor)
    ensures fresh(s) && s.Shaped() && s.cls == DayOfWeek && s.id == id
    ensures s.description == Some("DayOfWeek") && s.stringFormat == "[{0}]"
    ensures s.SensorNames() == DayNames()
    ensures forall i :: 0 <= i < |s.buckets| ==> s.buckets[i].index == i && s.buckets[i].owner == s && fresh(s.buckets[i])
    ensures s.bucketNames.None? && s.bucketFunc.None? && s.isShared && s.allReadings == null
  {
    s := new Sensor(DayOfWeek, id, null, null);
    s.description := Some("DayOfWeek");
    s.stringFormat := "[{0}]";
    var bs := NewBuckets(s, DayNames());
    s.buckets := bs;
  }

  /** `ComputeSensor`: the bucket at the weekday number of the parsed time stamp. */
  function ComputeSensor(s: Sensor, reading: string, p: Platform): (r: Result<SensorBucket, Exn>)
    reads s
    ensures ParseDate(p, reading).Err? ==> r == Err(ParseDate(p, reading).error)
    ensures ParseDate(p, reading).Ok? ==> r == BucketAt(s.buckets, ParseDate(p, reading).value.dayOfWeek)
  {
    match ParseDate(p, reading)
    case Err(e) => Err(e)
    case Ok(d) => BucketAt(s.buckets, d.dayOfWeek)
  }

  /**
   * On a sensor as constructed, a time stamp that parses selects the bucket whose index
   * is its weekday number and whose name is that weekday; one that does not parse throws.
   */
  lemma ComputeSensorPicksWeekday(s: Sensor, reading: string, p: Platform)
    requires s.SensorNames() == DayNames()
    requires forall i :: 0 <= i < |s.buckets| ==> s.buckets[i].index == i
    ensures ComputeSensor(s, reading, p).Ok? <==> ParseDate(p, reading).Ok?
    ensures ComputeSensor(s, reading, p).Ok? ==>
      var d := ParseDate(p, reading).value.dayOfWeek;
      ComputeSensor(s, reading, p).value.index == d && ComputeSensor(s, reading, p).value.name == Some(Names[d])
    ensures ComputeSensor(s, reading, p).Err? ==> ComputeSensor(s, reading, p).error.kind == FormatError
  {
    assert |s.buckets| == |s.SensorNames()| == 7;
    if ParseDate(p, reading).Ok? {
      var d := ParseDate(p, reading).value.dayOfWeek;
      assert s.SensorNames()[d] == s.buckets[d].name;
    }
  }
}
