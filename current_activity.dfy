/**
 * `CurrentActivity`: a one-of-N sensor per resident with one bucket per activity; the
 * reading is the name of the activity under way.
 */
module CurrentActivities {
  import opened Wrappers
  import opened Runtime
  import opened Residents
  import opened Activities
  import opened Sensors

  /** The activity names, in list order. */
  function ActivityNames(activities: seq<Activity>): (names: seq<Option<string>>)
    ensures |names| == |activities|
    ensures forall i :: 0 <= i < |activities| ==> names[i] == activities[i].name
  {
    seq(|activities|, i requires 0 <= i < |activities| => activities[i].name)
  }

  /**
   * `new CurrentActivity(resident, activities)`: `Description` "CurrentActivity", `Id` the
   * resident's name, `StringFormat` "[{0}]", and bucket i at index i named after the i-th
   * activity.
   */
  method New(resident: Resident, activities: seq<Activity>) returns (s: Sensor)
    ensures fresh(s) && s.Shaped() && s.cls == CurrentActivity && s.id == resident.name
    ensures s.description == Some("CurrentActivity") && s.stringFormat == "[{0}]"
    ensures s.SensorNames() == ActivityNames(activities)
    ensures forall i :: 0 <= i < |s.buckets| ==> s.buckets[i].index == i && s.buckets[i].owner == s && fresh(s.buckets[i])
    ensures s.bucketNames.None? && s.bucketFunc.None? && s.allReadings == null
  {
    s := new Sensor(CurrentActivity, resident.name, null, null);
    s.description := Some("CurrentActivity");
    s.stringFormat := "[{0}]";
    var bs := NewBuckets(s, ActivityNames(activities));
    s.buckets := bs;
  }

  /**
   * `new CurrentActivity()`: no buckets and no properties set. A creator that then
   * assigns `Id` passes it as `id`.
   */
  method NewEmpty(id: Option<string>) returns (s: Sensor)
    ensures fresh(s) && s.Shaped() && s.cls == CurrentActivity && s.id == id
    ensures s.buckets == [] && s.description.None? && s.allReadings == null
    ensures s.bucketNames.None? && s.bucketFunc.None?
  {
    s := new Sensor(CurrentActivity, id, null, null);
  }

  /** The position of the first bucket named `name`, if any. */
  function FirstNamed(buckets: seq<SensorBucket>, name: string): (r: Option<nat>)
    ensures r.Some? ==> r.value < |buckets| && buckets[r.value].name == Some(name)
    ensures r.Some? ==> forall j :: 0 <= j < r.value ==> buckets[j].name != Some(name)
    ensures r.None? <==> forall j :: 0 <= j < |buckets| ==> buckets[j].name != Some(name)
  {
    if buckets == [] then None
    else if buckets[0].name == Some(name) then Some(0)
    else match FirstNamed(buckets[1..], name)
      case None => None
      case Some(k) => Some(k + 1)
  }

  /**
   * `ComputeSensor`: the first bucket named exactly like the reading, and bucket 0 when
   * there is none (which a sensor without buckets does not have).
   */
  function ComputeSensor(s: Sensor, reading: string): (r: Result<SensorBucket, Exn>)
    reads s
  {
    match FirstNamed(s.buckets, reading)
    case Some(k) => Ok(s.buckets[k])
    case None => BucketAt(s.buckets, 0)
  }

  /**
   * A reading selects the first bucket named exactly like it.
   */
  lemma ComputeSensorMeaning(s: Sensor, reading: string, k: nat)
    requires k < |s.buckets| && s.buckets[k].name == Some(reading)
    requires forall j :: 0 <= j < k ==> s.buckets[j].name != Some(reading)
    ensures ComputeSensor(s, reading) == Ok(s.buckets[k])
  {
    var r := FirstNamed(s.buckets, reading);
    assert r.Some? && r.value == k;
  }

  /** A reading no bucket is named after falls back to bucket 0, and only fails without buckets. */
  lemma ComputeSensorFallback(s: Sensor, reading: string)
    requires forall j :: 0 <= j < |s.buckets| ==> s.buckets[j].name != Some(reading)
    ensures s.buckets != [] ==> ComputeSensor(s, reading) == Ok(s.buckets[0])
    ensures s.buckets == [] ==> ComputeSensor(s, reading) == Err(Raise(ArgumentOutOfRange))
  {
  }

  /** The choice fails exactly for a sensor without buckets. */
  lemma ComputeSensorFails(s: Sensor, reading: string)
    ensures ComputeSensor(s, reading).Err? <==> s.buckets == []
  {
  }

  /**
   * For a sensor as constructed, a reading that names an activity selects the bucket of the
   * first activity of that name, at that activity's position.
   */
  lemma ComputeSensorFindsActivity(s: Sensor, activities: seq<Activity>, k: nat)
    requires s.SensorNames() == ActivityNames(activities)
    requires forall i :: 0 <= i < |s.buckets| ==> s.buckets[i].index == i
    requires k < |activities| && activities[k].name.Some?
    requires forall j :: 0 <= j < k ==> activities[j].name != activities[k].name
    ensures ComputeSensor(s, activities[k].name.value).Ok?
    ensures ComputeSensor(s, activities[k].name.value).value.index == k
  {
    var n := activities[k].name.value;
    assert |s.buckets| == |activities|;
    assert s.buckets[k].name == s.SensorNames()[k] == Some(n);
    assert forall j :: 0 <= j < k ==> s.buckets[j].name == s.SensorNames()[j] != Some(n);
    var r := FirstNamed(s.buckets, n);
    assert r.Some? && r.value == k;
  }

  /** `ToString`: `Description` followed by `Id`. */
  function ToString(s: Sensor): (t: string)
    reads s
    ensures t == Str(s.description) + Str(s.id)
  {
    Str(s.description) + Str(s.id)
  }

  /**
   * A current-activity sensor prints as "CurrentActivity" followed by its resident's name,
   * so two of them print alike exactly when their ids read alike.
   */
  lemma ToStringNamesResident(a: Sensor, b: Sensor)
    requires a.description == Some("CurrentActivity") && b.description == Some("CurrentActivity")
    ensures ToString(a) == "CurrentActivity" + Str(a.id)
    ensures ToString(a) == ToString(b) <==> Str(a.id) == Str(b.id)
  {
    var p := "CurrentActivity";
    if ToString(a) == ToString(b) {
      assert Str(a.id) == (p + Str(a.id))[|p|..];
      assert Str(b.id) == (p + Str(b.id))[|p|..];
    }
  }
}
