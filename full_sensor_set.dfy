/**
 * `FullSensorSet` and `SmallSensorSet`: sensor sets with a fixed tag table that start
 * with one `HourOfDay` sensor and, when asked, one previous-activity and one
 * current-activity sensor per resident. The full set also carries the electricity and
 * temperature bin tables.
 */
module FullSensorSets {
  import opened Wrappers
  import opened Runtime
  import opened Residents
  import opened Activities
  import opened Sensors
  import opened Registries
  import opened SensorKinds
  import opened NumericSensors
  import HoursOfDay
  import CurrentActivities
  import opened SensorSets
  import opened Inputs

  /** The tag table of `FullSensorSet`. */
  const FullTypes: map<string, SensorClass> := map[
    "M" := MotionSensor, "L" := LightSensor, "I" := KitchenItemSensor, "D" := DoorSensor,
    "T" := TemperatureSensor, "P" := ElectricitySensor, "E" := ExperimenterSwitch]

  /** The tag table of `SmallSensorSet`: the binary sensors only. */
  const SmallTypes: map<string, SensorClass> := map[
    "M" := MotionSensor, "L" := LightSensor, "I" := KitchenItemSensor, "D" := DoorSensor,
    "E" := ExperimenterSwitch]

  /** Both tables name only classes the parser can construct, and the small one is the binary part of the full one. */
  lemma TagTables()
    ensures forall t :: t in FullTypes ==> Creatable(FullTypes[t])
    ensures forall t :: t in SmallTypes ==> Creatable(SmallTypes[t]) && IsBinaryClass(SmallTypes[t])
    ensures SmallTypes.Keys == FullTypes.Keys - {"T", "P"}
    ensures forall t :: t in SmallTypes ==> SmallTypes[t] == FullTypes[t]
    ensures forall t :: t in FullTypes ==> (IsBinaryClass(FullTypes[t]) <==> t in SmallTypes)
  {
  }

  /** `ElectricitySensorBins`. */
  const ElectricityBins: seq<Edge> := [
    At(0), At(1590), At(3179), At(4768), At(6357), At(7946), At(9535), At(11124), At(12713),
    At(14302), At(15891), PositiveInfinity]

  /** `TemperatureSensorBins`. */
  const TemperatureBins: seq<Edge> := [
    At(0), At(11), At(13), At(15), At(17), At(19), At(21), At(23), At(25), At(27), At(29), At(31),
    PositiveInfinity]

  /** A bin table as the numeric sensors need it: ascending, non-negative, closed by infinity. */
  predicate ProperBins(bins: seq<Edge>)
  {
    && |bins| > 0 && bins[|bins| - 1] == PositiveInfinity
    && StrictlyAscending(bins) && NonNegativeEdges(bins)
  }

  /** Adjacent ascending edges make a strictly ascending table. */
  lemma {:induction false} AscendingFromAdjacent(bins: seq<Edge>)
    requires forall i :: 0 <= i < |bins| - 1 ==> EdgeLess(bins[i], bins[i + 1])
    ensures StrictlyAscending(bins)
    decreases |bins|
  {
    if |bins| > 1 {
      AscendingFromAdjacent(bins[1..]);
      forall j | 1 <= j < |bins|
        ensures EdgeLess(bins[0], bins[j])
      {
        assert EdgeLess(bins[1..][0], bins[1..][j - 1]) || j == 1;
      }
      forall i, j | 1 <= i < j < |bins|
        ensures EdgeLess(bins[i], bins[j])
      {
        assert bins[i] == bins[1..][i - 1] && bins[j] == bins[1..][j - 1];
      }
    }
  }

  /**
   * Both bin tables are proper, so every value lands in exactly one bin and the bucket
   * names `Configure` gives them are pairwise different.
   */
  lemma BinTablesProper()
    ensures ProperBins(ElectricityBins) && |ElectricityBins| == 12
    ensures ProperBins(TemperatureBins) && |TemperatureBins| == 13
    ensures forall i, j :: 0 <= i < j < |ElectricityBins| ==> LengthString(ElectricityBins, i) != LengthString(ElectricityBins, j)
    ensures forall i, j :: 0 <= i < j < |TemperatureBins| ==> LengthString(TemperatureBins, i) != LengthString(TemperatureBins, j)
  {
    AscendingFromAdjacent(ElectricityBins);
    AscendingFromAdjacent(TemperatureBins);
    forall i, j | 0 <= i < j < |ElectricityBins|
      ensures LengthString(ElectricityBins, i) != LengthString(ElectricityBins, j)
    {
      LengthStringsDistinct(ElectricityBins, i, j);
    }
    forall i, j | 0 <= i < j < |TemperatureBins|
      ensures LengthString(TemperatureBins, i) != LengthString(TemperatureBins, j)
    {
      LengthStringsDistinct(TemperatureBins, i, j);
    }
  }

  /**
   * `new FullSensorSet(inputs, includePreviousActivity, includeCurrentActivity)`: the full
   * tag table, `Name` "FullSensorSet", then the pre-registered sensors.
   */
  method NewFullSensorSet(inputs: CasasInputs, includePrevious: bool, includeCurrent: bool, less: Order, env: Collaborators)
    returns (r: Result<SensorSet, Exn>, ghost previous: seq<Sensor>, ghost current: seq<Sensor>)
    requires StrictOrder(less) && |inputs.activities| <= IntMax
    ensures r.Err? <==> (includePrevious || includeCurrent) && inputs.numberOfResidents < 0
    ensures r.Err? ==> r.error == Raise(ArgumentOutOfRange)
    ensures r.Ok? ==> fresh(r.value) && r.value.sensorTypes == FullTypes && r.value.name == Some("FullSensorSet")
    ensures r.Ok? ==> Preregistered(r.value, inputs.numberOfResidents, inputs.GetActivities(true),
      includePrevious, includeCurrent, previous, current, env)
  {
    TagTables();
    r, previous, current := NewSensorSet(FullTypes, "FullSensorSet", inputs, includePrevious, includeCurrent, less, env);
  }

  /**
   * `new SmallSensorSet(inputs, includePreviousActivity, includeCurrentActivity)`: the
   * binary-only tag table, `Name` "SmallSensorSet", then the pre-registered sensors.
   */
  method NewSmallSensorSet(inputs: CasasInputs, includePrevious: bool, includeCurrent: bool, less: Order, env: Collaborators)
    returns (r: Result<SensorSet, Exn>, ghost previous: seq<Sensor>, ghost current: seq<Sensor>)
    requires StrictOrder(less) && |inputs.activities| <= IntMax
    ensures r.Err? <==> (includePrevious || includeCurrent) && inputs.numberOfResidents < 0
    ensures r.Err? ==> r.error == Raise(ArgumentOutOfRange)
    ensures r.Ok? ==> fresh(r.value) && r.value.sensorTypes == SmallTypes && r.value.name == Some("SmallSensorSet")
    ensures r.Ok? ==> Preregistered(r.value, inputs.numberOfResidents, inputs.GetActivities(true),
      includePrevious, includeCurrent, previous, current, env)
  {
    TagTables();
    r, previous, current := NewSensorSet(SmallTypes, "SmallSensorSet", inputs, includePrevious, includeCurrent, less, env);
  }

  /** Exactly one `HourOfDay` sensor is registered: the one without an id, with its 24 buckets. */
  ghost predicate OneHour(s: SensorSet)
    reads s, s.sensors
  {
    && (exists h :: h in s.sensors && h.cls == HourOfDay && h.id.None? && h.SensorNames() == HoursOfDay.HourNames())
    && (forall x, y :: x in s.sensors && y in s.sensors && x.cls == HourOfDay && y.cls == HourOfDay ==> x == y)
  }

  /** Every registered sensor is the hour sensor or one of the per-resident sensors asked for. */
  ghost predicate OnlyFrom(s: SensorSet, includePrevious: bool, includeCurrent: bool,
                           previous: seq<Sensor>, current: seq<Sensor>)
    reads s
  {
    forall x :: x in s.sensors ==>
      x.cls == HourOfDay || (x in previous && includePrevious) || (x in current && includeCurrent)
  }

  /** x is registered, or the comparer found an equivalent sensor already there. */
  ghost predicate Kept(sensors: seq<Sensor>, less: Order, x: Sensor)
  {
    x in sensors || exists y :: y in sensors && Equivalent(y, x, less)
  }

  /** What was kept stays kept while nothing is removed from the registry. */
  lemma KeptGrows(before: seq<Sensor>, after: seq<Sensor>, less: Order, xs: seq<Sensor>)
    requires forall x :: x in before ==> x in after
    requires forall k :: 0 <= k < |xs| ==> Kept(before, less, xs[k])
    ensures forall k :: 0 <= k < |xs| ==> Kept(after, less, xs[k])
  {
    forall k | 0 <= k < |xs|
      ensures Kept(after, less, xs[k])
    {
      if xs[k] !in before {
        var y :| y in before && Equivalent(y, xs[k], less);
        assert y in after;
      }
    }
  }

  /** One previous-activity sensor per resident of `residents`, laid out as the unseen constructor does. */
  ghost predicate PreviousLayout(xs: seq<Sensor>, residents: seq<Resident>, activities: seq<Activity>, env: Collaborators)
    reads xs
    requires |xs| <= |residents|
  {
    forall k :: 0 <= k < |xs| ==>
      && xs[k].cls == PreviousActivity
      && xs[k].id == env.previousActivityLayout(residents[k], activities).0
      && xs[k].SensorNames() == env.previousActivityLayout(residents[k], activities).1
  }

  /** One current-activity sensor per resident of `residents`, named after it, with one bucket per activity. */
  ghost predicate CurrentLayout(xs: seq<Sensor>, residents: seq<Resident>, activities: seq<Activity>)
    reads xs
    requires |xs| <= |residents|
  {
    forall k :: 0 <= k < |xs| ==>
      && xs[k].cls == CurrentActivity && xs[k].id == residents[k].name
      && xs[k].SensorNames() == CurrentActivities.ActivityNames(activities)
  }

  /** A layout for one more sensor: the earlier ones and the new one, each for its resident. */
  lemma PreviousLayoutSnoc(xs: seq<Sensor>, x: Sensor, residents: seq<Resident>, activities: seq<Activity>, env: Collaborators)
    requires |xs| < |residents| && PreviousLayout(xs, residents, activities, env)
    requires x.cls == PreviousActivity && x.id == env.previousActivityLayout(residents[|xs|], activities).0
    requires x.SensorNames() == env.previousActivityLayout(residents[|xs|], activities).1
    ensures PreviousLayout(xs + [x], residents, activities, env)
  {
    forall k | 0 <= k < |xs| + 1
      ensures (xs + [x])[k] == if k < |xs| then xs[k] else x
    {
    }
  }

  lemma CurrentLayoutSnoc(xs: seq<Sensor>, x: Sensor, residents: seq<Resident>, activities: seq<Activity>)
    requires |xs| < |residents| && CurrentLayout(xs, residents, activities)
    requires x.cls == CurrentActivity && x.id == residents[|xs|].name
    requires x.SensorNames() == CurrentActivities.ActivityNames(activities)
    ensures CurrentLayout(xs + [x], residents, activities)
  {
    forall k | 0 <= k < |xs| + 1
      ensures (xs + [x])[k] == if k < |xs| then xs[k] else x
    {
    }
  }

  /**
   * What both constructors leave behind: a valid registry with coherent (empty) caches
   * holding exactly one `HourOfDay` sensor, and otherwise only the per-resident sensors
   * that were asked for. `previous` and `current` are the sensors passed to `Add`, one per
   * resident in resident order, built from the activity list `activities`; each is
   * registered unless the comparer found an equivalent sensor already there.
   */
  ghost predicate Preregistered(s: SensorSet, residents: Int32, activities: seq<Activity>,
                                includePrevious: bool, includeCurrent: bool,
                                previous: seq<Sensor>, current: seq<Sensor>, env: Collaborators)
    reads s, s.sensors, previous, current
  {
    var n := if residents < 0 then 0 else residents;
    var named := seq(n, k requires 0 <= k < n => Resident(Some(ResidentName(k)), k as Int32));
    && s.Valid() && s.CacheCoherent() && !s.includeCompoundSensors
    && OneHour(s) && OnlyFrom(s, includePrevious, includeCurrent, previous, current)
    && |previous| == (if includePrevious then n else 0)
    && |current| == (if includeCurrent then n else 0)
    && PreviousLayout(previous, named, activities, env) && CurrentLayout(current, named, activities)
    && (forall k :: 0 <= k < |previous| ==> Kept(s.sensors, s.less, previous[k]))
    && (forall k :: 0 <= k < |current| ==> Kept(s.sensors, s.less, current[k]))
  }

  /** Neither schema cache is built, which every `Add` ensures. */
  predicate NoCaches(s: SensorSet)
    reads s
  {
    s.sensorBuckets.None? && s.sensorBucketIndices.None?
  }

  /** The constructor body shared by both sets. */
  method NewSensorSet(types: map<string, SensorClass>, className: string, inputs: CasasInputs,
                      includePrevious: bool, includeCurrent: bool, less: Order, env: Collaborators)
    returns (r: Result<SensorSet, Exn>, ghost previous: seq<Sensor>, ghost current: seq<Sensor>)
    requires StrictOrder(less) && |inputs.activities| <= IntMax
    requires forall t :: t in types ==> Creatable(types[t])
    ensures r.Err? <==> (includePrevious || includeCurrent) && inputs.numberOfResidents < 0
    ensures r.Err? ==> r.error == Raise(ArgumentOutOfRange)
    ensures r.Ok? ==> fresh(r.value) && r.value.sensorTypes == types && r.value.name == Some(className)
    ensures r.Ok? ==> Preregistered(r.value, inputs.numberOfResidents, inputs.GetActivities(true),
      includePrevious, includeCurrent, previous, current, env)
  {
    var s, hour := NewWithHour(types, className, less);
    var err;
    err, previous, current := Preregister(s, hour, inputs, includePrevious, includeCurrent, env);
    if err.Some? {
      return Err(err.value), previous, current;
    }
    r := Ok(s);
  }

  /** The new set with its name and its `HourOfDay` sensor. */
  method NewWithHour(types: map<string, SensorClass>, className: string, less: Order) returns (s: SensorSet, hour: Sensor)
    requires StrictOrder(less) && forall t :: t in types ==> Creatable(types[t])
    ensures fresh(s) && s.Valid() && NoCaches(s) && s.sensors == [hour]
    ensures s.sensorTypes == types && s.less == less && s.name == Some(className) && !s.includeCompoundSensors
    ensures fresh(hour) && hour.cls == HourOfDay && hour.id.None? && hour.SensorNames() == HoursOfDay.HourNames()
  {
    s := new SensorSet(types, less);
    s.name := Some(className);
    hour := HoursOfDay.New(None);
    s.Add(hour);
  }

  /** The per-resident part of the constructors. */
  method Preregister(s: SensorSet, hour: Sensor, inputs: CasasInputs, includePrevious: bool, includeCurrent: bool,
                     env: Collaborators)
    returns (err: Option<Exn>, ghost previous: seq<Sensor>, ghost current: seq<Sensor>)
    requires s.Valid() && NoCaches(s) && s.sensors == [hour] && !s.includeCompoundSensors
    requires hour.cls == HourOfDay && hour.id.None? && hour.SensorNames() == HoursOfDay.HourNames()
    requires |inputs.activities| <= IntMax
    modifies s
    ensures s.name == old(s.name)
    ensures err.Some? <==> (includePrevious || includeCurrent) && inputs.numberOfResidents < 0
    ensures err.Some? ==> err.value == Raise(ArgumentOutOfRange)
    ensures err.None? ==> Preregistered(s, inputs.numberOfResidents, inputs.GetActivities(true),
      includePrevious, includeCurrent, previous, current, env)
  {
    var activities := inputs.GetActivities(true);
    ghost var n := if inputs.numberOfResidents < 0 then 0 else inputs.numberOfResidents;
    ghost var named := seq(n, k requires 0 <= k < n => Resident(Some(ResidentName(k)), k as Int32));
    assert OneHour(s) by {
      assert hour in s.sensors;
    }
    if includePrevious || includeCurrent {
      var residents := inputs.GetResidents(false);
      if residents.Err? {
        return Some(residents.error), [], [];
      }
      assert residents.value == named;
      previous, current := AddResidents(s, hour, residents.value, activities, includePrevious, includeCurrent, env);
    } else {
      previous, current := [], [];
      assert OnlyFrom(s, includePrevious, includeCurrent, previous, current) by {
        assert forall x :: x in s.sensors ==> x == hour;
      }
    }
    ShowPreregistered(s, inputs.numberOfResidents, activities, includePrevious, includeCurrent, previous, current, env, named);
    err := None;
  }

  /** `Preregistered`, assembled from its parts for the residents `named`. */
  lemma ShowPreregistered(s: SensorSet, residents: Int32, activities: seq<Activity>,
                          includePrevious: bool, includeCurrent: bool,
                          previous: seq<Sensor>, current: seq<Sensor>, env: Collaborators, named: seq<Resident>)
    requires named == seq(if residents < 0 then 0 else residents,
      k requires 0 <= k < (if residents < 0 then 0 else residents) => Resident(Some(ResidentName(k)), k as Int32))
    requires s.Valid() && NoCaches(s) && !s.includeCompoundSensors
    requires OneHour(s) && OnlyFrom(s, includePrevious, includeCurrent, previous, current)
    requires |previous| == (if includePrevious then |named| else 0)
    requires |current| == (if includeCurrent then |named| else 0)
    requires PreviousLayout(previous, named, activities, env) && CurrentLayout(current, named, activities)
    requires forall k :: 0 <= k < |previous| ==> Kept(s.sensors, s.less, previous[k])
    requires forall k :: 0 <= k < |current| ==> Kept(s.sensors, s.less, current[k])
    ensures Preregistered(s, residents, activities, includePrevious, includeCurrent, previous, current, env)
  {
  }

  /** The per-resident sensors asked for, added after the hour sensor, in resident order. */
  method AddResidents(s: SensorSet, hour: Sensor, residents: seq<Resident>, activities: seq<Activity>,
                      includePrevious: bool, includeCurrent: bool, env: Collaborators)
    returns (ghost previous: seq<Sensor>, ghost current: seq<Sensor>)
    requires s.Valid() && NoCaches(s) && OneHour(s) && s.sensors == [hour] && hour.cls == HourOfDay
    modifies s
    ensures s.Valid() && NoCaches(s) && OneHour(s)
    ensures s.includeCompoundSensors == old(s.includeCompoundSensors) && s.name == old(s.name)
    ensures OnlyFrom(s, includePrevious, includeCurrent, previous, current)
    ensures |previous| == (if includePrevious then |residents| else 0)
    ensures |current| == (if includeCurrent then |residents| else 0)
    ensures PreviousLayout(previous, residents, activities, env) && CurrentLayout(current, residents, activities)
    ensures forall k :: 0 <= k < |previous| ==> Kept(s.sensors, s.less, previous[k])
    ensures forall k :: 0 <= k < |current| ==> Kept(s.sensors, s.less, current[k])
  {
    previous := AddPrevious(s, hour, residents, activities, includePrevious, env);
    current := AddCurrent(s, hour, residents, activities, includePrevious, includeCurrent, previous, env);
  }

  /** The previous-activity sensors, when asked for. */
  method AddPrevious(s: SensorSet, hour: Sensor, residents: seq<Resident>, activities: seq<Activity>,
                     includePrevious: bool, env: Collaborators)
    returns (ghost previous: seq<Sensor>)
    requires s.Valid() && NoCaches(s) && OneHour(s) && s.sensors == [hour]
    modifies s
    ensures s.Valid() && NoCaches(s) && OneHour(s)
    ensures s.includeCompoundSensors == old(s.includeCompoundSensors) && s.name == old(s.name)
    ensures forall x :: x in s.sensors ==> x == hour || (x in previous && includePrevious)
    ensures |previous| == (if includePrevious then |residents| else 0)
    ensures PreviousLayout(previous, residents, activities, env)
    ensures forall k :: 0 <= k < |previous| ==> Kept(s.sensors, s.less, previous[k])
  {
    previous := [];
    if includePrevious {
      previous := AddPerResident(s, residents, activities, PreviousActivity, env);
    }
  }

  /** The current-activity sensors, when asked for, keeping what the previous step registered. */
  method AddCurrent(s: SensorSet, hour: Sensor, residents: seq<Resident>, activities: seq<Activity>,
                    includePrevious: bool, includeCurrent: bool, ghost previous: seq<Sensor>, env: Collaborators)
    returns (ghost current: seq<Sensor>)
    requires s.Valid() && NoCaches(s) && OneHour(s) && hour.cls == HourOfDay
    requires forall x :: x in s.sensors ==> x == hour || (x in previous && includePrevious)
    requires forall k :: 0 <= k < |previous| ==> Kept(s.sensors, s.less, previous[k])
    modifies s
    ensures s.Valid() && NoCaches(s) && OneHour(s)
    ensures s.includeCompoundSensors == old(s.includeCompoundSensors) && s.name == old(s.name)
    ensures OnlyFrom(s, includePrevious, includeCurrent, previous, current)
    ensures |current| == (if includeCurrent then |residents| else 0)
    ensures CurrentLayout(current, residents, activities)
    ensures forall k :: 0 <= k < |previous| ==> Kept(s.sensors, s.less, previous[k])
    ensures forall k :: 0 <= k < |current| ==> Kept(s.sensors, s.less, current[k])
  {
    current := [];
    ghost var before := s.sensors;
    if includeCurrent {
      current := AddPerResident(s, residents, activities, CurrentActivity, env);
      KeptGrows(before, s.sensors, s.less, previous);
    }
  }

  /**
   * `inputs.Residents.ForEach(resident => this.Add(new C(resident, activities)))` for the
   * previous- or current-activity class. `added` are the sensors passed to `Add`.
   */
  method AddPerResident(s: SensorSet, residents: seq<Resident>, activities: seq<Activity>, c: SensorClass, env: Collaborators)
    returns (ghost added: seq<Sensor>)
    requires s.Valid() && NoCaches(s) && OneHour(s) && (c == PreviousActivity || c == CurrentActivity)
    modifies s
    ensures s.Valid() && NoCaches(s) && OneHour(s)
    ensures s.includeCompoundSensors == old(s.includeCompoundSensors) && s.name == old(s.name)
    ensures forall x :: x in old(s.sensors) ==> x in s.sensors
    ensures forall x :: x in s.sensors ==> x in old(s.sensors) || x in added
    ensures |added| == |residents|
    ensures forall k :: 0 <= k < |added| ==> fresh(added[k]) && Kept(s.sensors, s.less, added[k])
    ensures c == PreviousActivity ==> PreviousLayout(added, residents, activities, env)
    ensures c == CurrentActivity ==> CurrentLayout(added, residents, activities)
  {
    added := [];
    for i := 0 to |residents|
      invariant s.Valid() && NoCaches(s) && OneHour(s)
      invariant s.includeCompoundSensors == old(s.includeCompoundSensors) && s.name == old(s.name)
      invariant forall x :: x in old(s.sensors) ==> x in s.sensors
      invariant forall x :: x in s.sensors ==> x in old(s.sensors) || x in added
      invariant |added| == i
      invariant forall k :: 0 <= k < i ==> fresh(added[k]) && Kept(s.sensors, s.less, added[k])
      invariant c == PreviousActivity ==> PreviousLayout(added, residents, activities, env)
      invariant c == CurrentActivity ==> CurrentLayout(added, residents, activities)
    {
      var x := AddForResident(s, residents, activities, c, env, i, added);
      added := added + [x];
    }
  }

  /** One turn of the loop: builds the sensor for resident i and adds it. */
  method AddForResident(s: SensorSet, residents: seq<Resident>, activities: seq<Activity>, c: SensorClass,
                        env: Collaborators, i: nat, ghost added: seq<Sensor>)
    returns (x: Sensor)
    requires s.Valid() && NoCaches(s) && OneHour(s) && (c == PreviousActivity || c == CurrentActivity)
    requires i == |added| < |residents|
    requires forall k :: 0 <= k < |added| ==> Kept(s.sensors, s.less, added[k])
    requires c == PreviousActivity ==> PreviousLayout(added, residents, activities, env)
    requires c == CurrentActivity ==> CurrentLayout(added, residents, activities)
    modifies s
    ensures s.Valid() && NoCaches(s) && OneHour(s)
    ensures s.includeCompoundSensors == old(s.includeCompoundSensors) && s.name == old(s.name)
    ensures forall y :: y in old(s.sensors) ==> y in s.sensors
    ensures forall y :: y in s.sensors ==> y in old(s.sensors) || y == x
    ensures fresh(x) && Kept(s.sensors, s.less, x)
    ensures forall k :: 0 <= k < |added| ==> Kept(s.sensors, s.less, added[k])
    ensures c == PreviousActivity ==> PreviousLayout(added + [x], residents, activities, env)
    ensures c == CurrentActivity ==> CurrentLayout(added + [x], residents, activities)
  {
    x := NewForResident(residents, activities, c, env, i, added);
    ghost var before := s.sensors;
    AddKeeping(s, x);
    KeptGrows(before, s.sensors, s.less, added);
  }

  /** `new C(resident, activities)` for resident i, extending the layout of the earlier ones. */
  method NewForResident(residents: seq<Resident>, activities: seq<Activity>, c: SensorClass,
                        env: Collaborators, i: nat, ghost added: seq<Sensor>)
    returns (x: Sensor)
    requires c == PreviousActivity || c == CurrentActivity
    requires i == |added| < |residents|
    requires c == PreviousActivity ==> PreviousLayout(added, residents, activities, env)
    requires c == CurrentActivity ==> CurrentLayout(added, residents, activities)
    ensures fresh(x) && x.Shaped() && OwnsBuckets(x) && x.cls == c
    ensures c == PreviousActivity ==> PreviousLayout(added + [x], residents, activities, env)
    ensures c == CurrentActivity ==> CurrentLayout(added + [x], residents, activities)
  {
    if c == PreviousActivity {
      x := NewPreviousActivity(residents[i], activities, env);
      PreviousLayoutSnoc(added, x, residents, activities, env);
    } else {
      x := CurrentActivities.New(residents[i], activities);
      CurrentLayoutSnoc(added, x, residents, activities);
    }
  }

  /** `Add` seen from outside: nothing registered is lost, and x is in or has an equivalent. */
  method AddKeeping(s: SensorSet, x: Sensor)
    requires s.Valid() && x.Shaped() && OwnsBuckets(x) && OneHour(s) && x.cls != HourOfDay
    modifies s
    ensures s.Valid() && NoCaches(s) && OneHour(s)
    ensures s.includeCompoundSensors == old(s.includeCompoundSensors) && s.name == old(s.name)
    ensures forall y :: y in old(s.sensors) ==> y in s.sensors
    ensures forall y :: y in s.sensors ==> y in old(s.sensors) || y == x
    ensures Kept(s.sensors, s.less, x)
  {
    ghost var before := s.sensors;
    s.Add(x);
    if HasEquivalent(before, x, s.less) {
      var i :| 0 <= i < |before| && Equivalent(before[i], x, s.less);
      assert before[i] in s.sensors;
    }
    assert OneHour(s) by {
      var h :| h in before && h.cls == HourOfDay && h.id.None? && h.SensorNames() == HoursOfDay.HourNames();
      assert h in s.sensors;
    }
  }
}
