/**
 * The virtual members of `Sensor` dispatched on the runtime class: `Compute`, `Configure`
 * and construction by type (`Activator.CreateInstance`), plus the constructors of the
 * classes whose source is not part of this model.
 */
module SensorKinds {
  import opened Wrappers
  import opened Runtime
  import opened Residents
  import opened Activities
  import opened Sensors
  import BinarySensors
  import BinaryAnds
  import NumericSensors
  import OneOfNSensors
  import HoursOfDay
  import DaysOfWeek
  import CurrentActivities
  import Biases

  /** A chosen bucket paired with the value of the reading, or the exception. */
  function WithValue(choice: Result<SensorBucket, Exn>, value: real): (r: Result<(SensorBucket, real), Exn>)
    ensures r.Ok? <==> choice.Ok?
    ensures r.Ok? ==> r.value == (choice.value, value)
    ensures r.Err? ==> r.error == choice.error
  {
    match choice
    case Ok(b) => Ok((b, value))
    case Err(e) => Err(e)
  }

  /**
   * What `s.Compute(reading, ...)` reports: the bucket and the value of the new reading,
   * or the exception it throws. Binary, numeric and one-of-N sensors always report 1.0.
   */
  function Expected(s: Sensor, reading: string, env: Collaborators): Result<(SensorBucket, real), Exn>
    reads s
    requires s.Shaped()
  {
    if IsBinaryClass(s.cls) then WithValue(BinarySensors.Choose(s, reading, env), 1.0)
    else if IsNumericClass(s.cls) then
      match ParseDouble(env.platform, reading)
      case Err(e) => Err(e)
      case Ok(v) => if s.allReadings == null then Err(Raise(NullReference)) else WithValue(NumericSensors.Choose(s, v), 1.0)
    else if s.cls == HourOfDay then WithValue(HoursOfDay.ComputeSensor(s, reading, env.platform), 1.0)
    else if s.cls == DayOfWeek then WithValue(DaysOfWeek.ComputeSensor(s, reading, env.platform), 1.0)
    else if s.cls == CurrentActivity then WithValue(CurrentActivities.ComputeSensor(s, reading), 1.0)
    else if s.cls == PreviousActivity then
      match env.previousChoice(s, reading)
      case Err(e) => Err(e)
      case Ok(k) => WithValue(BucketAt(s.buckets, k), 1.0)
    else if s.cls == Bias then WithValue(Biases.Choose(s), s.value)
    else
      match env.compoundChoice(s, reading)
      case Err(e) => Err(e)
      case Ok(choice) => WithValue(BucketAt(s.buckets, choice.0), choice.1)
  }

  /** A reading always lands in one of the sensor's own buckets. */
  lemma ExpectedBucketIsOwn(s: Sensor, reading: string, env: Collaborators)
    requires s.Shaped()
    ensures Expected(s, reading, env).Ok? ==> Expected(s, reading, env).value.0 in s.buckets
  {
  }

  /**
   * Every sensor except `Bias` and the compound one reports the value 1.0; a binary
   * sensor in particular never produces the zero value the parser's removal branch
   * waits for.
   */
  lemma ExpectedValueIsOne(s: Sensor, reading: string, env: Collaborators)
    requires s.Shaped() && s.cls != Bias && s.cls != CompoundHourOfDay
    ensures Expected(s, reading, env).Ok? ==> Expected(s, reading, env).value.1 == 1.0
  {
  }

  /** `Bias` reports its configured value whatever the reading, and fails only without buckets. */
  lemma ExpectedOfBias(s: Sensor, reading: string, reading': string, env: Collaborators)
    requires s.Shaped() && s.cls == Bias
    ensures Expected(s, reading, env) == Expected(s, reading', env)
    ensures Expected(s, reading, env).Ok? <==> |s.buckets| > 0
    ensures Expected(s, reading, env).Ok? ==> Expected(s, reading, env).value == (s.buckets[0], s.value)
  {
  }

  /**
   * `Compute`: a fresh reading of the bucket and value `Expected` describes, stamped with
   * the given time, or the exception. Only a numeric sensor changes anything: it appends
   * the parsed value to its `AllReadings` list.
   */
  method Compute(s: Sensor, reading: string, dateTime: DateTime, env: Collaborators) returns (r: Result<SensorReading, Exn>)
    requires s.Shaped()
    modifies s.allReadings
    ensures r.Ok? <==> Expected(s, reading, env).Ok?
    ensures r.Err? ==> r.error == Expected(s, reading, env).error
    ensures r.Ok? ==> fresh(r.value) && r.value.dateTime == dateTime
    ensures r.Ok? ==> (r.value.bucket, r.value.value) == Expected(s, reading, env).value
    ensures s.allReadings != null ==>
      s.allReadings.items == old(s.allReadings.items) + Appended(s, reading, env.platform)
  {
    if IsNumericClass(s.cls) {
      r := NumericSensors.Compute(s, reading, dateTime, env.platform);
      return;
    }
    var choice := Expected(s, reading, env);
    if choice.Err? {
      return Err(choice.error);
    }
    var sr := new SensorReading(choice.value.0, choice.value.1, dateTime);
    r := Ok(sr);
  }

  /** What `Compute` appends to `AllReadings`: the parsed value, for numeric sensors only. */
  function Appended(s: Sensor, reading: string, p: Platform): (r: seq<real>)
    reads s
    ensures |r| <= 1
    ensures r != [] <==> IsNumericClass(s.cls) && s.allReadings != null && ParseDouble(p, reading).Ok?
    ensures r != [] ==> r == [ParseDouble(p, reading).value]
  {
    if IsNumericClass(s.cls) && s.allReadings != null && ParseDouble(p, reading).Ok? then [ParseDouble(p, reading).value] else []
  }

  /** The classes a sensor table may name: those with a constructor the model knows. */
  predicate Creatable(c: SensorClass)
  {
    !c.PreviousActivity? && !c.CompoundHourOfDay?
  }

  /** Whether `Activator.CreateInstance(type)` followed by `Configure` throws. */
  function CreateFails(c: SensorClass, env: Collaborators): (r: Option<ExnKind>)
    ensures r.Some? <==> c == TemperatureSensor || c == BinaryAnd || (c == ElectricitySensor && env.electricityBins.None?)
  {
    if c == TemperatureSensor || (c == ElectricitySensor && env.electricityBins.None?) then Some(MissingMethod)
    else if c == BinaryAnd then Some(NullReference)
    else None
  }

  /**
   * A sensor just built for class c with the given id and short name: its buckets are
   * its own and numbered by position.
   */
  ghost predicate Built(s: Sensor, c: SensorClass, id: Option<string>, shortName: Option<string>)
    reads s, s.buckets
  {
    && s.Shaped() && OwnsBuckets(s)
    && s.cls == c && s.id == id && s.shortName == shortName
    && (forall i :: 0 <= i < |s.buckets| ==> s.buckets[i].index == i)
  }

  /**
   * `Activator.CreateInstance(type)` then, when creating from a sensor code, `ShortName`
   * and `Id`, then `Configure()`. `TemperatureSensor` has no parameterless constructor,
   * a parameterless `BinaryAnd` dereferences its missing constituents in `Configure`,
   * and `ElectricitySensor` is built from the bins its collaborator supplies.
   */
  method Create(c: SensorClass, id: Option<string>, shortName: Option<string>, env: Collaborators) returns (r: Result<Sensor, Exn>)
    requires Creatable(c)
    ensures r.Err? <==> CreateFails(c, env).Some?
    ensures r.Err? ==> r.error.kind == CreateFails(c, env).value
    ensures r.Ok? ==> fresh(r.value) && Built(r.value, c, id, shortName)
    ensures r.Ok? ==> (r.value.allReadings != null ==> fresh(r.value.allReadings))
    ensures r.Ok? ==> forall i :: 0 <= i < |r.value.buckets| ==> fresh(r.value.buckets[i])
    ensures r.Ok? && IsBinaryClass(c) ==> |r.value.buckets| == 2
    ensures r.Ok? && c == HourOfDay ==> r.value.SensorNames() == HoursOfDay.HourNames()
    ensures r.Ok? && c == DayOfWeek ==> r.value.SensorNames() == DaysOfWeek.DayNames()
    ensures r.Ok? && c == Bias ==> |r.value.buckets| == 1 && r.value.value == Biases.DefaultValue
  {
    if c == TemperatureSensor {
      return Err(Raise(MissingMethod));
    } else if c == ElectricitySensor {
      if env.electricityBins.None? {
        return Err(Raise(MissingMethod));
      }
      var s := CreateElectricity(env.electricityBins.value, id, shortName);
      r := Ok(s);
    } else if c == BinaryAnd {
      var s := new Sensor(c, id, null, null);
      var thrown := BinaryAnds.Configure(s);
      return Err(thrown.value);
    } else if IsBinaryClass(c) {
      var s := CreateBinary(c, id, shortName);
      r := Ok(s);
    } else if c == Bias {
      var s := CreateBias(id, shortName);
      r := Ok(s);
    } else {
      var s := CreateOneOfN(c, id, shortName);
      r := Ok(s);
    }
  }

  /** A binary sensor: the parameterless constructor, then `BinarySensor.Configure`. */
  method CreateBinary(c: SensorClass, id: Option<string>, shortName: Option<string>) returns (s: Sensor)
    requires IsBinaryClass(c) && c != BinaryAnd
    ensures fresh(s) && Built(s, c, id, shortName) && s.allReadings == null
    ensures |s.buckets| == 2 && fresh(s.buckets[0]) && fresh(s.buckets[1])
  {
    s := new Sensor(c, id, null, null);
    s.shortName := shortName;
    BinarySensors.Configure(s);
  }

  /** `ElectricitySensor`: a numeric sensor over the supplied bins and an empty reading list. */
  method CreateElectricity(bins: seq<Edge>, id: Option<string>, shortName: Option<string>) returns (s: Sensor)
    ensures fresh(s) && Built(s, ElectricitySensor, id, shortName)
    ensures s.allReadings != null && fresh(s.allReadings)
    ensures forall i :: 0 <= i < |s.buckets| ==> fresh(s.buckets[i])
    ensures s.SensorNames() == NumericSensors.BucketNames(bins)
  {
    s := new Sensor(ElectricitySensor, id, null, null);
    var list := new RealList();
    s.bins := Some(bins);
    s.allReadings := list;
    s.shortName := shortName;
    var thrown := NumericSensors.Configure(s);
  }

  /** `Bias`: the default value and its single bucket. */
  method CreateBias(id: Option<string>, shortName: Option<string>) returns (s: Sensor)
    ensures fresh(s) && Built(s, Bias, id, shortName) && s.allReadings == null
    ensures |s.buckets| == 1 && fresh(s.buckets[0]) && s.value == Biases.DefaultValue
  {
    s := Biases.NewDefault(id);
    s.shortName := shortName;
    Biases.Configure(s);
  }

  /**
   * `HourOfDay`, `DayOfWeek` and a parameterless `CurrentActivity`: their buckets come
   * from the constructor, and `OneOfNSensor.Configure` keeps them.
   */
  method CreateOneOfN(c: SensorClass, id: Option<string>, shortName: Option<string>) returns (s: Sensor)
    requires c == HourOfDay || c == DayOfWeek || c == CurrentActivity
    ensures fresh(s) && Built(s, c, id, shortName) && s.allReadings == null
    ensures forall i :: 0 <= i < |s.buckets| ==> fresh(s.buckets[i])
    ensures c == HourOfDay ==> s.SensorNames() == HoursOfDay.HourNames()
    ensures c == DayOfWeek ==> s.SensorNames() == DaysOfWeek.DayNames()
    ensures c == CurrentActivity ==> s.buckets == []
  {
    if c == HourOfDay {
      s := HoursOfDay.New(id);
    } else if c == DayOfWeek {
      s := DaysOfWeek.New(id);
    } else {
      s := CurrentActivities.NewEmpty(id);
    }
    s.shortName := shortName;
    OneOfNSensors.Configure(s);
  }

  /**
   * `new CompoundHourOfDay(hourOfDay, sensor)`: a sensor over the two constituents whose
   * id and bucket names come from its collaborator.
   */
  method NewCompound(hour: Sensor, sensor: Sensor, env: Collaborators) returns (c: Sensor)
    requires hour.Shaped() && sensor.Shaped() && hour.cls == HourOfDay && IsBinaryClass(sensor.cls)
    ensures fresh(c) && c.Shaped() && OwnsBuckets(c) && c.cls == CompoundHourOfDay
    ensures c.sensor1 == hour && c.sensor2 == sensor && c.allReadings == null
    ensures c.id == env.compoundLayout(hour, sensor).0
    ensures c.SensorNames() == env.compoundLayout(hour, sensor).1
  {
    var layout := env.compoundLayout(hour, sensor);
    c := new Sensor(CompoundHourOfDay, layout.0, hour, sensor);
    var bs := NewBuckets(c, layout.1);
    c.buckets := bs;
  }

  /**
   * `new PreviousActivity(resident, activities)`: a one-of-N sensor whose id and bucket
   * names come from its collaborator.
   */
  method NewPreviousActivity(resident: Resident, activities: seq<Activity>, env: Collaborators) returns (s: Sensor)
    ensures fresh(s) && s.Shaped() && OwnsBuckets(s) && s.cls == PreviousActivity && s.allReadings == null
    ensures s.id == env.previousActivityLayout(resident, activities).0
    ensures s.SensorNames() == env.previousActivityLayout(resident, activities).1
  {
    var layout := env.previousActivityLayout(resident, activities);
    s := new Sensor(PreviousActivity, layout.0, null, null);
    var bs := NewBuckets(s, layout.1);
    s.buckets := bs;
  }
}
