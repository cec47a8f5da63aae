/**
 * `SensorSet`: the registry of sensors, its derived bucket schema, and the parser that
 * turns one (time stamp, sensor code, raw value) line into edits of a reading collection.
 */
module SensorSets {
  import opened Wrappers
  import opened Runtime
  import opened Text
  import opened Sensors
  import opened Registries
  import opened SensorReadings
  import opened DataErrors
  import SensorKinds

  /** What the main parser does: it completes, possibly reporting an error, or it throws. */
  datatype Outcome = Completed(error: Option<DataError>) | Threw(exn: Exn)

  /** The raw value as the parser keeps it: cut at the first space when it contains one. */
  function CutReading(raw: string): (r: string)
    ensures r == FirstToken(raw)
    ensures ' ' !in r && r <= raw
  {
    if ' ' in raw then FirstToken(raw)
    else
      FirstTokenOfSpaceless(raw);
      raw
  }

  /** `sensorString.Substring(0, 1).ToUpper()`: the one-letter tag of a sensor code. */
  function Tag(code: string): (t: string)
    requires |code| > 0
  {
    [Upper(code[0])]
  }

  /** `Math.Abs(v) < double.Epsilon`: for a double this holds exactly when v is zero. */
  predicate IsZero(v: real)
  {
    v == 0.0
  }

  /** The generic overload's type argument: a class with a parameterless constructor the model knows. */
  predicate Generic(c: SensorClass)
  {
    SensorKinds.Creatable(c) && c != TemperatureSensor
  }

  /** `ia.Bucket.Sensor is CompoundHourOfDay && ia.Bucket.Sensor.Sensor2 == sensor2`. */
  predicate ReadsCompoundOf(x: SensorReading, sensor2: Sensor?)
  {
    x.bucket.owner.cls == CompoundHourOfDay && x.bucket.owner.sensor2 == sensor2
  }

  /** The registry is sorted by a strict order, and its sensors are typed and own their buckets. */
  ghost predicate Registered(sensors: seq<Sensor>, less: Order)
    reads sensors
  {
    && StrictOrder(less)
    && Sorted(sensors, less)
    && (forall x :: x in sensors ==> x.Shaped() && OwnsBuckets(x))
  }

  /** The tag table only names classes the model can construct. */
  ghost predicate TagsCreatable(sensorTypes: map<string, SensorClass>)
  {
    forall t :: t in sensorTypes ==> SensorKinds.Creatable(sensorTypes[t])
  }

  class SensorSet {
    var sensors: seq<Sensor>
    var sensorBuckets: Option<seq<SensorBucket>>
    var sensorBucketIndices: Option<map<BucketKey, int>>
    var includeCompoundSensors: bool
    var name: Option<string>
    const sensorTypes: map<string, SensorClass>
    const less: Order

    /**
     * The registry is sorted by a strict order, its sensors are typed and own their
     * buckets, the cached bucket list holds typed owners, and the tag table only names
     * classes the model can construct.
     */
    ghost predicate Valid()
      reads this, sensors
    {
      && Registered(sensors, less)
      && (sensorBuckets.Some? ==> OwnersShaped(sensorBuckets.value))
      && TagsCreatable(sensorTypes)
    }

    /** Both caches, when present, agree with the schema of the current registry. */
    ghost predicate CacheCoherent()
      reads this, sensors
    {
      && (sensorBuckets.Some? ==> sensorBuckets.value == Flatten(sensors))
      && (sensorBucketIndices.Some? ==>
            OwnersShaped(Flatten(sensors)) && IndexMap(Flatten(sensors)) == Ok(sensorBucketIndices.value))
    }

    /** `SensorSet(sensorTypes)`: an empty registry ordered by the comparer, with empty caches. */
    constructor (sensorTypes: map<string, SensorClass>, less: Order)
      requires StrictOrder(less)
      requires forall t :: t in sensorTypes ==> SensorKinds.Creatable(sensorTypes[t])
      ensures Valid() && CacheCoherent()
      ensures sensors == [] && sensorBuckets.None? && sensorBucketIndices.None?
      ensures this.sensorTypes == sensorTypes && this.less == less
      ensures !includeCompoundSensors && name.None?
    {
      sensors := [];
      sensorBuckets := None;
      sensorBucketIndices := None;
      includeCompoundSensors := false;
      name := None;
      this.sensorTypes := sensorTypes;
      this.less := less;
    }

    /** `SensorVectorLength`: the number of buckets over all sensors. */
    function SensorVectorLength(): (n: int)
      reads this, sensors
      ensures n == |Flatten(sensors)|
    {
      FlattenLength(sensors);
      VectorLength(sensors)
    }

    /** `SensorBuckets`: built from the registry on first use and cached. */
    method SensorBuckets() returns (bs: seq<SensorBucket>)
      modifies this
      ensures sensors == old(sensors) && sensorBucketIndices == old(sensorBucketIndices)
      ensures includeCompoundSensors == old(includeCompoundSensors) && name == old(name)
      ensures old(sensorBuckets).Some? ==> bs == old(sensorBuckets).value && sensorBuckets == old(sensorBuckets)
      ensures old(sensorBuckets).None? ==> bs == Flatten(sensors) && sensorBuckets == Some(bs)
      ensures old(Valid()) ==> Valid()
      ensures old(CacheCoherent()) ==> CacheCoherent() && bs == Flatten(sensors)
    {
      if sensorBuckets.None? {
        if Valid() {
          FlattenOwnersShaped(sensors);
        }
        sensorBuckets := Some(Flatten(sensors));
      }
      bs := sensorBuckets.value;
    }

    /**
     * `SensorBucketIndices`: the schema position of every bucket, cached on first use;
     * `ToDictionary` throws when two buckets are `Equals`, and then nothing is cached.
     */
    method SensorBucketIndices() returns (r: Result<map<BucketKey, int>, Exn>)
      requires Valid()
      modifies this
      ensures Valid() && sensors == old(sensors)
      ensures includeCompoundSensors == old(includeCompoundSensors) && name == old(name)
      ensures old(sensorBucketIndices).Some? ==> r == Ok(old(sensorBucketIndices).value) && sensorBuckets == old(sensorBuckets)
      ensures old(sensorBucketIndices).Some? ==> sensorBucketIndices == old(sensorBucketIndices)
      ensures old(sensorBucketIndices).None? ==> sensorBuckets.Some? && r == IndexMap(sensorBuckets.value)
      ensures old(sensorBucketIndices).None? && r.Ok? ==> sensorBucketIndices == Some(r.value)
      ensures old(sensorBucketIndices).None? && r.Err? ==> sensorBucketIndices.None?
      ensures old(CacheCoherent()) ==> CacheCoherent()
      ensures old(CacheCoherent()) ==> OwnersShaped(Flatten(sensors)) && r == IndexMap(Flatten(sensors))
    {
      if sensorBucketIndices.Some? {
        return Ok(sensorBucketIndices.value);
      }
      var bs := SensorBuckets();
      r := IndexMap(bs);
      if r.Ok? {
        sensorBucketIndices := Some(r.value);
      }
    }

    /** `Add(sensor)`: insert into the sorted registry and drop both caches. */
    method Add(s: Sensor)
      requires Valid() && s.Shaped() && OwnsBuckets(s)
      modifies this
      ensures sensors == Insert(old(sensors), s, less)
      ensures sensorBuckets.None? && sensorBucketIndices.None?
      ensures includeCompoundSensors == old(includeCompoundSensors) && name == old(name)
      ensures Valid() && CacheCoherent()
      ensures HasEquivalent(old(sensors), s, less) ==> sensors == old(sensors)
      ensures !HasEquivalent(old(sensors), s, less) ==> |sensors| == |old(sensors)| + 1
      ensures forall x :: x in sensors <==> x in old(sensors) || (x == s && !HasEquivalent(old(sensors), s, less))
      ensures forall x :: x in old(sensors) ==> x in sensors
      ensures |sensors| <= |old(sensors)| + 1
      ensures s.allReadings == null ==> Lists(sensors) <= old(Lists(sensors))
      ensures s.allReadings != null ==> Lists(sensors) <= old(Lists(sensors)) + {s.allReadings}
    {
      InsertKeepsOrder(sensors, s, less);
      ListsOfInsert(sensors, s, less);
      sensors := Insert(sensors, s, less);
      sensorBuckets := None;
      sensorBucketIndices := None;
    }

    /** `First<T>()`: the first registered sensor of class c; `First` throws when there is none. */
    function First(c: SensorClass): (r: Result<Sensor, Exn>)
      reads this
      ensures r.Ok? ==> r.value in sensors && r.value.cls == c
      ensures r.Ok? <==> exists x :: x in sensors && x.cls == c
      ensures r.Err? ==> r.error == Raise(InvalidOperation)
    {
      match FindFirst(sensors, IsClass(c))
      case Some(k) => Ok(sensors[k])
      case None => Err(Raise(InvalidOperation))
    }

    /**
     * `ParseSensorString<TSensor>(text, dateTime, readings, id)`. It finds the first sensor
     * of class c (with the given id, when one is given), creating and registering one
     * when there is none. It computes the reading, evicts every reading of class c for a
     * one-of-N sensor, and inserts the new reading. It registers through the sorted set
     * directly, so the schema caches are NOT cleared. With a non-empty id it uses a
     * one-argument constructor, which none of the modelled classes has.
     */
    method ParseSensorStringOf(c: SensorClass, text: string, dateTime: DateTime, readings: SensorReadingCollection,
                               id: Option<string>, env: Collaborators)
      returns (thrown: Option<Exn>, ghost sensor: Sensor?, ghost reading: SensorReading?)
      requires Valid() && Generic(c)
      modifies this, readings, Lists(sensors)
      ensures Valid()
      ensures sensorBuckets == old(sensorBuckets) && sensorBucketIndices == old(sensorBucketIndices)
      ensures includeCompoundSensors == old(includeCompoundSensors) && name == old(name)
      ensures forall x :: x in old(sensors) ==> x in sensors
      ensures |sensors| <= |old(sensors)| + 1 && fresh(Lists(sensors) - old(Lists(sensors)))
      ensures FindFirst(old(sensors), Wanted(c, id)).Some? ==>
        && sensors == old(sensors) && sensor == old(sensors)[FindFirst(old(sensors), Wanted(c, id)).value]
        && sensor.Shaped()
        && (thrown.Some? <==> SensorKinds.Expected(sensor, text, env).Err?)
        && (thrown.Some? ==> thrown.value == SensorKinds.Expected(sensor, text, env).error)
      ensures FindFirst(old(sensors), Wanted(c, id)).None? && !IsNullOrEmpty(id) ==>
        thrown == Some(Raise(MissingMethod)) && sensors == old(sensors)
      ensures thrown.Some? ==> readings.readings == old(readings.readings) && reading == null
      ensures thrown.None? ==>
        && sensor != null && sensor.Shaped() && sensor.cls == c && OwnsBuckets(sensor)
        && SensorKinds.Expected(sensor, text, env).Ok?
        && reading != null && fresh(reading) && reading.dateTime == dateTime
        && (reading.bucket, reading.value) == SensorKinds.Expected(sensor, text, env).value
        && reading.bucket.owner == sensor
        && readings.readings == Evicted(old(readings.readings), c) + {reading}
      ensures thrown.None? && IsOneOfNClass(c) ==> OfClass(readings.readings, c) == {reading}
    {
      var s;
      thrown, s := FindOrCreateOf(c, id, env);
      if thrown.Some? {
        return thrown, null, null;
      }
      sensor := s;
      ghost var registry := sensors;
      ghost var lists := Lists(sensors);
      thrown, reading := ComputeAndStore(s, c, text, dateTime, readings, env);
      assert sensors == registry && Lists(sensors) == lists;
    }

    /** The computing half of the generic overload: compute, and store the reading when it succeeds. */
    static method ComputeAndStore(s: Sensor, c: SensorClass, text: string, dateTime: DateTime,
                                  readings: SensorReadingCollection, env: Collaborators)
      returns (thrown: Option<Exn>, ghost reading: SensorReading?)
      requires s.Shaped() && s.cls == c && OwnsBuckets(s)
      modifies readings, s.allReadings
      ensures thrown.Some? <==> SensorKinds.Expected(s, text, env).Err?
      ensures thrown.Some? ==> thrown.value == SensorKinds.Expected(s, text, env).error
      ensures thrown.Some? ==> readings.readings == old(readings.readings) && reading == null
      ensures thrown.None? ==>
        && reading != null && fresh(reading) && reading.dateTime == dateTime
        && (reading.bucket, reading.value) == SensorKinds.Expected(s, text, env).value
        && reading.bucket.owner == s
        && readings.readings == Evicted(old(readings.readings), c) + {reading}
      ensures thrown.None? && IsOneOfNClass(c) ==> OfClass(readings.readings, c) == {reading}
    {
      var computed := SensorKinds.Compute(s, text, dateTime, env);
      if computed.Err? {
        return Some(computed.error), null;
      }
      reading := computed.value;
      SensorKinds.ExpectedBucketIsOwn(s, text, env);
      StoreReading(readings, c, computed.value);
      if IsOneOfNClass(c) {
        EvictedThenAdded(old(readings.readings), c, computed.value);
      }
      thrown := None;
    }

    /** The find-or-create half of the generic overload; the caches and the readings are left alone. */
    method FindOrCreateOf(c: SensorClass, id: Option<string>, env: Collaborators) returns (thrown: Option<Exn>, s: Sensor?)
      requires Valid() && Generic(c)
      modifies this
      ensures Valid()
      ensures sensorBuckets == old(sensorBuckets) && sensorBucketIndices == old(sensorBucketIndices)
      ensures includeCompoundSensors == old(includeCompoundSensors) && name == old(name)
      ensures forall x :: x in old(sensors) ==> x in sensors
      ensures |sensors| <= |old(sensors)| + 1 && fresh(Lists(sensors) - old(Lists(sensors)))
      ensures FindFirst(old(sensors), Wanted(c, id)).Some? ==>
        thrown.None? && sensors == old(sensors) && s == old(sensors)[FindFirst(old(sensors), Wanted(c, id)).value]
      ensures FindFirst(old(sensors), Wanted(c, id)).None? && !IsNullOrEmpty(id) ==>
        thrown == Some(Raise(MissingMethod)) && sensors == old(sensors)
      ensures thrown.Some? ==> s == null && sensors == old(sensors)
      ensures thrown.None? ==> s != null && s.Shaped() && s.cls == c && OwnsBuckets(s)
      ensures thrown.None? ==> s in old(sensors) || (fresh(s) && (s.allReadings == null || fresh(s.allReadings)))
    {
      var k := FindFirst(sensors, Wanted(c, id));
      if k.Some? {
        return None, sensors[k.value];
      }
      if !IsNullOrEmpty(id) {
        return Some(Raise(MissingMethod)), null;
      }
      var created := SensorKinds.Create(c, None, None, env);
      if created.Err? {
        return Some(created.error), null;
      }
      s := created.value;
      Register(s);
      thrown := None;
    }

    /** `sensors.Add(sensor)` on the sorted set itself: the caches are left as they are. */
    method Register(s: Sensor)
      requires Valid() && s.Shaped() && OwnsBuckets(s)
      modifies this
      ensures sensors == Insert(old(sensors), s, less)
      ensures sensorBuckets == old(sensorBuckets) && sensorBucketIndices == old(sensorBucketIndices)
      ensures includeCompoundSensors == old(includeCompoundSensors) && name == old(name)
      ensures Valid()
      ensures forall x :: x in old(sensors) ==> x in sensors
      ensures |sensors| <= |old(sensors)| + 1
      ensures s.allReadings == null ==> Lists(sensors) <= old(Lists(sensors))
      ensures s.allReadings != null ==> Lists(sensors) <= old(Lists(sensors)) + {s.allReadings}
    {
      InsertKeepsOrder(sensors, s, less);
      ListsOfInsert(sensors, s, less);
      sensors := Insert(sensors, s, less);
    }

    /** The storing half of the generic overload: evict the class's readings for one-of-N, then insert. */
    static method StoreReading(readings: SensorReadingCollection, c: SensorClass, reading: SensorReading)
      modifies readings
      ensures readings.readings == Evicted(old(readings.readings), c) + {reading}
    {
      if IsOneOfNClass(c) {
        var removed := readings.RemoveAll((x: SensorReading) => x.bucket.owner.cls == c);
      }
      var added := readings.Add(reading);
    }
    /**
     * `ParseSensorString(dateTimeString, sensorString, sensorReading, readings, out error)`.
     * The time stamp is parsed and the code split before anything changes; a failure of
     * the parse, an empty code, or a failure to create or register the sensor is thrown,
     * not reported. An unknown tag is reported and changes nothing. Otherwise the `try`
     * block changes the readings as `TryBlock` says, and its first exception is reported
     * as `SensorReadingError` with the exception's message. `t` names the objects involved.
     */
    method ParseSensorString(dateTimeString: string, code: string, rawReading: string,
                             readings: SensorReadingCollection, env: Collaborators) returns (r: Outcome, ghost t: Trace)
      requires Valid()
      modifies this, readings, Lists(sensors)
      ensures Valid()
      ensures includeCompoundSensors == old(includeCompoundSensors) && name == old(name)
      ensures forall x :: x in old(sensors) ==> x in sensors
      ensures |sensors| <= |old(sensors)| + 2
      ensures old(CacheCoherent()) ==> CacheCoherent()
      ensures ParseDate(env.platform, dateTimeString).Err? ==>
        && r == Threw(ParseDate(env.platform, dateTimeString).error)
        && sensors == old(sensors) && readings.readings == old(readings.readings)
      ensures ParseDate(env.platform, dateTimeString).Ok? && code == [] ==>
        r == Threw(Raise(ArgumentOutOfRange)) && sensors == old(sensors) && readings.readings == old(readings.readings)
      ensures ParseDate(env.platform, dateTimeString).Ok? && code != [] && Tag(code) !in sensorTypes ==>
        && r == Completed(Some(UnknownSensorError(code, CutReading(rawReading))))
        && sensors == old(sensors) && readings.readings == old(readings.readings)
        && sensorBuckets == old(sensorBuckets) && sensorBucketIndices == old(sensorBucketIndices)
      ensures r.Completed? && r.error.Some? ==>
        && r.error.value.sensor == Some(code) && r.error.value.sensorReading == Some(CutReading(rawReading))
        && r.error.value.id in {UnknownSensor, IncorrectSensorState, SensorReadingError}
      ensures ParseDate(env.platform, dateTimeString).Ok? && code != [] && Tag(code) in sensorTypes ==>
        var c := sensorTypes[Tag(code)];
        && (r.Threw? ==>
              && sensors == old(sensors) && readings.readings == old(readings.readings)
              && FindFirst(old(sensors), SameSensor(c, Some(code[1..]))).None?
              && if SensorKinds.CreateFails(c, env).Some? then r.exn.kind == SensorKinds.CreateFails(c, env).value
                 else r.exn == Exn(InvalidOperation, "Problem adding sensor"))
        && (FindFirst(old(sensors), SameSensor(c, Some(code[1..]))).None? && SensorKinds.CreateFails(c, env).Some? ==> r.Threw?)
      ensures ParseDate(env.platform, dateTimeString).Ok? && code != [] && Tag(code) in sensorTypes && r.Completed? ==>
        var cut := CutReading(rawReading);
        var dateTime := ParseDate(env.platform, dateTimeString).value;
        && Located(t, sensors, includeCompoundSensors)
        && t.sensor.cls == sensorTypes[Tag(code)] && t.sensor.id == Some(code[1..])
        && FindFirst(sensors, SameSensor(sensorTypes[Tag(code)], Some(code[1..]))).Some?
        && Computed(t, cut, dateTimeString, env)
        && TryBlock(old(readings.readings), readings.readings, t, dateTime)
        && r == Completed(Report(code, cut, Failure(t), t.incorrect))
      ensures ParseDate(env.platform, dateTimeString).Ok? && code != [] && Tag(code) in sensorTypes && r.Completed? ==>
        var k := FindFirst(old(sensors), SameSensor(sensorTypes[Tag(code)], Some(code[1..])));
        && (k.Some? ==> t.sensor == old(sensors)[k.value])
        && (k.None? ==> fresh(t.sensor) && t.sensor.shortName == Some(Tag(code)))
        && (t.compound != null ==> t.compound in old(sensors) || fresh(t.compound))
        && (t.own == null || fresh(t.own)) && (t.hourReading == null || fresh(t.hourReading))
        && (t.compoundReading == null || fresh(t.compoundReading))
      ensures ParseDate(env.platform, dateTimeString).Ok? && code != [] && Tag(code) in sensorTypes && r.Completed? ==>
        t.ownResult.Err? ==>
          && r == Completed(Some(SensorError(SensorReadingError, code, CutReading(rawReading), Some(t.ownResult.error.message))))
          && readings.readings == old(readings.readings)
      ensures && ParseDate(env.platform, dateTimeString).Ok? && code != [] && Tag(code) in sensorTypes
              && r.Completed? && (r.error.None? || r.error.value.id != SensorReadingError) && t.hour != null ==>
        OfClass(readings.readings, HourOfDay) == {t.hourReading}
    {
      var date := ParseDate(env.platform, dateTimeString);
      if date.Err? {
        return Threw(date.error), Untraced;
      }
      var dateTime := date.value;
      var cut := CutReading(rawReading);
      if |code| == 0 {
        return Threw(Raise(ArgumentOutOfRange)), Untraced;
      }
      var tag := Tag(code);
      var id := code[1..];
      if tag !in sensorTypes {
        return Completed(Some(UnknownSensorError(code, cut))), Untraced;
      }
      r, t := ParseKnown(code, cut, dateTimeString, dateTime, readings, env);
    }

    /** `ParseSensorString` once the tag is known: resolve the sensors, then read. */
    method ParseKnown(code: string, cut: string, dateTimeString: string, dateTime: DateTime,
                      readings: SensorReadingCollection, env: Collaborators) returns (r: Outcome, ghost t: Trace)
      requires Valid() && |code| > 0 && Tag(code) in sensorTypes
      modifies this, readings, Lists(sensors)
      ensures Valid()
      ensures includeCompoundSensors == old(includeCompoundSensors) && name == old(name)
      ensures forall x :: x in old(sensors) ==> x in sensors
      ensures |sensors| <= |old(sensors)| + 2
      ensures old(CacheCoherent()) ==> CacheCoherent()
      ensures
        var c := sensorTypes[Tag(code)];
        && (r.Threw? ==>
              && sensors == old(sensors) && readings.readings == old(readings.readings)
              && FindFirst(old(sensors), SameSensor(c, Some(code[1..]))).None?
              && if SensorKinds.CreateFails(c, env).Some? then r.exn.kind == SensorKinds.CreateFails(c, env).value
                 else r.exn == Exn(InvalidOperation, "Problem adding sensor"))
        && (FindFirst(old(sensors), SameSensor(c, Some(code[1..]))).None? && SensorKinds.CreateFails(c, env).Some? ==> r.Threw?)
      ensures r.Completed? ==>
        && Located(t, sensors, includeCompoundSensors)
        && t.sensor.cls == sensorTypes[Tag(code)] && t.sensor.id == Some(code[1..])
        && FindFirst(sensors, SameSensor(sensorTypes[Tag(code)], Some(code[1..]))).Some?
        && Computed(t, cut, dateTimeString, env)
        && TryBlock(old(readings.readings), readings.readings, t, dateTime)
        && r == Completed(Report(code, cut, Failure(t), t.incorrect))
      ensures r.Completed? ==>
        var k := FindFirst(old(sensors), SameSensor(sensorTypes[Tag(code)], Some(code[1..])));
        && (k.Some? ==> t.sensor == old(sensors)[k.value])
        && (k.None? ==> fresh(t.sensor) && t.sensor.shortName == Some(Tag(code)))
        && (t.compound != null ==> t.compound in old(sensors) || fresh(t.compound))
        && (t.own == null || fresh(t.own)) && (t.hourReading == null || fresh(t.hourReading))
        && (t.compoundReading == null || fresh(t.compoundReading))
      ensures r.Completed? && t.ownResult.Err? ==>
        && r == Completed(Some(SensorError(SensorReadingError, code, cut, Some(t.ownResult.error.message))))
        && readings.readings == old(readings.readings)
      ensures r.Completed? && (r.error.None? || r.error.value.id != SensorReadingError) && t.hour != null ==>
        OfClass(readings.readings, HourOfDay) == {t.hourReading}
    {
      var tag := Tag(code);
      var id := code[1..];
      var c := sensorTypes[tag];
      var resolved := Resolve(c, tag, id, env);
      if resolved.Err? {
        return Threw(resolved.error), Untraced;
      }
      var sensor := resolved.value;
      r, t := ReadResolved(code, sensor, cut, dateTimeString, dateTime, readings, env);
      FindFirstFinds(sensors, SameSensor(c, Some(id)), sensor);
    }

    /** The compound lookup and the `try` block, for the resolved sensor. */
    method ReadResolved(code: string, sensor: Sensor, cut: string, dateTimeString: string, dateTime: DateTime,
                        readings: SensorReadingCollection, env: Collaborators) returns (r: Outcome, ghost t: Trace)
      requires Valid() && sensor in sensors
      modifies this, readings, Lists(sensors)
      ensures Valid()
      ensures includeCompoundSensors == old(includeCompoundSensors) && name == old(name)
      ensures forall x :: x in old(sensors) ==> x in sensors
      ensures |sensors| <= |old(sensors)| + 1
      ensures old(CacheCoherent()) ==> CacheCoherent()
      ensures t.sensor == sensor && Located(t, sensors, includeCompoundSensors)
      ensures t.compound != null ==> t.compound in old(sensors) || fresh(t.compound)
      ensures (t.own == null || fresh(t.own)) && (t.hourReading == null || fresh(t.hourReading))
      ensures t.compoundReading == null || fresh(t.compoundReading)
      ensures Computed(t, cut, dateTimeString, env)
      ensures TryBlock(old(readings.readings), readings.readings, t, dateTime)
      ensures r == Completed(Report(code, cut, Failure(t), t.incorrect))
      ensures t.ownResult.Err? ==>
        && r == Completed(Some(SensorError(SensorReadingError, code, cut, Some(t.ownResult.error.message))))
        && readings.readings == old(readings.readings)
      ensures (r.error.None? || r.error.value.id != SensorReadingError) && t.hour != null ==>
        OfClass(readings.readings, HourOfDay) == {t.hourReading}
    {
      assert sensor.Shaped() && OwnsBuckets(sensor);
      ghost var before := readings.readings;
      var hour, compound := ResolveCompound(sensor, env);
      var incorrect, thrown;
      incorrect, thrown, t := ReadAll(sensor, hour, compound, dateTimeString, dateTime, cut, readings, env);
      r := Completed(Report(code, cut, thrown, incorrect));
      ReportedOutcome(before, readings.readings, t, dateTime, code, cut, r);
    }

    /**
     * The first sensor of the code's class and id, or a new one: created with `ShortName`
     * = tag and `Id` = id, configured and added. If registering leaves the count as it
     * was, `InvalidOperationException("Problem adding sensor")` is thrown.
     */
    method Resolve(c: SensorClass, tag: string, id: string, env: Collaborators) returns (r: Result<Sensor, Exn>)
      requires Valid() && SensorKinds.Creatable(c)
      modifies this
      ensures Valid()
      ensures includeCompoundSensors == old(includeCompoundSensors) && name == old(name)
      ensures forall x :: x in old(sensors) ==> x in sensors
      ensures |sensors| <= |old(sensors)| + 1 && fresh(Lists(sensors) - old(Lists(sensors)))
      ensures old(CacheCoherent()) ==> CacheCoherent()
      ensures r.Err? ==> sensors == old(sensors)
      ensures r.Ok? ==> r.value in sensors && r.value.Shaped() && OwnsBuckets(r.value) && r.value.cls == c && r.value.id == Some(id)
      ensures forall x :: x in sensors ==> x in old(sensors) || (r.Ok? && x == r.value)
      ensures FindFirst(old(sensors), SameSensor(c, Some(id))).Some? ==>
        && r == Ok(old(sensors)[FindFirst(old(sensors), SameSensor(c, Some(id))).value])
        && sensors == old(sensors) && sensorBuckets == old(sensorBuckets) && sensorBucketIndices == old(sensorBucketIndices)
      ensures FindFirst(old(sensors), SameSensor(c, Some(id))).None? && SensorKinds.CreateFails(c, env).Some? ==>
        && r.Err? && r.error.kind == SensorKinds.CreateFails(c, env).value
        && sensorBuckets == old(sensorBuckets) && sensorBucketIndices == old(sensorBucketIndices)
      ensures FindFirst(old(sensors), SameSensor(c, Some(id))).None? && SensorKinds.CreateFails(c, env).None? ==>
        && sensorBuckets.None? && sensorBucketIndices.None?
        && (|| (r.Ok? && fresh(r.value) && r.value.shortName == Some(tag) && |sensors| == |old(sensors)| + 1)
            || (r == Err(Exn(InvalidOperation, "Problem adding sensor"))))
    {
      var k := FindFirst(sensors, SameSensor(c, Some(id)));
      if k.Some? {
        return Ok(sensors[k.value]);
      }
      r := CreateAndAdd(c, tag, id, env);
    }

    /** The missing sensor of a code: created, configured and added, with the count checked. */
    method CreateAndAdd(c: SensorClass, tag: string, id: string, env: Collaborators) returns (r: Result<Sensor, Exn>)
      requires Valid() && SensorKinds.Creatable(c)
      modifies this
      ensures Valid()
      ensures includeCompoundSensors == old(includeCompoundSensors) && name == old(name)
      ensures forall x :: x in old(sensors) ==> x in sensors
      ensures |sensors| <= |old(sensors)| + 1 && fresh(Lists(sensors) - old(Lists(sensors)))
      ensures old(CacheCoherent()) ==> CacheCoherent()
      ensures r.Err? ==> sensors == old(sensors)
      ensures r.Ok? ==> r.value in sensors && r.value.Shaped() && OwnsBuckets(r.value) && r.value.cls == c && r.value.id == Some(id)
      ensures forall x :: x in sensors ==> x in old(sensors) || (r.Ok? && x == r.value)
      ensures SensorKinds.CreateFails(c, env).Some? ==>
        && r.Err? && r.error.kind == SensorKinds.CreateFails(c, env).value
        && sensorBuckets == old(sensorBuckets) && sensorBucketIndices == old(sensorBucketIndices)
      ensures SensorKinds.CreateFails(c, env).None? ==>
        && sensorBuckets.None? && sensorBucketIndices.None?
        && (|| (r.Ok? && fresh(r.value) && r.value.shortName == Some(tag) && |sensors| == |old(sensors)| + 1)
            || (r == Err(Exn(InvalidOperation, "Problem adding sensor"))))
    {
      var created := SensorKinds.Create(c, Some(id), Some(tag), env);
      if created.Err? {
        return Err(created.error);
      }
      var s := created.value;
      var oldCount := |sensors|;
      Add(s);
      if oldCount == |sensors| {
        return Err(Exn(InvalidOperation, "Problem adding sensor"));
      }
      r := Ok(s);
    }

    /**
     * `hourOfDay` and `compoundSensor`: the first `HourOfDay`, and, when there is one,
     * compound sensors are included and the sensor is binary, the compound of that
     * sensor, found by reference or created and added (without a check that it was).
     */
    method ResolveCompound(sensor: Sensor, env: Collaborators) returns (hour: Sensor?, compound: Sensor?)
      requires Valid() && sensor.Shaped() && OwnsBuckets(sensor)
      modifies this
      ensures Valid()
      ensures includeCompoundSensors == old(includeCompoundSensors) && name == old(name)
      ensures forall x :: x in old(sensors) ==> x in sensors
      ensures |sensors| <= |old(sensors)| + 1 && fresh(Lists(sensors) - old(Lists(sensors)))
      ensures old(CacheCoherent()) ==> CacheCoherent()
      ensures hour == null <==> FindFirst(old(sensors), IsClass(HourOfDay)).None?
      ensures hour != null ==> hour in sensors && hour.cls == HourOfDay
      ensures compound != null <==> hour != null && includeCompoundSensors && IsBinaryClass(sensor.cls)
      ensures compound != null ==>
        && compound.Shaped() && OwnsBuckets(compound) && compound.cls == CompoundHourOfDay && compound.sensor2 == sensor
        && (compound in sensors || compound.allReadings == null)
      ensures compound != null && FindFirst(old(sensors), CompoundOf(sensor)).Some? ==>
        compound == old(sensors)[FindFirst(old(sensors), CompoundOf(sensor)).value] && sensors == old(sensors)
      ensures compound != null && FindFirst(old(sensors), CompoundOf(sensor)).None? ==> fresh(compound)
      ensures compound == null ==>
        sensors == old(sensors) && sensorBuckets == old(sensorBuckets) && sensorBucketIndices == old(sensorBucketIndices)
    {
      var h := FindFirst(sensors, IsClass(HourOfDay));
      hour := if h.Some? then sensors[h.value] else null;
      compound := null;
      if hour != null && includeCompoundSensors && IsBinaryClass(sensor.cls) {
        var k := FindFirst(sensors, CompoundOf(sensor));
        if k.Some? {
          compound := sensors[k.value];
        } else {
          var made := SensorKinds.NewCompound(hour, sensor, env);
          Add(made);
          compound := made;
        }
      }
    }

    /**
     * The `try` block after the sensor is resolved: compute and record the sensor's own
     * reading, refresh the hour-of-day reading, and replace the compound reading, stopping
     * at the first exception. The registry and the caches stay as they are.
     */
    method ReadAll(sensor: Sensor, hour: Sensor?, compound: Sensor?, dateTimeString: string, dateTime: DateTime,
                   cut: string, readings: SensorReadingCollection, env: Collaborators)
      returns (incorrect: bool, thrown: Option<Exn>, ghost t: Trace)
      requires Valid() && sensor in sensors
      requires hour != null ==> hour in sensors && hour.cls == HourOfDay
      requires compound != null ==>
        && compound.Shaped() && OwnsBuckets(compound) && compound.cls == CompoundHourOfDay
        && (compound in sensors || compound.allReadings == null)
      modifies this, readings, Lists(sensors)
      ensures Valid() && sensors == old(sensors)
      ensures sensorBuckets == old(sensorBuckets) && sensorBucketIndices == old(sensorBucketIndices)
      ensures includeCompoundSensors == old(includeCompoundSensors) && name == old(name)
      ensures old(CacheCoherent()) ==> CacheCoherent()
      ensures Traceable(t) && t.sensor == sensor && t.compound == compound && t.incorrect == incorrect
      ensures t.hour == null <==> hour == null
      ensures t.hour != null ==>
        FindFirst(sensors, IsClass(HourOfDay)).Some? && t.hour == sensors[FindFirst(sensors, IsClass(HourOfDay)).value]
      ensures (t.own == null || fresh(t.own)) && (t.hourReading == null || fresh(t.hourReading))
      ensures t.compoundReading == null || fresh(t.compoundReading)
      ensures Computed(t, cut, dateTimeString, env)
      ensures TryBlock(old(readings.readings), readings.readings, t, dateTime)
      ensures thrown == Failure(t)
    {
      ghost var compoundList := if compound != null then compound.allReadings else null;
      assert compoundList != null ==> compoundList in Lists(sensors);
      ghost var before := readings.readings;
      ghost var t0;
      incorrect, thrown, t0 := ReadOwn(sensor, hour, dateTimeString, dateTime, cut, readings, env);
      assert compound != null ==> compound.allReadings == compoundList;
      thrown, t := ReadCompoundAfter(compound, thrown, before, t0, dateTimeString, dateTime, cut, readings, env);
    }

    /**
     * The last step of the `try` block: when the earlier steps raised nothing and there is
     * a compound sensor, its readings are replaced; `t` completes the trace `t0` of the
     * earlier steps with the compound sensor and its reading.
     */
    method ReadCompoundAfter(compound: Sensor?, earlier: Option<Exn>, ghost before: set<SensorReading>, ghost t0: Trace,
                             dateTimeString: string, dateTime: DateTime, cut: string,
                             readings: SensorReadingCollection, env: Collaborators)
      returns (thrown: Option<Exn>, ghost t: Trace)
      requires Valid()
      requires compound != null ==> compound.Shaped() && OwnsBuckets(compound) && compound.cls == CompoundHourOfDay
      requires Traceable(t0) && t0.compound == null && t0.refreshed == readings.readings
      requires OwnAndHour(before, readings.readings, t0, dateTime) && earlier == OwnFailure(t0)
      requires Computed(t0, cut, dateTimeString, env)
      modifies readings, if compound != null then {compound.allReadings} else {}
      ensures Valid() && (old(CacheCoherent()) ==> CacheCoherent())
      ensures Traceable(t) && t.compound == compound
      ensures t.sensor == t0.sensor && t.hour == t0.hour && t.incorrect == t0.incorrect
      ensures t.own == t0.own && t.hourReading == t0.hourReading
      ensures t.compoundReading == null || fresh(t.compoundReading)
      ensures Computed(t, cut, dateTimeString, env)
      ensures TryBlock(before, readings.readings, t, dateTime)
      ensures thrown == Failure(t)
    {
      thrown := earlier;
      ghost var x: SensorReading? := null;
      if earlier.None? && compound != null {
        thrown, x := ReadCompound(compound, CompoundText(dateTimeString, cut), dateTime, readings, env);
      }
      t := t0.(compound := compound, compoundReading := x,
               compoundResult := if compound != null then SensorKinds.Expected(compound, CompoundText(dateTimeString, cut), env)
                                 else t0.compoundResult);
      OwnAndHourOfUpdate(before, t0.refreshed, t0, t, dateTime);
    }

    /** The sensor's own reading, then the hour-of-day refresh when there is an hour sensor. */
    method ReadOwn(sensor: Sensor, hour: Sensor?, dateTimeString: string, dateTime: DateTime,
                   cut: string, readings: SensorReadingCollection, env: Collaborators)
      returns (incorrect: bool, thrown: Option<Exn>, ghost t: Trace)
      requires Valid() && sensor in sensors
      requires hour != null ==> hour in sensors && hour.cls == HourOfDay
      modifies this, readings, Lists(sensors)
      ensures Valid() && sensors == old(sensors)
      ensures sensorBuckets == old(sensorBuckets) && sensorBucketIndices == old(sensorBucketIndices)
      ensures includeCompoundSensors == old(includeCompoundSensors) && name == old(name)
      ensures old(CacheCoherent()) ==> CacheCoherent()
      ensures Traceable(t) && t.sensor == sensor && t.compound == null && t.compoundReading == null
      ensures t.incorrect == incorrect && t.refreshed == readings.readings
      ensures t.hour == null <==> hour == null
      ensures t.hour != null ==>
        FindFirst(sensors, IsClass(HourOfDay)).Some? && t.hour == sensors[FindFirst(sensors, IsClass(HourOfDay)).value]
      ensures (t.own == null || fresh(t.own)) && (t.hourReading == null || fresh(t.hourReading))
      ensures Computed(t, cut, dateTimeString, env)
      ensures OwnAndHour(old(readings.readings), readings.readings, t, dateTime)
      ensures thrown == OwnFailure(t)
    {
      assert sensor.Shaped() && OwnsBuckets(sensor);
      assert sensor.allReadings != null ==> sensor.allReadings in Lists(sensors);
      ghost var own;
      incorrect, thrown, own := ReadSensor(sensor, cut, dateTime, readings, env);
      ghost var ownResult := SensorKinds.Expected(sensor, cut, env);
      ghost var recorded := readings.readings;
      ghost var h, hourResult, x;
      var refreshThrown;
      refreshThrown, h, hourResult, x := RefreshIfPresent(hour, thrown.Some?, dateTimeString, dateTime, readings, env);
      if thrown.None? {
        thrown := refreshThrown;
      }
      t := Trace(sensor, h, null, ownResult, own, incorrect, recorded, hourResult,
                 x, readings.readings, Untraced.compoundResult, null);
    }

    /**
     * `if (hourOfDay != null)` around the hour-of-day refresh, which an earlier exception
     * (`skip`) jumps over: `h` is the first registered `HourOfDay` and `hourResult` what it
     * computes; with no hour sensor, or when skipped, the readings stay as they are.
     */
    method RefreshIfPresent(hour: Sensor?, skip: bool, dateTimeString: string, dateTime: DateTime,
                            readings: SensorReadingCollection, env: Collaborators)
      returns (thrown: Option<Exn>, ghost h: Sensor?, ghost hourResult: Result<(SensorBucket, real), Exn>,
               ghost x: SensorReading?)
      requires Valid()
      requires hour != null ==> hour in sensors && hour.cls == HourOfDay
      modifies this, readings, Lists(sensors)
      ensures Valid() && sensors == old(sensors)
      ensures sensorBuckets == old(sensorBuckets) && sensorBucketIndices == old(sensorBucketIndices)
      ensures includeCompoundSensors == old(includeCompoundSensors) && name == old(name)
      ensures old(CacheCoherent()) ==> CacheCoherent()
      ensures h == null <==> hour == null
      ensures h == null ==> hourResult == Untraced.hourResult
      ensures h != null ==>
        && FindFirst(sensors, IsClass(HourOfDay)).Some? && h == sensors[FindFirst(sensors, IsClass(HourOfDay)).value]
        && h.Shaped() && h.cls == HourOfDay && hourResult == SensorKinds.Expected(h, dateTimeString, env)
      ensures x == null || fresh(x)
      ensures thrown == if !skip && h != null && hourResult.Err? then Some(hourResult.error) else None
      ensures if !skip && h != null && hourResult.Ok? then
                Made(x, hourResult, h, dateTime) && readings.readings == Evicted(old(readings.readings), HourOfDay) + {x}
              else readings.readings == old(readings.readings)
    {
      h, hourResult, x := null, Untraced.hourResult, null;
      thrown := None;
      if hour != null {
        FindFirstFinds(sensors, IsClass(HourOfDay), hour);
        if !skip {
          thrown, x := RefreshHour(hour, dateTimeString, dateTime, readings, env);
        }
        h := sensors[FindFirst(sensors, IsClass(HourOfDay)).value];
        hourResult := SensorKinds.Expected(h, dateTimeString, env);
      }
    }

    /** The compound step: `ReplaceCompound`, which leaves the registry and its caches alone. */
    method ReadCompound(compound: Sensor, text: string, dateTime: DateTime, readings: SensorReadingCollection,
                        env: Collaborators) returns (thrown: Option<Exn>, ghost x: SensorReading?)
      requires Valid() && compound.Shaped() && OwnsBuckets(compound) && compound.cls == CompoundHourOfDay
      modifies readings, compound.allReadings
      ensures Valid() && (old(CacheCoherent()) ==> CacheCoherent())
      ensures thrown.Some? <==> SensorKinds.Expected(compound, text, env).Err?
      ensures thrown.Some? ==>
        && thrown.value == SensorKinds.Expected(compound, text, env).error
        && readings.readings == Replaced(old(readings.readings), compound.sensor2) && x == null
      ensures thrown.None? ==>
        && x != null && fresh(x) && Made(x, SensorKinds.Expected(compound, text, env), compound, dateTime)
        && readings.readings == Replaced(old(readings.readings), compound.sensor2) + {x}
    {
      thrown, x := ReplaceCompound(readings, compound, text, dateTime, env);
    }

    /** The sensor's own reading: computed, then recorded. */
    method ReadSensor(sensor: Sensor, cut: string, dateTime: DateTime, readings: SensorReadingCollection,
                      env: Collaborators) returns (incorrect: bool, thrown: Option<Exn>, ghost own: SensorReading?)
      requires Valid() && sensor.Shaped() && OwnsBuckets(sensor)
      modifies readings, sensor.allReadings
      ensures Valid() && (old(CacheCoherent()) ==> CacheCoherent())
      ensures thrown.Some? <==> SensorKinds.Expected(sensor, cut, env).Err?
      ensures thrown.Some? ==>
        thrown.value == SensorKinds.Expected(sensor, cut, env).error && !incorrect
        && readings.readings == old(readings.readings) && own == null
      ensures thrown.None? ==>
        && own != null && fresh(own) && Made(own, SensorKinds.Expected(sensor, cut, env), sensor, dateTime)
        && Recorded(old(readings.readings), own, incorrect, readings.readings)
    {
      var computed := SensorKinds.Compute(sensor, cut, dateTime, env);
      if computed.Err? {
        return false, Some(computed.error), null;
      }
      SensorKinds.ExpectedBucketIsOwn(sensor, cut, env);
      own := computed.value;
      incorrect := Record(readings, computed.value);
      thrown := None;
    }

    /**
     * `ParseSensorString<HourOfDay>(dateTimeString, dateTime, readings)`: the first
     * registered `HourOfDay` computes a reading from the time stamp, which replaces every
     * hour-of-day reading; readings of other classes are kept.
     */
    method RefreshHour(hour: Sensor, dateTimeString: string, dateTime: DateTime, readings: SensorReadingCollection,
                       env: Collaborators) returns (thrown: Option<Exn>, ghost x: SensorReading?)
      requires Valid() && hour in sensors && hour.cls == HourOfDay
      modifies this, readings, Lists(sensors)
      ensures Valid() && sensors == old(sensors)
      ensures sensorBuckets == old(sensorBuckets) && sensorBucketIndices == old(sensorBucketIndices)
      ensures includeCompoundSensors == old(includeCompoundSensors) && name == old(name)
      ensures old(CacheCoherent()) ==> CacheCoherent()
      ensures FindFirst(sensors, IsClass(HourOfDay)).Some?
      ensures
        var h := sensors[FindFirst(sensors, IsClass(HourOfDay)).value];
        && h.Shaped() && h.cls == HourOfDay
        && (thrown.Some? <==> SensorKinds.Expected(h, dateTimeString, env).Err?)
        && (thrown.Some? ==>
              thrown.value == SensorKinds.Expected(h, dateTimeString, env).error
              && readings.readings == old(readings.readings) && x == null)
        && (thrown.None? ==>
              && x != null && fresh(x) && Made(x, SensorKinds.Expected(h, dateTimeString, env), h, dateTime)
              && readings.readings == Evicted(old(readings.readings), HourOfDay) + {x})
    {
      FindFirstFinds(sensors, Wanted(HourOfDay, None), hour);
      ghost var s;
      thrown, s, x := ParseSensorStringOf(HourOfDay, dateTimeString, dateTime, readings, None, env);
    }

    /**
     * Records a computed reading. A binary reading with a non-zero value is inserted
     * unless its bucket already has one, which is `IncorrectSensorState`; with a zero
     * value it removes its bucket's reading, and a missing one is `IncorrectSensorState`.
     * Any other reading is inserted unconditionally.
     */
    static method Record(readings: SensorReadingCollection, reading: SensorReading) returns (incorrect: bool)
      modifies readings
      ensures !IsBinaryClass(reading.bucket.owner.cls) ==>
        !incorrect && readings.readings == old(readings.readings) + {reading}
      ensures IsBinaryClass(reading.bucket.owner.cls) && !IsZero(reading.value) ==>
        && (incorrect <==> old(readings.ContainsKey(reading.bucket)))
        && readings.readings == if incorrect then old(readings.readings) else old(readings.readings) + {reading}
      ensures IsBinaryClass(reading.bucket.owner.cls) && IsZero(reading.value) ==>
        && (incorrect <==> !old(readings.ContainsKey(reading.bucket)))
        && (incorrect ==> readings.readings == old(readings.readings))
        && (!incorrect ==> exists x :: x in old(readings.readings) && x.bucket == reading.bucket && readings.readings == old(readings.readings) - {x})
      ensures Recorded(old(readings.readings), reading, incorrect, readings.readings)
    {
      incorrect := false;
      if IsBinaryClass(reading.bucket.owner.cls) {
        if IsZero(reading.value) {
          if !readings.ContainsKey(reading.bucket) {
            incorrect := true;
          } else {
            var thrown := readings.Remove(reading.bucket);
          }
        } else {
          if readings.ContainsKey(reading.bucket) {
            incorrect := true;
          } else {
            var added := readings.Add(reading);
          }
        }
      } else {
        var added := readings.Add(reading);
      }
    }

    /**
     * The compound step: evict every compound reading over the same binary sensor, then
     * compute the compound reading from "time stamp TAB value" and insert it. The eviction
     * comes first, so it stands even when the computation throws.
     */
    static method ReplaceCompound(readings: SensorReadingCollection, compound: Sensor, text: string, dateTime: DateTime,
                                  env: Collaborators) returns (thrown: Option<Exn>, ghost reading: SensorReading?)
      requires compound.Shaped() && compound.cls == CompoundHourOfDay && OwnsBuckets(compound)
      modifies readings, compound.allReadings
      ensures thrown.Some? <==> SensorKinds.Expected(compound, text, env).Err?
      ensures thrown.Some? ==>
        thrown.value == SensorKinds.Expected(compound, text, env).error
        && readings.readings == Replaced(old(readings.readings), compound.sensor2) && reading == null
      ensures thrown.None? ==>
        && reading != null && fresh(reading) && reading.dateTime == dateTime && reading.bucket.owner == compound
        && (reading.bucket, reading.value) == SensorKinds.Expected(compound, text, env).value
        && readings.readings == Replaced(old(readings.readings), compound.sensor2) + {reading}
    {
      var s2 := compound.sensor2;
      var removed := readings.RemoveAll((x: SensorReading) => ReadsCompoundOf(x, s2));
      var computed := SensorKinds.Compute(compound, text, dateTime, env);
      if computed.Err? {
        return Some(computed.error), null;
      }
      SensorKinds.ExpectedBucketIsOwn(compound, text, env);
      reading := computed.value;
      var added := readings.Add(computed.value);
      thrown := None;
    }
  }

  /** Some reading of the set is for the bucket object b, as `ContainsKey` asks. */
  predicate HasBucket(readings: set<SensorReading>, b: SensorBucket)
  {
    exists x :: x in readings && x.bucket == b
  }

  /**
   * What `Record` does with a computed reading, from the readings `before` to `after`, and
   * whether it reports `IncorrectSensorState`. A binary reading with a non-zero value is
   * inserted unless its bucket already has a reading, which is reported. A binary reading
   * with a zero value removes one reading of its bucket, and finding none is reported. Any
   * other reading is inserted.
   */
  ghost predicate Recorded(before: set<SensorReading>, reading: SensorReading, incorrect: bool, after: set<SensorReading>)
  {
    if !IsBinaryClass(reading.bucket.owner.cls) then !incorrect && after == before + {reading}
    else if !IsZero(reading.value) then
      && (incorrect <==> HasBucket(before, reading.bucket))
      && after == (if incorrect then before else before + {reading})
    else
      && (incorrect <==> !HasBucket(before, reading.bucket))
      && (incorrect ==> after == before)
      && (!incorrect ==> exists x :: x in before && x.bucket == reading.bucket && after == before - {x})
  }

  /**
   * x is the reading `Compute` made from the result e of `Expected` for the sensor owner:
   * it exists only when e is a success, and then it has e's bucket and value, a bucket of
   * owner's own, and the time stamp.
   */
  predicate Made(x: SensorReading?, e: Result<(SensorBucket, real), Exn>, owner: Sensor, dateTime: DateTime)
  {
    && e.Ok?
    && x != null && x.dateTime == dateTime && x.bucket.owner == owner
    && (x.bucket, x.value) == e.value
  }

  /**
   * The objects one parsed line involves: the resolved sensor, the first `HourOfDay` and the
   * compound sensor (null when there is none); for each of the three computations its
   * result (the chosen bucket and value, or the exception) and the reading it made; whether
   * recording the own reading reported `IncorrectSensorState`; and the readings after the
   * own reading was recorded (`recorded`) and after the hour-of-day refresh (`refreshed`).
   */
  datatype Trace = Trace(
    sensor: Sensor?, hour: Sensor?, compound: Sensor?,
    ownResult: Result<(SensorBucket, real), Exn>, own: SensorReading?, incorrect: bool, recorded: set<SensorReading>,
    hourResult: Result<(SensorBucket, real), Exn>, hourReading: SensorReading?, refreshed: set<SensorReading>,
    compoundResult: Result<(SensorBucket, real), Exn>, compoundReading: SensorReading?)

  /** The trace of a line that never reached the sensor. */
  const Untraced := Trace(null, null, null, Err(Raise(NullReference)), null, false, {},
                          Err(Raise(NullReference)), null, {}, Err(Raise(NullReference)), null)

  /** The sensors of a trace are typed as the parser uses them. */
  ghost predicate Traceable(t: Trace)
  {
    && t.sensor != null && t.sensor.Shaped()
    && (t.hour != null ==> t.hour.Shaped() && t.hour.cls == HourOfDay)
    && (t.compound != null ==> t.compound.Shaped() && t.compound.cls == CompoundHourOfDay)
  }

  /**
   * The results in a trace are what its sensors compute: the own sensor from the value,
   * the hour sensor from the time stamp, and the compound sensor from both.
   */
  ghost predicate Computed(t: Trace, text: string, dateTimeString: string, env: Collaborators)
    reads t.sensor, t.hour, t.compound
    requires Traceable(t)
  {
    && t.ownResult == SensorKinds.Expected(t.sensor, text, env)
    && (t.hour != null ==> t.hourResult == SensorKinds.Expected(t.hour, dateTimeString, env))
    && (t.compound != null ==> t.compoundResult == SensorKinds.Expected(t.compound, CompoundText(dateTimeString, text), env))
  }

  /**
   * Where the sensors of a trace come from: the resolved sensor is registered; the hour
   * sensor is the first registered `HourOfDay` and is null iff there is none; a compound
   * sensor of the resolved one is used iff there is an hour sensor, compound sensors are
   * included, and the resolved sensor is binary.
   */
  ghost predicate Located(t: Trace, sensors: seq<Sensor>, includeCompound: bool)
  {
    && Traceable(t) && t.sensor in sensors
    && (t.hour == null <==> FindFirst(sensors, IsClass(HourOfDay)).None?)
    && (t.hour != null ==> t.hour == sensors[FindFirst(sensors, IsClass(HourOfDay)).value])
    && (t.compound != null <==> t.hour != null && includeCompound && IsBinaryClass(t.sensor.cls))
    && (t.compound != null ==> t.compound.sensor2 == t.sensor)
  }

  /** The text the compound sensor computes from: "time stamp TAB value". */
  function CompoundText(dateTimeString: string, text: string): string
  {
    dateTimeString + "\t" + text
  }

  /** The first exception of the own reading and the hour-of-day refresh, if any. */
  function OwnFailure(t: Trace): Option<Exn>
  {
    if t.ownResult.Err? then Some(t.ownResult.error)
    else if t.hour != null && t.hourResult.Err? then Some(t.hourResult.error)
    else None
  }

  /** The first exception of the whole `try` block, if any. */
  function Failure(t: Trace): Option<Exn>
  {
    if OwnFailure(t).Some? then OwnFailure(t)
    else if t.compound != null && t.compoundResult.Err? then Some(t.compoundResult.error)
    else None
  }

  /**
   * The first half of the `try` block, from `before` to `after`: when the own reading
   * cannot be computed nothing changes; otherwise it is recorded, and then, when there is
   * an hour sensor whose reading can be computed, that reading replaces every hour-of-day
   * reading.
   */
  ghost predicate OwnAndHour(before: set<SensorReading>, after: set<SensorReading>, t: Trace, dateTime: DateTime)
  {
    if t.ownResult.Err? then after == before && !t.incorrect
    else
      && t.sensor != null && Made(t.own, t.ownResult, t.sensor, dateTime)
      && Recorded(before, t.own, t.incorrect, t.recorded)
      && if t.hour != null && t.hourResult.Ok? then
           && Made(t.hourReading, t.hourResult, t.hour, dateTime)
           && after == Evicted(t.recorded, HourOfDay) + {t.hourReading}
         else after == t.recorded
  }

  /** `OwnAndHour` looks only at the own and hour-of-day parts of a trace. */
  lemma OwnAndHourOfUpdate(before: set<SensorReading>, after: set<SensorReading>, t0: Trace, t: Trace, dateTime: DateTime)
    requires OwnAndHour(before, after, t0, dateTime)
    requires t.sensor == t0.sensor && t.hour == t0.hour && t.ownResult == t0.ownResult && t.own == t0.own
    requires t.incorrect == t0.incorrect && t.recorded == t0.recorded
    requires t.hourResult == t0.hourResult && t.hourReading == t0.hourReading
    ensures OwnAndHour(before, after, t, dateTime)
  {
  }

  /**
   * The whole `try` block, from `before` to `after`: the first half ends in `refreshed`;
   * when it raised nothing and there is a compound sensor, the compound readings over the
   * resolved sensor are evicted, and the compound reading is inserted when it can be
   * computed.
   */
  ghost predicate TryBlock(before: set<SensorReading>, after: set<SensorReading>, t: Trace, dateTime: DateTime)
  {
    && OwnAndHour(before, t.refreshed, t, dateTime)
    && if OwnFailure(t).None? && t.compound != null then
         if t.compoundResult.Ok? then
           Made(t.compoundReading, t.compoundResult, t.compound, dateTime)
           && after == Replaced(t.refreshed, t.compound.sensor2) + {t.compoundReading}
         else after == Replaced(t.refreshed, t.compound.sensor2)
       else after == t.refreshed
  }

  /**
   * The error the parser reports for a resolved sensor: `SensorReadingError` with the
   * message of the exception, else `IncorrectSensorState` when recording found the
   * bucket's state wrong, else none.
   */
  function Report(code: string, cut: string, thrown: Option<Exn>, incorrect: bool): (e: Option<DataError>)
    ensures e.None? <==> thrown.None? && !incorrect
    ensures e.Some? ==> e.value.sensor == Some(code) && e.value.sensorReading == Some(cut)
    ensures thrown.Some? ==> e == Some(SensorError(SensorReadingError, code, cut, Some(thrown.value.message)))
    ensures thrown.None? && incorrect ==> e.Some? && e.value.id == IncorrectSensorState && e.value.message.None?
  {
    if thrown.Some? then Some(SensorError(SensorReadingError, code, cut, Some(thrown.value.message)))
    else if incorrect then Some(SensorError(IncorrectSensorState, code, cut, None))
    else None
  }

  /** When the own reading cannot be computed, the error names its exception and nothing changes. */
  lemma OwnFailureIsReported(before: set<SensorReading>, after: set<SensorReading>, t: Trace, dateTime: DateTime)
    requires TryBlock(before, after, t, dateTime) && t.ownResult.Err?
    ensures Failure(t) == Some(t.ownResult.error)
    ensures after == before && !t.incorrect
  {
  }

  /**
   * What the report of a `try` block says about the readings: an own `Compute` that
   * throws is reported with its message and changes nothing, and a report that is not a
   * `SensorReadingError` leaves exactly one hour-of-day reading when there is an hour sensor.
   */
  lemma ReportedOutcome(before: set<SensorReading>, after: set<SensorReading>, t: Trace, dateTime: DateTime,
                        code: string, cut: string, r: Outcome)
    requires Traceable(t) && TryBlock(before, after, t, dateTime)
    requires r == Completed(Report(code, cut, Failure(t), t.incorrect))
    ensures t.ownResult.Err? ==>
      && r == Completed(Some(SensorError(SensorReadingError, code, cut, Some(t.ownResult.error.message))))
      && after == before
    ensures (r.error.None? || r.error.value.id != SensorReadingError) && t.hour != null ==>
      OfClass(after, HourOfDay) == {t.hourReading}
  {
    if t.ownResult.Err? {
      OwnFailureIsReported(before, after, t, dateTime);
    }
    if Failure(t).None? && t.hour != null {
      TryBlockLeavesOneHour(before, after, t, dateTime);
    }
  }

  /**
   * After a line whose `try` block raised nothing, with an hour sensor, the hour sensor's
   * reading is the only hour-of-day reading left.
   */
  lemma TryBlockLeavesOneHour(before: set<SensorReading>, after: set<SensorReading>, t: Trace, dateTime: DateTime)
    requires Traceable(t) && TryBlock(before, after, t, dateTime)
    requires Failure(t).None? && t.hour != null
    ensures OfClass(after, HourOfDay) == {t.hourReading}
  {
    EvictedThenAdded(t.recorded, HourOfDay, t.hourReading);
    if t.compound != null {
      ReplacedKeepsOthers(t.refreshed, t.compound.sensor2, t.compoundReading, HourOfDay);
    }
  }

  /**
   * A line changes only the readings of the resolved sensor's class, of `HourOfDay` and of
   * `CompoundHourOfDay`: the readings of every other class are kept as they were.
   */
  lemma TryBlockKeepsOtherClasses(before: set<SensorReading>, after: set<SensorReading>, t: Trace,
                                  dateTime: DateTime, c: SensorClass)
    requires Traceable(t) && TryBlock(before, after, t, dateTime)
    requires c != t.sensor.cls && c != HourOfDay && c != CompoundHourOfDay
    ensures OfClass(after, c) == OfClass(before, c)
  {
    if t.ownResult.Ok? {
      RecordedKeepsOtherClasses(before, t.own, t.incorrect, t.recorded, c);
      assert OfClass(t.refreshed, c) == OfClass(t.recorded, c);
    }
    assert OfClass(after, c) == OfClass(t.refreshed, c);
  }

  /** Recording a reading changes only the readings of its owner's class. */
  lemma RecordedKeepsOtherClasses(before: set<SensorReading>, reading: SensorReading, incorrect: bool,
                                  after: set<SensorReading>, c: SensorClass)
    requires Recorded(before, reading, incorrect, after) && c != reading.bucket.owner.cls
    ensures OfClass(after, c) == OfClass(before, c)
  {
    if IsBinaryClass(reading.bucket.owner.cls) && IsZero(reading.value) && !incorrect {
      var x :| x in before && x.bucket == reading.bucket && after == before - {x};
      assert x.bucket.owner.cls != c;
    }
  }

  /** The sensors the generic overload looks for: class c, and the id when one is given. */
  function Wanted(c: SensorClass, id: Option<string>): Query
  {
    if IsNullOrEmpty(id) then IsClass(c) else SameSensor(c, id)
  }

  /** The readings the generic overload keeps: all of them, or for a one-of-N class all not of class c. */
  function Evicted(readings: set<SensorReading>, c: SensorClass): (r: set<SensorReading>)
    ensures !IsOneOfNClass(c) ==> r == readings
    ensures IsOneOfNClass(c) ==> r == readings - OfClass(readings, c)
  {
    if IsOneOfNClass(c) then set x | x in readings && x.bucket.owner.cls != c else readings
  }

  /** After eviction and insertion, the new reading is the only one of its one-of-N class. */
  lemma EvictedThenAdded(readings: set<SensorReading>, c: SensorClass, reading: SensorReading)
    requires IsOneOfNClass(c) && reading.bucket.owner.cls == c
    ensures OfClass(Evicted(readings, c) + {reading}, c) == {reading}
  {
  }

  /** The readings the compound step keeps: all except the compound readings over sensor2. */
  function Replaced(readings: set<SensorReading>, sensor2: Sensor?): (r: set<SensorReading>)
    ensures r <= readings
    ensures forall x :: x in readings ==> (x in r <==> !ReadsCompoundOf(x, sensor2))
  {
    set x | x in readings && !ReadsCompoundOf(x, sensor2)
  }

  /** Replacing a compound reading leaves the readings of every other class as they were. */
  lemma ReplacedKeepsOthers(readings: set<SensorReading>, sensor2: Sensor?, reading: SensorReading, c: SensorClass)
    requires c != CompoundHourOfDay && reading.bucket.owner.cls == CompoundHourOfDay
    ensures OfClass(Replaced(readings, sensor2) + {reading}, c) == OfClass(readings, c)
  {
  }
}
