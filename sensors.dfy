/**
 * The sensor data model: the runtime classes of sensors, the `Sensor` base object with the
 * fields its subclasses add, the buckets (feature-vector slots) a sensor owns, and the
 * readings it produces. The behaviour of each sensor class lives in its own module.
 */
module Sensors {
  import opened Wrappers
  import opened Runtime
  import opened Text
  import opened Residents
  import opened Activities

  /** The concrete sensor classes, i.e. the values `GetType()` can take. */
  datatype SensorClass =
    | MotionSensor | LightSensor | KitchenItemSensor | DoorSensor   // binary sensors not part of this model
    | ExperimenterSwitch | BinaryAnd                                 // binary sensors
    | TemperatureSensor | ElectricitySensor                         // numeric sensors
    | HourOfDay | DayOfWeek | CurrentActivity | PreviousActivity     // one-of-N sensors
    | Bias
    | CompoundHourOfDay

  /** `GetType().Name`. */
  function ClassName(c: SensorClass): (s: string)
    ensures |s| > 0
  {
    match c
    case MotionSensor => "MotionSensor"
    case LightSensor => "LightSensor"
    case KitchenItemSensor => "KitchenItemSensor"
    case DoorSensor => "DoorSensor"
    case ExperimenterSwitch => "ExperimenterSwitch"
    case BinaryAnd => "BinaryAnd"
    case TemperatureSensor => "TemperatureSensor"
    case ElectricitySensor => "ElectricitySensor"
    case HourOfDay => "HourOfDay"
    case DayOfWeek => "DayOfWeek"
    case CurrentActivity => "CurrentActivity"
    case PreviousActivity => "PreviousActivity"
    case Bias => "Bias"
    case CompoundHourOfDay => "CompoundHourOfDay"
  }

  /** Class names tell classes apart, so comparing `Name`s compares runtime types. */
  lemma ClassNameInjective(a: SensorClass, b: SensorClass)
    ensures ClassName(a) == ClassName(b) <==> a == b
  {
  }

  /** `is BinarySensor`. */
  predicate IsBinaryClass(c: SensorClass)
  {
    c.MotionSensor? || c.LightSensor? || c.KitchenItemSensor? || c.DoorSensor? || c.ExperimenterSwitch? || c.BinaryAnd?
  }

  /** `is NumericSensor`. */
  predicate IsNumericClass(c: SensorClass)
  {
    c.TemperatureSensor? || c.ElectricitySensor?
  }

  /** `is OneOfNSensor`. */
  predicate IsOneOfNClass(c: SensorClass)
  {
    c.HourOfDay? || c.DayOfWeek? || c.CurrentActivity? || c.PreviousActivity?
  }

  /** A bin edge of a numeric sensor: a whole number or positive infinity. */
  datatype Edge = At(n: int) | PositiveInfinity

  /** `sensorValue > edge`. */
  predicate Exceeds(v: real, e: Edge)
  {
    e.At? && v > e.n as real
  }

  /** A `List<double>` object (a numeric sensor's `AllReadings`). */
  class RealList {
    var items: seq<real>

    constructor ()
      ensures items == []
    {
      items := [];
    }
  }

  /**
   * How a one-of-N sensor's `SensorBucketFunc` names bucket `i` built from `BucketNames[i]`.
   * The bucket it creates gets index `i` and this sensor as owner.
   */
  type BucketNamer = (seq<string>, int) -> Option<string>

  /**
   * A sensor. `cls` is its runtime class. `id`, `sensor1` and `sensor2` never change once the
   * sensor is built; the other fields are the mutable properties of `Sensor` and of the
   * subclasses that add them (each used only by its own class).
   */
  class Sensor {
    const cls: SensorClass
    const id: Option<string>
    const sensor1: Sensor?                // BinaryAnd / CompoundHourOfDay constituents
    const sensor2: Sensor?
    ghost const depth: nat

    var buckets: seq<SensorBucket>
    var description: Option<string>
    var firstDescription: Option<string>
    var shortName: Option<string>
    var stringFormat: string
    var isShared: bool
    var validitySeconds: int              // BinarySensor.Validity
    var bins: Option<seq<Edge>>           // NumericSensor.Bins
    var allReadings: RealList?            // NumericSensor.AllReadings
    var value: real                       // Bias.Value
    var bucketNames: Option<seq<seq<string>>>   // OneOfNSensor.BucketNames
    var bucketFunc: Option<BucketNamer>   // OneOfNSensor.SensorBucketFunc

    /**
     * The field initialisers and constructors of `Sensor` and of the intermediate classes:
     * an empty bucket list, `StringFormat` "{0}", `IsShared` true, and a 5-second validity
     * for binary sensors.
     */
    constructor (cls: SensorClass, id: Option<string>, sensor1: Sensor?, sensor2: Sensor?)
      requires sensor1 != null ==> sensor1.Shaped()
      requires sensor2 != null ==> sensor2.Shaped()
      requires cls == CompoundHourOfDay ==>
        sensor1 != null && sensor2 != null && sensor1.cls == HourOfDay && IsBinaryClass(sensor2.cls)
      requires cls == BinaryAnd ==>
        (sensor1 != null ==> IsBinaryClass(sensor1.cls)) && (sensor2 != null ==> IsBinaryClass(sensor2.cls))
      requires cls != CompoundHourOfDay && cls != BinaryAnd ==> sensor1 == null && sensor2 == null
      ensures Shaped()
      ensures this.cls == cls && this.id == id && this.sensor1 == sensor1 && this.sensor2 == sensor2
      ensures buckets == [] && description.None? && firstDescription.None? && shortName.None?
      ensures stringFormat == "{0}" && isShared
      ensures validitySeconds == if IsBinaryClass(cls) then 5 else 0
      ensures bins.None? && allReadings == null && value == 0.0
      ensures bucketNames.None? && bucketFunc.None?
    {
      this.cls := cls;
      this.id := id;
      this.sensor1 := sensor1;
      this.sensor2 := sensor2;
      this.depth := 1 + (if sensor1 != null then sensor1.depth else 0) + (if sensor2 != null then sensor2.depth else 0);
      buckets := [];
      description := None;
      firstDescription := None;
      shortName := None;
      stringFormat := "{0}";
      isShared := true;
      validitySeconds := if IsBinaryClass(cls) then 5 else 0;
      bins := None;
      allReadings := null;
      value := 0.0;
      bucketNames := None;
      bucketFunc := None;
    }

    /**
     * The typing the constituent properties carry: a `CompoundHourOfDay` pairs an
     * `HourOfDay` with a binary sensor, a `BinaryAnd` has binary (or null) constituents,
     * and no other class has constituents. It reads only constants, so it never changes.
     */
    ghost predicate Shaped()
      decreases depth
    {
      && (sensor1 != null ==> sensor1.depth < depth && sensor1.Shaped())
      && (sensor2 != null ==> sensor2.depth < depth && sensor2.Shaped())
      && (cls == CompoundHourOfDay ==>
           sensor1 != null && sensor2 != null && sensor1.cls == HourOfDay && IsBinaryClass(sensor2.cls))
      && (cls == BinaryAnd ==>
           (sensor1 != null ==> IsBinaryClass(sensor1.cls)) && (sensor2 != null ==> IsBinaryClass(sensor2.cls)))
      && (cls != CompoundHourOfDay && cls != BinaryAnd ==> sensor1 == null && sensor2 == null)
    }

    /** The mutable properties other than `Buckets`, as one value. */
    function Props(): (p: Properties)
      reads this
      ensures p.description == description && p.stringFormat == stringFormat
      ensures p.bins == bins && p.allReadings == allReadings && p.value == value
    {
      Properties(description, firstDescription, shortName, stringFormat, isShared, validitySeconds,
        bins, allReadings, value, bucketNames, bucketFunc)
    }

    /** `Name`: the class name (the cached value is always `GetType().Name`). */
    function Name(): string
    {
      ClassName(cls)
    }

    /** `Count`: the number of buckets. */
    function Count(): (n: nat)
      reads this
      ensures n == |buckets|
    {
      |buckets|
    }

    /** `SensorNames`: the bucket names, in bucket order. */
    function SensorNames(): (names: seq<Option<string>>)
      reads this
      ensures |names| == Count()
      ensures forall i :: 0 <= i < |names| ==> names[i] == buckets[i].name
    {
      seq(|buckets|, i reads this requires 0 <= i < |buckets| => buckets[i].name)
    }

    /**
     * `GetDescription(i)`: `FirstDescription` for bucket 0 when it is set; with more than
     * one bucket, bucket i's name put into `StringFormat`; otherwise `StringFormat` itself.
     */
    function GetDescription(i: int): (r: Result<string, Exn>)
      reads this
      ensures i == 0 && firstDescription.Some? ==> r == Ok(firstDescription.value)
      ensures !(i == 0 && firstDescription.Some?) && Count() <= 1 ==> r == Ok(stringFormat)
      ensures !(i == 0 && firstDescription.Some?) && Count() > 1 && 0 <= i < Count() ==>
        r == Ok(Format1(stringFormat, Str(SensorNames()[i])))
      ensures r.Err? <==> !(i == 0 && firstDescription.Some?) && Count() > 1 && !(0 <= i < Count())
    {
      if i == 0 && firstDescription.Some? then Ok(firstDescription.value)
      else if Count() > 1 then
        if 0 <= i < Count() then Ok(Format1(stringFormat, Str(SensorNames()[i]))) else Err(Raise(IndexOutOfRange))
      else Ok(stringFormat)
    }

    /** `Equals(Sensor other)`: same `Name` and same `Id`. */
    predicate Equals(other: Sensor)
    {
      Name() == other.Name() && id == other.id
    }

    /** `Equals(object obj)`: false for null and for objects that are not sensors. */
    predicate EqualsObject(obj: object?)
    {
      obj is Sensor && Equals(obj as Sensor)
    }

    /** The values `GetHashCode` combines: exactly (Name, Id). */
    function HashKey(): (k: (string, Option<string>))
      ensures k.0 == Name() && k.1 == id
    {
      (Name(), id)
    }
  }

  /**
   * With the formats the sensors install ("{0}", or "[{0}]" for the one-of-N family), a
   * bucket that `FirstDescription` does not cover is described by its own name, so two
   * such buckets get the same description exactly when their names read alike.
   */
  lemma DescriptionsShowBucketNames(s: Sensor, i: int, j: int)
    requires s.stringFormat == "{0}" || s.stringFormat == "[{0}]"
    requires s.Count() > 1 && 0 <= i < s.Count() && 0 <= j < s.Count()
    requires s.firstDescription.None? || (i != 0 && j != 0)
    ensures s.GetDescription(i).Ok?
    ensures s.stringFormat == "{0}" ==> s.GetDescription(i).value == Str(s.buckets[i].name)
    ensures s.stringFormat == "[{0}]" ==> s.GetDescription(i).value == "[" + Str(s.buckets[i].name) + "]"
    ensures s.GetDescription(i) == s.GetDescription(j) <==> Str(s.buckets[i].name) == Str(s.buckets[j].name)
  {
    var a, b := Str(s.buckets[i].name), Str(s.buckets[j].name);
    Format1Examples(a);
    Format1Examples(b);
    if s.stringFormat == "[{0}]" && "[" + a + "]" == "[" + b + "]" {
      assert a == ("[" + a + "]")[1..|a| + 1];
      assert b == ("[" + b + "]")[1..|b| + 1];
    }
  }

  /** The values of a sensor's mutable properties other than its buckets. */
  datatype Properties = Properties(
    description: Option<string>,
    firstDescription: Option<string>,
    shortName: Option<string>,
    stringFormat: string,
    isShared: bool,
    validitySeconds: int,
    bins: Option<seq<Edge>>,
    allReadings: RealList?,
    value: real,
    bucketNames: Option<seq<seq<string>>>,
    bucketFunc: Option<BucketNamer>)

  /** The bucket at position `k` of a bucket list (`List<T>` indexer). */
  function BucketAt(buckets: seq<SensorBucket>, k: int): (r: Result<SensorBucket, Exn>)
    ensures r.Ok? <==> 0 <= k < |buckets|
    ensures r.Ok? ==> r.value == buckets[k]
    ensures r.Err? ==> r.error.kind == ArgumentOutOfRange
  {
    if 0 <= k < |buckets| then Ok(buckets[k]) else Err(Raise(ArgumentOutOfRange))
  }

  /** Every bucket of the sensor names it as its owner. */
  predicate OwnsBuckets(s: Sensor)
    reads s
  {
    forall i :: 0 <= i < |s.buckets| ==> s.buckets[i].owner == s
  }

  /** How a possibly-null string is rendered by concatenation and `string.Format`: null is "". */
  function Str(s: Option<string>): string
  {
    if s.Some? then s.value else ""
  }

  /** Sensor equality is the equality of hash keys, and it compares runtime types and ids. */
  lemma SensorEqualsMeansSameKey(a: Sensor, b: Sensor)
    ensures a.Equals(b) <==> a.HashKey() == b.HashKey()
    ensures a.Equals(b) <==> a.cls == b.cls && a.id == b.id
    ensures a.EqualsObject(b) == a.Equals(b)
    ensures !a.EqualsObject(null)
  {
    ClassNameInjective(a.cls, b.cls);
  }

  /**
   * A slot of the feature vector. The properties are settable in the source but are only
   * ever set when the bucket is created, so they are constants here; buckets are
   * compared by reference wherever the source uses `==`.
   */
  class SensorBucket {
    const index: int
    const name: Option<string>
    const owner: Sensor

    constructor (index: int, name: Option<string>, owner: Sensor)
      ensures this.index == index && this.name == name && this.owner == owner
    {
      this.index := index;
      this.name := name;
      this.owner := owner;
    }

    /**
     * `Equals(SensorBucket other)`: same name, same owner name and id, same index, and,
     * when both owners are `CompoundHourOfDay`, the same constituent ids.
     */
    predicate Equals(other: SensorBucket)
      requires owner.Shaped() && other.owner.Shaped()
    {
      && name == other.name
      && owner.Name() == other.owner.Name()
      && owner.id == other.owner.id
      && (owner.cls != CompoundHourOfDay || other.owner.cls != CompoundHourOfDay
          || (owner.sensor1.id == other.owner.sensor1.id && owner.sensor2.id == other.owner.sensor2.id))
      && index == other.index
    }

    /** `Equals(object obj)`: false for null and for objects that are not buckets. */
    predicate EqualsObject(obj: object?)
      requires owner.Shaped()
      requires obj is SensorBucket ==> (obj as SensorBucket).owner.Shaped()
    {
      obj is SensorBucket && Equals(obj as SensorBucket)
    }

    /** The values `GetHashCode` combines. */
    function Key(): (k: BucketKey)
      requires owner.Shaped()
      ensures k.name == name && k.index == index && k.ownerId == owner.id && k.ownerName == owner.Name()
      ensures k.constituents.Some? <==> owner.cls == CompoundHourOfDay
    {
      BucketKey(name, index, owner.id, owner.Name(),
        if owner.cls == CompoundHourOfDay then Some((owner.sensor1.id, owner.sensor2.id)) else None)
    }

    /**
     * `ToString()`: owner name and id for buckets of binary sensors and of `Bias`,
     * otherwise "NameId[BucketName]".
     */
    function ToString(): (s: string)
      ensures owner.Name() + Str(owner.id) <= s
      ensures IsBinaryClass(owner.cls) || owner.cls == Bias <==> |s| == |owner.Name() + Str(owner.id)|
      ensures !(IsBinaryClass(owner.cls) || owner.cls == Bias) ==>
        s[|owner.Name() + Str(owner.id)|..] == "[" + Str(name) + "]"
    {
      if IsBinaryClass(owner.cls) || owner.cls == Bias then owner.Name() + Str(owner.id)
      else owner.Name() + Str(owner.id) + "[" + Str(name) + "]"
    }
  }

  /** The anonymous-type tuple `SensorBucket.GetHashCode` hashes. */
  datatype BucketKey = BucketKey(
    name: Option<string>,
    index: int,
    ownerId: Option<string>,
    ownerName: string,
    constituents: Option<(Option<string>, Option<string>)>)

  /**
   * Bucket equality is exactly equality of hash keys: equal buckets hash alike, and the
   * hash separates everything `Equals` separates.
   */
  lemma BucketEqualsMeansSameKey(a: SensorBucket, b: SensorBucket)
    requires a.owner.Shaped() && b.owner.Shaped()
    ensures a.Equals(b) <==> a.Key() == b.Key()
    ensures a.EqualsObject(b) == a.Equals(b)
    ensures !a.EqualsObject(null)
  {
    ClassNameInjective(a.owner.cls, b.owner.cls);
  }

  /** For compound owners, buckets that differ only in a constituent id are different. */
  lemma CompoundBucketsCompareConstituents(a: SensorBucket, b: SensorBucket)
    requires a.owner.Shaped() && b.owner.Shaped()
    requires a.owner.cls == CompoundHourOfDay && b.owner.cls == CompoundHourOfDay
    ensures a.Equals(b) ==> a.owner.sensor1.id == b.owner.sensor1.id && a.owner.sensor2.id == b.owner.sensor2.id
  {
  }

  /** A reading: a bucket, a value and a time stamp, produced fresh by every `Compute`. */
  class SensorReading {
    const bucket: SensorBucket
    const value: real
    const dateTime: DateTime

    constructor (bucket: SensorBucket, value: real, dateTime: DateTime)
      ensures this.bucket == bucket && this.value == value && this.dateTime == dateTime
    {
      this.bucket := bucket;
      this.value := value;
      this.dateTime := dateTime;
    }
  }

  /** Fresh buckets owned by `owner`: bucket i has index i and name `names[i]`. */
  method NewBuckets(owner: Sensor, names: seq<Option<string>>) returns (bs: seq<SensorBucket>)
    ensures |bs| == |names|
    ensures forall i :: 0 <= i < |bs| ==> bs[i].index == i && bs[i].name == names[i] && bs[i].owner == owner
    ensures forall i :: 0 <= i < |bs| ==> fresh(bs[i])
  {
    bs := [];
    var i := 0;
    while i < |names|
      invariant 0 <= i <= |names| && |bs| == i
      invariant forall j :: 0 <= j < i ==> bs[j].index == j && bs[j].name == names[j] && bs[j].owner == owner
      invariant forall j :: 0 <= j < i ==> fresh(bs[j])
    {
      var b := new SensorBucket(i, names[i], owner);
      bs := bs + [b];
      i := i + 1;
    }
  }

  /**
   * The behaviour of the classes whose source is not part of this model, as parameters:
   * each is a total function of the objects and the text it receives.
   */
  datatype Collaborators = Collaborators(
    platform: Platform,
    /** `ComputeSensor` of motion, light, kitchen-item and door sensors. */
    decide: (Sensor, string) -> Result<bool, Exn>,
    /** The bins `new ElectricitySensor()` installs, or `None` when it has no parameterless constructor. */
    electricityBins: Option<seq<Edge>>,
    /** Id and bucket names of `new CompoundHourOfDay(hourOfDay, sensor)`. */
    compoundLayout: (Sensor, Sensor) -> (Option<string>, seq<Option<string>>),
    /** `CompoundHourOfDay.Compute`: the position of the chosen bucket and the value. */
    compoundChoice: (Sensor, string) -> Result<(int, real), Exn>,
    /** `PreviousActivity.ComputeSensor`: the position of the chosen bucket. */
    previousChoice: (Sensor, string) -> Result<int, Exn>,
    previousActivityLayout: (Resident, seq<Activity>) -> (Option<string>, seq<Option<string>>))
}
