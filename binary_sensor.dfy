/**
 * `BinarySensor`: two buckets, ON (index 0) and OFF (index 1). `ComputeSensor` is the
 * virtual decision each binary class supplies; `Compute` picks a bucket from it and
 * always reports the value 1.0.
 */
module BinarySensors {
  import opened Wrappers
  import opened Runtime
  import opened Sensors
  import ExperimenterSwitches

  /**
   * `ComputeSensor`, dispatched on the runtime class: the experimenter switch parses its
   * state, `BinaryAnd` is the short-circuit conjunction of its constituents' decisions
   * (a null constituent is dereferenced and throws), and the other binary classes are
   * collaborators.
   */
  function Decide(s: Sensor, reading: string, env: Collaborators): Result<bool, Exn>
    requires s.Shaped() && IsBinaryClass(s.cls)
    decreases s.depth
  {
    if s.cls == ExperimenterSwitch then ExperimenterSwitches.ComputeSensor(reading)
    else if s.cls == BinaryAnd then
      if s.sensor1 == null then Err(Raise(NullReference))
      else match Decide(s.sensor1, reading, env)
        case Err(e) => Err(e)
        case Ok(first) =>
          if !first then Ok(false)
          else if s.sensor2 == null then Err(Raise(NullReference))
          else Decide(s.sensor2, reading, env)
    else env.decide(s, reading)
  }

  /**
   * The bucket `Compute` reports: `Buckets[0]` when the decision is true, `Buckets[1]`
   * when it is false; a missing bucket is an `ArgumentOutOfRangeException`.
   */
  function Choose(s: Sensor, reading: string, env: Collaborators): (r: Result<SensorBucket, Exn>)
    reads s
    requires s.Shaped() && IsBinaryClass(s.cls)
    ensures r.Ok? <==> Decide(s, reading, env).Ok? && |s.buckets| > (if Decide(s, reading, env).value then 0 else 1)
    ensures r.Ok? ==> r.value == s.buckets[if Decide(s, reading, env).value then 0 else 1]
    ensures Decide(s, reading, env).Err? ==> r == Err(Decide(s, reading, env).error)
  {
    match Decide(s, reading, env)
    case Err(e) => Err(e)
    case Ok(on) =>
      var i := if on then 0 else 1;
      if i < |s.buckets| then Ok(s.buckets[i]) else Err(Raise(ArgumentOutOfRange))
  }

  /**
   * `BinarySensor.Configure`: `Description` becomes Name + Id and the buckets become
   * "<Type>-ON" at index 0 and "<Type>-OFF" at index 1, both owned by this sensor.
   */
  method Configure(s: Sensor)
    modifies s
    ensures s.Props() == old(s.Props()).(description := Some(s.Name() + Str(s.id)))
    ensures |s.buckets| == 2 && fresh(s.buckets[0]) && fresh(s.buckets[1]) && s.buckets[0] != s.buckets[1]
    ensures s.buckets[0].index == 0 && s.buckets[0].name == Some(s.Name() + "-ON") && s.buckets[0].owner == s
    ensures s.buckets[1].index == 1 && s.buckets[1].name == Some(s.Name() + "-OFF") && s.buckets[1].owner == s
  {
    s.description := Some(s.Name() + Str(s.id));
    var on := new SensorBucket(0, Some(s.Name() + "-ON"), s);
    var off := new SensorBucket(1, Some(s.Name() + "-OFF"), s);
    s.buckets := [on, off];
  }

  /** After `Configure` a binary sensor always finds its bucket: ON for true, OFF for false. */
  lemma ChooseAfterConfigure(s: Sensor, reading: string, env: Collaborators)
    requires s.Shaped() && IsBinaryClass(s.cls) && |s.buckets| == 2
    ensures Decide(s, reading, env) == Ok(true) ==> Choose(s, reading, env) == Ok(s.buckets[0])
    ensures Decide(s, reading, env) == Ok(false) ==> Choose(s, reading, env) == Ok(s.buckets[1])
    ensures Choose(s, reading, env).Err? <==> Decide(s, reading, env).Err?
  {
  }
}
