/**
 * `BinaryAnd`: a binary sensor that is on when both of its binary constituents are. It
 * configures a single bucket, so the OFF bucket the inherited `Compute` asks for is missing.
 */
module BinaryAnds {
  import opened Wrappers
  import opened Runtime
  import opened Sensors
  import BinarySensors

  /** The bucket name and description "d1 AND d2" from the constituents' descriptions. */
  function Conjunction(s1: Sensor, s2: Sensor): string
    reads s1, s2
  {
    Str(s1.description) + " AND " + Str(s2.description)
  }

  /**
   * `BinaryAnd.Configure`: one bucket, index 0, named after both constituents. With a
   * constituent missing (the parameterless constructor) it dereferences null and throws,
   * leaving the sensor as it was.
   */
  method Configure(s: Sensor) returns (thrown: Option<Exn>)
    requires s.cls == BinaryAnd
    modifies s
    ensures thrown.Some? <==> s.sensor1 == null || s.sensor2 == null
    ensures thrown.Some? ==> thrown.value.kind == NullReference && s.buckets == old(s.buckets)
    ensures thrown.None? ==>
      && |s.buckets| == 1 && fresh(s.buckets[0]) && s.buckets[0].index == 0
      && s.buckets[0].owner == s && s.buckets[0].name == Some(Conjunction(s.sensor1, s.sensor2))
    ensures s.Props() == old(s.Props())
  {
    if s.sensor1 == null || s.sensor2 == null {
      return Some(Raise(NullReference));
    }
    var b := new SensorBucket(0, Some(Conjunction(s.sensor1, s.sensor2)), s);
    s.buckets := [b];
    return None;
  }

  /**
   * `new BinaryAnd(sensor1, sensor2)`: stores both constituents, sets `Description` to
   * "d1 AND d2" and configures the one bucket of the same name.
   */
  method New(sensor1: Sensor, sensor2: Sensor) returns (s: Sensor)
    requires sensor1.Shaped() && sensor2.Shaped()
    requires IsBinaryClass(sensor1.cls) && IsBinaryClass(sensor2.cls)
    ensures fresh(s) && s.Shaped() && s.cls == BinaryAnd && s.id.None?
    ensures s.sensor1 == sensor1 && s.sensor2 == sensor2
    ensures s.description == Some(Conjunction(sensor1, sensor2))
    ensures |s.buckets| == 1 && fresh(s.buckets[0]) && s.buckets[0].index == 0 && s.buckets[0].owner == s
    ensures s.buckets[0].name == s.description
  {
    s := new Sensor(BinaryAnd, None, sensor1, sensor2);
    s.description := Some(Conjunction(sensor1, sensor2));
    var thrown := Configure(s);
  }

  /** `BucketNames`: the names of the buckets, in order. */
  function BucketNames(s: Sensor): (names: seq<Option<string>>)
    reads s
    ensures |names| == |s.buckets|
    ensures forall i :: 0 <= i < |names| ==> names[i] == s.buckets[i].name
  {
    s.SensorNames()
  }

  /**
   * `ComputeSensor` is the short-circuit conjunction: a false first decision is final, and
   * otherwise the result is the second constituent's decision.
   */
  lemma DecideIsConjunction(s: Sensor, reading: string, env: Collaborators)
    requires s.Shaped() && s.cls == BinaryAnd && s.sensor1 != null && s.sensor2 != null
    ensures BinarySensors.Decide(s.sensor1, reading, env) == Ok(false) ==> BinarySensors.Decide(s, reading, env) == Ok(false)
    ensures BinarySensors.Decide(s.sensor1, reading, env) == Ok(true) ==>
      BinarySensors.Decide(s, reading, env) == BinarySensors.Decide(s.sensor2, reading, env)
    ensures BinarySensors.Decide(s.sensor1, reading, env).Err? ==>
      BinarySensors.Decide(s, reading, env) == BinarySensors.Decide(s.sensor1, reading, env)
    ensures BinarySensors.Decide(s, reading, env) == Ok(true) <==>
      BinarySensors.Decide(s.sensor1, reading, env) == Ok(true) && BinarySensors.Decide(s.sensor2, reading, env) == Ok(true)
  {
  }

  /**
   * With its single bucket, a `BinaryAnd` whose conjunction is false cannot report: the
   * inherited `Compute` indexes `Buckets[1]` and throws.
   */
  lemma FalseConjunctionFails(s: Sensor, reading: string, env: Collaborators)
    requires s.Shaped() && s.cls == BinaryAnd && |s.buckets| == 1
    requires BinarySensors.Decide(s, reading, env) == Ok(false)
    ensures BinarySensors.Choose(s, reading, env) == Err(Raise(ArgumentOutOfRange))
  {
  }
}
