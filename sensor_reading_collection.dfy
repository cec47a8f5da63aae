/**
 * `SensorReadingCollection`: a mutable set of readings (a `HashSet<SensorReading>`). Every
 * lookup by bucket compares buckets by reference.
 */
module SensorReadings {
  import opened Wrappers
  import opened Runtime
  import opened Sensors

  class SensorReadingCollection {
    var readings: set<SensorReading>

    /** An empty collection. */
    constructor ()
      ensures readings == {}
    {
      readings := {};
    }

    /** `new SensorReadingCollection(set)`: a new collection holding the same readings. */
    constructor Copy(source: SensorReadingCollection)
      ensures readings == source.readings
    {
      readings := source.readings;
    }

    /** `ContainsKey(b)`: some reading in the set is for the bucket object b. */
    predicate ContainsKey(b: SensorBucket)
      reads this
    {
      exists r :: r in readings && r.bucket == b
    }

    /**
     * The indexer: the value of a reading for bucket b. Which one is unspecified, as
     * `First` on a hash set enumerates in no particular order; without one it throws.
     */
    method Get(b: SensorBucket) returns (r: Result<real, Exn>)
      ensures r.Ok? <==> ContainsKey(b)
      ensures r.Ok? ==> exists x :: x in readings && x.bucket == b && x.value == r.value
      ensures r.Err? ==> r.error == Raise(InvalidOperation)
    {
      if x :| x in readings && x.bucket == b {
        r := Ok(x.value);
      } else {
        r := Err(Raise(InvalidOperation));
      }
    }

    /** `Add`: set insertion; true when the reading was not yet there. */
    method Add(x: SensorReading) returns (added: bool)
      modifies this
      ensures readings == old(readings) + {x}
      ensures added <==> x !in old(readings)
    {
      added := x !in readings;
      readings := readings + {x};
    }

    /**
     * `Remove(b)`: deletes exactly one reading for bucket b and keeps every other reading;
     * without one it throws and the set stays as it was.
     */
    method Remove(b: SensorBucket) returns (thrown: Option<Exn>)
      modifies this
      ensures old(ContainsKey(b)) ==>
        thrown.None? && exists x :: x in old(readings) && x.bucket == b && readings == old(readings) - {x}
      ensures !old(ContainsKey(b)) ==> thrown == Some(Raise(InvalidOperation)) && readings == old(readings)
    {
      if x :| x in readings && x.bucket == b {
        readings := readings - {x};
        thrown := None;
      } else {
        thrown := Some(Raise(InvalidOperation));
      }
    }

    /** `RemoveAll(p)`: deletes exactly the readings satisfying p and says how many there were. */
    method RemoveAll(p: SensorReading -> bool) returns (removed: nat)
      modifies this
      ensures readings == set x | x in old(readings) && !p(x)
      ensures removed == |old(readings)| - |readings|
    {
      var kept := set x | x in readings && !p(x);
      assert kept <= readings;
      SubsetSize(kept, readings);
      removed := |readings| - |kept|;
      readings := kept;
    }
  }

  /** A subset is no larger than its superset. */
  lemma SubsetSize<T>(a: set<T>, b: set<T>)
    requires a <= b
    ensures |a| <= |b|
  {
    assert b == a + (b - a);
  }

  /** The readings whose bucket is owned by a sensor of class `c`. */
  function OfClass(readings: set<SensorReading>, c: SensorClass): (r: set<SensorReading>)
    ensures r <= readings
    ensures forall x :: x in readings ==> (x in r <==> x.bucket.owner.cls == c)
  {
    set x | x in readings && x.bucket.owner.cls == c
  }

  /**
   * Removing one reading for a bucket, as `Remove` does, lowers the count by one and
   * leaves every reading of the other buckets in place.
   */
  lemma RemoveOneKeepsOthers(readings: set<SensorReading>, x: SensorReading)
    requires x in readings
    ensures |readings - {x}| == |readings| - 1
    ensures forall y :: y in readings && y.bucket != x.bucket ==> y in readings - {x}
  {
  }
}
