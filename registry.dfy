/**
 * The ordered registry of sensors behind `SensorSet`: a `SortedSet<Sensor>` kept in the
 * order of an unseen comparer, the bucket schema derived from it, and the two lazily
 * built caches of that schema.
 */
module Registries {
  import opened Wrappers
  import opened Runtime
  import opened Sensors

  /**
   * The comparer `SensorComparer`, which is not part of this model, as a "sorts before"
   * relation on the (Name, Id) identity of sensors: irreflexive and transitive. Sensors
   * it ranks neither way are equivalent, and a `SortedSet` keeps only one of them.
   */
  type SortKey = (string, Option<string>)
  type Order = (SortKey, SortKey) -> bool

  ghost predicate StrictOrder(less: Order)
  {
    && (forall a: SortKey :: !less(a, a))
    && (forall a: SortKey, b: SortKey, c: SortKey :: less(a, b) && less(b, c) ==> less(a, c))
  }

  /** Sensor a sorts before sensor b. */
  predicate Lt(less: Order, a: Sensor, b: Sensor)
  {
    less(a.HashKey(), b.HashKey())
  }

  predicate Equivalent(a: Sensor, b: Sensor, less: Order)
  {
    !Lt(less, a, b) && !Lt(less, b, a)
  }

  /** The registry is in strictly ascending comparer order. */
  ghost predicate Sorted(xs: seq<Sensor>, less: Order)
  {
    forall i, j :: 0 <= i < j < |xs| ==> Lt(less, xs[i], xs[j])
  }

  predicate HasEquivalent(xs: seq<Sensor>, s: Sensor, less: Order)
  {
    exists i :: 0 <= i < |xs| && Equivalent(xs[i], s, less)
  }

  /** `SortedSet.Add`: s goes in before the first sensor it sorts before, unless an equivalent one is there. */
  function Insert(xs: seq<Sensor>, s: Sensor, less: Order): seq<Sensor>
  {
    if xs == [] then [s]
    else if Lt(less, s, xs[0]) then [s] + xs
    else if Lt(less, xs[0], s) then [xs[0]] + Insert(xs[1..], s, less)
    else xs
  }

  /**
   * What insertion does to a sorted registry: with an equivalent sensor present nothing
   * changes; otherwise s lands at the position k that splits the registry into the
   * sensors before it and after it. Every bucket behind position k therefore moves.
   */
  lemma {:induction false} InsertAt(xs: seq<Sensor>, s: Sensor, less: Order) returns (k: nat)
    requires StrictOrder(less) && Sorted(xs, less)
    ensures HasEquivalent(xs, s, less) ==> Insert(xs, s, less) == xs
    ensures !HasEquivalent(xs, s, less) ==>
      && k <= |xs| && Insert(xs, s, less) == xs[..k] + [s] + xs[k..]
      && (forall i :: 0 <= i < k ==> Lt(less, xs[i], s))
      && (forall i :: k <= i < |xs| ==> Lt(less, s, xs[i]))
  {
    if xs == [] {
      k := 0;
    } else if Lt(less, s, xs[0]) {
      k := 0;
      forall i | 0 <= i < |xs|
        ensures Lt(less, s, xs[i])
      {
        if i > 0 {
          assert Lt(less, xs[0], xs[i]);
        }
      }
      assert xs[..0] + [s] + xs[0..] == [s] + xs;
    } else if Lt(less, xs[0], s) {
      var rest := xs[1..];
      TailSorted(xs, less);
      var k' := InsertAt(rest, s, less);
      TailEquivalent(xs, s, less);
      k := k' + 1;
      assert Insert(xs, s, less) == [xs[0]] + Insert(rest, s, less);
      if !HasEquivalent(xs, s, less) {
        ConsBounds(xs, rest, s, less, k');
      }
    } else {
      k := 0;
      assert Equivalent(xs[0], s, less);
    }
  }

  /** A sorted registry stays sorted without its first sensor. */
  lemma TailSorted(xs: seq<Sensor>, less: Order)
    requires xs != [] && Sorted(xs, less)
    ensures Sorted(xs[1..], less)
  {
    var rest := xs[1..];
    forall i, j | 0 <= i < j < |rest|
      ensures Lt(less, rest[i], rest[j])
    {
      assert rest[i] == xs[i + 1] && rest[j] == xs[j + 1];
    }
  }

  /** When the first sensor sorts before s, it is not the equivalent one. */
  lemma TailEquivalent(xs: seq<Sensor>, s: Sensor, less: Order)
    requires xs != [] && Lt(less, xs[0], s)
    ensures HasEquivalent(xs, s, less) <==> HasEquivalent(xs[1..], s, less)
  {
    var rest := xs[1..];
    if HasEquivalent(xs, s, less) {
      var i :| 0 <= i < |xs| && Equivalent(xs[i], s, less);
      assert i > 0 && rest[i - 1] == xs[i];
    }
    if HasEquivalent(rest, s, less) {
      var i :| 0 <= i < |rest| && Equivalent(rest[i], s, less);
      assert xs[i + 1] == rest[i];
    }
  }

  /** The split point of the tail, moved one up, splits the whole registry. */
  lemma ConsBounds(xs: seq<Sensor>, rest: seq<Sensor>, s: Sensor, less: Order, k': nat)
    requires xs != [] && rest == xs[1..] && Lt(less, xs[0], s) && k' <= |rest|
    requires forall i :: 0 <= i < k' ==> Lt(less, rest[i], s)
    requires forall i :: k' <= i < |rest| ==> Lt(less, s, rest[i])
    ensures [xs[0]] + (rest[..k'] + [s] + rest[k'..]) == xs[..k' + 1] + [s] + xs[k' + 1..]
    ensures forall i :: 0 <= i < k' + 1 ==> Lt(less, xs[i], s)
    ensures forall i :: k' + 1 <= i < |xs| ==> Lt(less, s, xs[i])
  {
    ConsSplice(xs, rest, s, k');
    forall i | 0 <= i < k' + 1
      ensures Lt(less, xs[i], s)
    {
      if i > 0 {
        assert xs[i] == rest[i - 1];
      }
    }
    forall i | k' + 1 <= i < |xs|
      ensures Lt(less, s, xs[i])
    {
      assert xs[i] == rest[i - 1];
    }
  }
  /** Splicing into the tail at k' is splicing into the whole at k' + 1. */
  lemma ConsSplice<T>(xs: seq<T>, rest: seq<T>, s: T, k': nat)
    requires xs != [] && rest == xs[1..] && k' <= |rest|
    ensures [xs[0]] + (rest[..k'] + [s] + rest[k'..]) == xs[..k' + 1] + [s] + xs[k' + 1..]
  {
    assert xs[..k' + 1] == [xs[0]] + rest[..k'];
    assert xs[k' + 1..] == rest[k'..];
  }


  /** Insertion keeps the registry sorted, adds at most s, and drops nothing. */
  lemma InsertKeepsOrder(xs: seq<Sensor>, s: Sensor, less: Order)
    requires StrictOrder(less) && Sorted(xs, less)
    ensures Sorted(Insert(xs, s, less), less)
    ensures HasEquivalent(xs, s, less) ==> Insert(xs, s, less) == xs
    ensures !HasEquivalent(xs, s, less) ==> |Insert(xs, s, less)| == |xs| + 1
    ensures forall x :: x in Insert(xs, s, less) <==> x in xs || (x == s && !HasEquivalent(xs, s, less))
  {
    var k := InsertAt(xs, s, less);
    if !HasEquivalent(xs, s, less) {
      SplicedKeepsOrder(xs, s, less, k);
    }
  }

  /** Splicing s in at a position where everything before is less and everything after greater. */
  lemma SplicedKeepsOrder(xs: seq<Sensor>, s: Sensor, less: Order, k: nat)
    requires StrictOrder(less) && Sorted(xs, less) && k <= |xs|
    requires forall i :: 0 <= i < k ==> Lt(less, xs[i], s)
    requires forall i :: k <= i < |xs| ==> Lt(less, s, xs[i])
    ensures Sorted(xs[..k] + [s] + xs[k..], less)
    ensures |xs[..k] + [s] + xs[k..]| == |xs| + 1
    ensures forall x :: x in xs[..k] + [s] + xs[k..] <==> x in xs || x == s
  {
    var ys := xs[..k] + [s] + xs[k..];
    SplicedAt(xs, s, k);
    forall i, j | 0 <= i < j < |ys|
      ensures Lt(less, ys[i], ys[j])
    {
      if j < k {
      } else if j == k {
      } else if i < k {
        assert Lt(less, xs[i], xs[j - 1]);
      } else if i == k {
      } else {
        assert Lt(less, xs[i - 1], xs[j - 1]);
      }
    }
  }

  /** Where the elements of xs and s sit once s is spliced in at k, and that nothing else is there. */
  lemma SplicedAt<T>(xs: seq<T>, s: T, k: nat)
    requires k <= |xs|
    ensures |xs[..k] + [s] + xs[k..]| == |xs| + 1
    ensures forall i :: 0 <= i < k ==> (xs[..k] + [s] + xs[k..])[i] == xs[i]
    ensures (xs[..k] + [s] + xs[k..])[k] == s
    ensures forall i :: k < i <= |xs| ==> (xs[..k] + [s] + xs[k..])[i] == xs[i - 1]
    ensures forall x :: x in xs[..k] + [s] + xs[k..] <==> x in xs || x == s
  {
    var ys := xs[..k] + [s] + xs[k..];
    forall x
      ensures x in ys <==> x in xs || x == s
    {
      assert x in ys <==> x in xs[..k] || x == s || x in xs[k..];
      assert xs == xs[..k] + xs[k..];
    }
  }

  /** `SelectMany(s => s.Buckets)`: every sensor's buckets, in registry order. */
  function Flatten(sensors: seq<Sensor>): seq<SensorBucket>
    reads sensors
  {
    if sensors == [] then [] else sensors[0].buckets + Flatten(sensors[1..])
  }

  /** `Sum(s => s.Count)`. */
  function VectorLength(sensors: seq<Sensor>): int
    reads sensors
  {
    if sensors == [] then 0 else sensors[0].Count() + VectorLength(sensors[1..])
  }

  /** The schema has exactly `SensorVectorLength` entries. */
  lemma {:induction false} FlattenLength(sensors: seq<Sensor>)
    ensures |Flatten(sensors)| == VectorLength(sensors)
  {
    if sensors != [] {
      FlattenLength(sensors[1..]);
    }
  }

  /** The schema of two registries side by side is the two schemas side by side. */
  lemma {:induction false} FlattenConcat(a: seq<Sensor>, b: seq<Sensor>)
    ensures Flatten(a + b) == Flatten(a) + Flatten(b)
  {
    if a == [] {
      assert a + b == b;
    } else {
      assert (a + b)[1..] == a[1..] + b;
      FlattenConcat(a[1..], b);
    }
  }

  /**
   * The schema around the sensor at position i: the buckets of the sensors before it,
   * then its own buckets starting at offset `VectorLength(sensors[..i])`, then the rest.
   */
  lemma FlattenAround(sensors: seq<Sensor>, i: nat)
    requires i < |sensors|
    ensures Flatten(sensors) == Flatten(sensors[..i]) + sensors[i].buckets + Flatten(sensors[i + 1..])
    ensures |Flatten(sensors[..i])| == VectorLength(sensors[..i])
  {
    assert sensors == sensors[..i] + sensors[i..];
    FlattenConcat(sensors[..i], sensors[i..]);
    FlattenLength(sensors[..i]);
    assert sensors[i..][1..] == sensors[i + 1..];
  }

  /**
   * Registering a sensor at position k splices its buckets into the schema there, so
   * the buckets of every later sensor move up by its bucket count.
   */
  lemma InsertShiftsSchema(xs: seq<Sensor>, s: Sensor, k: nat)
    requires k <= |xs|
    ensures Flatten(xs[..k] + [s] + xs[k..]) == Flatten(xs[..k]) + s.buckets + Flatten(xs[k..])
  {
    FlattenConcat(xs[..k] + [s], xs[k..]);
    FlattenConcat(xs[..k], [s]);
    assert Flatten([s]) == s.buckets + Flatten([]);
  }

  /** A schema with at least one bucket changes when a new sensor with buckets is registered. */
  lemma InsertChangesSchema(xs: seq<Sensor>, s: Sensor, less: Order)
    requires StrictOrder(less) && Sorted(xs, less)
    requires !HasEquivalent(xs, s, less) && |s.buckets| > 0
    ensures |Flatten(Insert(xs, s, less))| == |Flatten(xs)| + |s.buckets|
  {
    var k := InsertAt(xs, s, less);
    InsertShiftsSchema(xs, s, k);
    assert xs == xs[..k] + xs[k..];
    FlattenConcat(xs[..k], xs[k..]);
  }

  /** Every bucket's owner satisfies the typing the bucket key reads. */
  ghost predicate OwnersShaped(bs: seq<SensorBucket>)
  {
    forall i :: 0 <= i < |bs| ==> bs[i].owner.Shaped()
  }

  /** No two buckets of the schema are `Equals`, i.e. no two share a hash key. */
  predicate DistinctKeys(bs: seq<SensorBucket>)
    requires OwnersShaped(bs)
  {
    forall i, j :: 0 <= i < j < |bs| ==> bs[i].Key() != bs[j].Key()
  }

  function KeysOf(bs: seq<SensorBucket>): set<BucketKey>
    requires OwnersShaped(bs)
  {
    set i | 0 <= i < |bs| :: bs[i].Key()
  }

  /**
   * `SensorBuckets.Select((b, i) => new { b, i }).ToDictionary(p => p.b, p => p.i)`. The
   * dictionary hashes and compares buckets structurally, so a bucket `Equals` to an earlier
   * one makes `ToDictionary` throw an `ArgumentException`. `IndexMapSpec` states what it
   * computes.
   */
  function IndexMap(bs: seq<SensorBucket>): Result<map<BucketKey, int>, Exn>
    requires OwnersShaped(bs)
    decreases |bs|
  {
    if bs == [] then Ok(map[])
    else
      var init := bs[..|bs| - 1];
      var last := bs[|bs| - 1];
      InitKeys(bs);
      match IndexMap(init)
      case Err(e) => Err(e)
      case Ok(m) => if last.Key() in m then Err(Raise(ArgumentError)) else Ok(m[last.Key() := |bs| - 1])
  }

  /**
   * The dictionary exists exactly when no two buckets are `Equals`; it then has one entry
   * per bucket key, mapping every bucket to its position in the schema. Otherwise
   * `ToDictionary` throws an `ArgumentException`.
   */
  lemma {:induction false} IndexMapSpec(bs: seq<SensorBucket>)
    requires OwnersShaped(bs)
    ensures IndexMap(bs).Ok? <==> DistinctKeys(bs)
    ensures IndexMap(bs).Ok? ==> IndexMap(bs).value.Keys == KeysOf(bs)
    ensures IndexMap(bs).Ok? ==> forall i :: 0 <= i < |bs| ==> IndexMap(bs).value[bs[i].Key()] == i
    ensures IndexMap(bs).Err? ==> IndexMap(bs).error == Raise(ArgumentError)
    decreases |bs|
  {
    if bs != [] {
      var init := bs[..|bs| - 1];
      InitKeys(bs);
      InitDistinct(bs, init);
      IndexMapSpec(init);
      match IndexMap(init)
      case Err(_) =>
      case Ok(m) =>
        if bs[|bs| - 1].Key() !in m {
          ExtendIndex(bs, init, m);
        }
    }
  }

  /** Dropping the last bucket: what it does to typing and to the key set. */
  lemma InitKeys(bs: seq<SensorBucket>)
    requires bs != [] && OwnersShaped(bs)
    ensures OwnersShaped(bs[..|bs| - 1])
    ensures KeysOf(bs) == KeysOf(bs[..|bs| - 1]) + {bs[|bs| - 1].Key()}
  {
    var init := bs[..|bs| - 1];
    assert forall i :: 0 <= i < |init| ==> init[i] == bs[i];
    KeysOfInit(bs, init);
    KeysOfPrefix(bs, init);
  }

  /** Every key of the buckets is a key of all but the last, or the last one's. */
  lemma KeysOfInit(bs: seq<SensorBucket>, init: seq<SensorBucket>)
    requires bs != [] && init == bs[..|bs| - 1] && OwnersShaped(bs) && OwnersShaped(init)
    ensures KeysOf(bs) <= KeysOf(init) + {bs[|bs| - 1].Key()}
  {
    forall key | key in KeysOf(bs)
      ensures key in KeysOf(init) || key == bs[|bs| - 1].Key()
    {
      var i :| 0 <= i < |bs| && bs[i].Key() == key;
      if i < |init| {
        assert init[i] == bs[i];
      }
    }
  }

  /** The keys of a prefix are keys of the whole. */
  lemma KeysOfPrefix(bs: seq<SensorBucket>, init: seq<SensorBucket>)
    requires init <= bs && OwnersShaped(bs) && OwnersShaped(init)
    ensures KeysOf(init) <= KeysOf(bs)
  {
    forall key | key in KeysOf(init)
      ensures key in KeysOf(bs)
    {
      var i :| 0 <= i < |init| && init[i].Key() == key;
      assert bs[i] == init[i];
    }
  }

  /** The buckets have distinct keys iff the others do and the last one's key is new. */
  lemma InitDistinct(bs: seq<SensorBucket>, init: seq<SensorBucket>)
    requires bs != [] && init == bs[..|bs| - 1] && OwnersShaped(bs) && OwnersShaped(init)
    ensures DistinctKeys(bs) <==> DistinctKeys(init) && bs[|bs| - 1].Key() !in KeysOf(init)
  {
    if DistinctKeys(bs) {
      DistinctInit(bs, init);
    }
    if DistinctKeys(init) && bs[|bs| - 1].Key() !in KeysOf(init) {
      DistinctSnoc(bs, init);
    }
  }

  /** Distinct keys stay distinct without the last bucket, and none of them is the last one's. */
  lemma DistinctInit(bs: seq<SensorBucket>, init: seq<SensorBucket>)
    requires bs != [] && init == bs[..|bs| - 1] && OwnersShaped(bs) && OwnersShaped(init)
    requires DistinctKeys(bs)
    ensures DistinctKeys(init) && bs[|bs| - 1].Key() !in KeysOf(init)
  {
    forall i, j | 0 <= i < j < |init|
      ensures init[i].Key() != init[j].Key()
    {
      assert init[i] == bs[i] && init[j] == bs[j];
    }
    forall i | 0 <= i < |init|
      ensures init[i].Key() != bs[|bs| - 1].Key()
    {
      assert init[i] == bs[i];
    }
  }

  /** A last bucket with a new key keeps distinct keys distinct. */
  lemma DistinctSnoc(bs: seq<SensorBucket>, init: seq<SensorBucket>)
    requires bs != [] && init == bs[..|bs| - 1] && OwnersShaped(bs) && OwnersShaped(init)
    requires DistinctKeys(init) && bs[|bs| - 1].Key() !in KeysOf(init)
    ensures DistinctKeys(bs)
  {
    var last := |bs| - 1;
    forall i | 0 <= i < last
      ensures bs[i].Key() != bs[last].Key()
    {
      assert init[i] == bs[i];
      assert init[i].Key() in KeysOf(init);
    }
    forall i, j | 0 <= i < j < last
      ensures bs[i].Key() != bs[j].Key()
    {
      assert init[i] == bs[i] && init[j] == bs[j];
    }
  }


  /** Mapping the last bucket's key to its position extends an index of the others to all of them. */
  lemma ExtendIndex(bs: seq<SensorBucket>, init: seq<SensorBucket>, m: map<BucketKey, int>)
    requires bs != [] && init == bs[..|bs| - 1] && OwnersShaped(bs) && OwnersShaped(init)
    requires m.Keys == KeysOf(init) && bs[|bs| - 1].Key() !in m
    requires KeysOf(bs) == KeysOf(init) + {bs[|bs| - 1].Key()}
    requires forall i :: 0 <= i < |init| ==> init[i].Key() in m && m[init[i].Key()] == i
    ensures m[bs[|bs| - 1].Key() := |bs| - 1].Keys == KeysOf(bs)
    ensures forall i :: 0 <= i < |bs| ==> m[bs[|bs| - 1].Key() := |bs| - 1][bs[i].Key()] == i
  {
    forall i | 0 <= i < |bs|
      ensures bs[i].Key() in m[bs[|bs| - 1].Key() := |bs| - 1] && m[bs[|bs| - 1].Key() := |bs| - 1][bs[i].Key()] == i
    {
      ExtendIndexAt(bs, init, m, i);
    }
  }

  lemma ExtendIndexAt(bs: seq<SensorBucket>, init: seq<SensorBucket>, m: map<BucketKey, int>, i: int)
    requires bs != [] && init == bs[..|bs| - 1] && OwnersShaped(bs) && OwnersShaped(init)
    requires m.Keys == KeysOf(init) && bs[|bs| - 1].Key() !in m
    requires forall i :: 0 <= i < |init| ==> init[i].Key() in m && m[init[i].Key()] == i
    requires 0 <= i < |bs|
    ensures bs[i].Key() in m[bs[|bs| - 1].Key() := |bs| - 1] && m[bs[|bs| - 1].Key() := |bs| - 1][bs[i].Key()] == i
  {
    if i < |init| {
      assert init[i] == bs[i];
      assert bs[i].Key() in KeysOf(init);
    }
  }

  /** The buckets of a registry whose sensors are typed and own their buckets are typed too. */
  lemma {:induction false} FlattenOwnersShaped(sensors: seq<Sensor>)
    requires forall x :: x in sensors ==> x.Shaped() && OwnsBuckets(x)
    ensures OwnersShaped(Flatten(sensors))
    ensures forall b :: b in Flatten(sensors) ==> b.owner in sensors
  {
    if sensors != [] {
      FlattenOwnersShaped(sensors[1..]);
      var head := sensors[0].buckets;
      var bs := Flatten(sensors);
      assert bs == head + Flatten(sensors[1..]);
      forall i | 0 <= i < |bs|
        ensures bs[i].owner.Shaped() && bs[i].owner in sensors
      {
        if i < |head| {
          assert sensors[0] in sensors;
          assert bs[i] == head[i] && head[i].owner == sensors[0];
        } else {
          var tail := Flatten(sensors[1..]);
          assert bs[i] == tail[i - |head|] && tail[i - |head|] in tail;
          assert bs[i].owner in sensors[1..];
        }
      }
    }
  }

  /** `FirstOrDefault(p)`: the position of the first sensor satisfying p. */
  function FindFirst(xs: seq<Sensor>, p: Query): (r: Option<nat>)
    ensures r.Some? ==> r.value < |xs| && Matches(p, xs[r.value]) && forall j :: 0 <= j < r.value ==> !Matches(p, xs[j])
    ensures r.None? ==> forall j :: 0 <= j < |xs| ==> !Matches(p, xs[j])
  {
    if xs == [] then None
    else if Matches(p, xs[0]) then Some(0)
    else match FindFirst(xs[1..], p)
      case None => None
      case Some(k) => Some(k + 1)
  }

  /** The first-match search finds a match whenever there is one. */
  lemma FindFirstFinds(xs: seq<Sensor>, p: Query, x: Sensor)
    requires x in xs && Matches(p, x)
    ensures FindFirst(xs, p).Some?
  {
  }

  /** The tests the registry is searched with. */
  datatype Query =
    | IsClass(c: SensorClass)                          // `ia is T` for a runtime class T
    | SameSensor(c: SensorClass, id: Option<string>)   // `ia.GetType() == type && ia.Id == id`
    | CompoundOf(sensor: Sensor)                       // `ia is CompoundHourOfDay && ia.Sensor2 == sensor`, by reference

  predicate Matches(q: Query, x: Sensor)
  {
    match q
    case IsClass(c) => x.cls == c
    case SameSensor(c, id) => x.cls == c && x.id == id
    case CompoundOf(sensor) => x.cls == CompoundHourOfDay && x.sensor2 == sensor
  }

  /** The `AllReadings` lists of the registered sensors. */
  function Lists(sensors: seq<Sensor>): set<RealList>
    reads sensors
  {
    set x | x in sensors && x.allReadings != null :: x.allReadings
  }

  /** Registering a sensor adds at most its own reading list to the registry's lists. */
  lemma ListsOfInsert(xs: seq<Sensor>, s: Sensor, less: Order)
    requires StrictOrder(less) && Sorted(xs, less)
    ensures s.allReadings == null ==> Lists(Insert(xs, s, less)) <= Lists(xs)
    ensures s.allReadings != null ==> Lists(Insert(xs, s, less)) <= Lists(xs) + {s.allReadings}
  {
    InsertKeepsOrder(xs, s, less);
    forall l | l in Lists(Insert(xs, s, less))
      ensures l in Lists(xs) || l == s.allReadings
    {
      var x :| x in Insert(xs, s, less) && x.allReadings == l;
    }
  }
}
