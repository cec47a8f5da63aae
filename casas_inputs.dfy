/**
 * `CasasInputs`: the fixed activity table, the residents "R1" to "Rn", and the size of
 * the feature vector of the chosen sensor set.
 */
module Inputs {
  import opened Wrappers
  import opened Runtime
  import opened Text
  import opened Residents
  import opened Activities
  import opened Sensors
  import opened Registries
  import opened SensorSets
  import opened Instances

  /** The activity names, in declaration order. */
  const ActivityTable: seq<string> := [
    "WanderingInRoom", "Sleep", "BedToToilet", "PersonalHygiene", "Bathing", "Work",
    "MealPreparation", "LeaveHome", "Eating", "EnterHome", "WatchTv", "Housekeeping"]

  /** A strict total order on T: irreflexive, transitive, and any two values compare. */
  ghost predicate StrictTotal<T(!new)>(lt: (T, T) -> bool)
  {
    && (forall a: T :: !lt(a, a))
    && (forall a: T, b: T, c: T :: lt(a, b) && lt(b, c) ==> lt(a, c))
    && (forall a: T, b: T :: a == b || lt(a, b) || lt(b, a))
  }

  /** Ascending (possibly with repeats): no later element sorts before an earlier one. */
  ghost predicate Ascending<T>(xs: seq<T>, lt: (T, T) -> bool)
  {
    forall i, j :: 0 <= i < j < |xs| ==> !lt(xs[j], xs[i])
  }

  /** Inserts x after every element that does not sort after it. */
  function InsertBy<T>(x: T, xs: seq<T>, lt: (T, T) -> bool): (r: seq<T>)
    ensures multiset(r) == multiset(xs) + multiset{x}
    ensures |r| == |xs| + 1
  {
    if xs == [] then [x]
    else if lt(x, xs[0]) then [x] + xs
    else
      assert xs == [xs[0]] + xs[1..];
      [xs[0]] + InsertBy(x, xs[1..], lt)
  }

  /** Insertion into an ascending list keeps it ascending. */
  lemma {:induction false} InsertByKeepsAscending<T(!new)>(x: T, xs: seq<T>, lt: (T, T) -> bool)
    requires StrictTotal(lt) && Ascending(xs, lt)
    ensures Ascending(InsertBy(x, xs, lt), lt)
  {
    if xs == [] {
    } else if lt(x, xs[0]) {
      forall y | y in xs
        ensures !lt(y, x)
      {
        var k :| 0 <= k < |xs| && xs[k] == y;
        if k > 0 {
          assert !lt(xs[k], xs[0]);
        }
      }
      ConsAscending(x, xs, lt);
    } else {
      var tail := InsertBy(x, xs[1..], lt);
      InsertByKeepsAscending(x, xs[1..], lt);
      HeadBelowInserted(x, xs, lt);
      ConsAscending(xs[0], tail, lt);
    }
  }

  /** An ascending list stays ascending behind a head that nothing in it sorts before. */
  lemma ConsAscending<T>(h: T, tail: seq<T>, lt: (T, T) -> bool)
    requires Ascending(tail, lt)
    requires forall y :: y in tail ==> !lt(y, h)
    ensures Ascending([h] + tail, lt)
  {
    var r := [h] + tail;
    forall i, j | 0 <= i < j < |r|
      ensures !lt(r[j], r[i])
    {
      assert r[j] == tail[j - 1];
      if i > 0 {
        assert r[i] == tail[i - 1];
      }
    }
  }

  /** When x does not sort before the head, nothing in the rest with x inserted sorts before the head. */
  lemma HeadBelowInserted<T>(x: T, xs: seq<T>, lt: (T, T) -> bool)
    requires Ascending(xs, lt) && xs != [] && !lt(x, xs[0])
    ensures forall y :: y in InsertBy(x, xs[1..], lt) ==> !lt(y, xs[0])
  {
    var tail := InsertBy(x, xs[1..], lt);
    forall y | y in tail
      ensures !lt(y, xs[0])
    {
      assert y in multiset(tail);
      if y != x {
        assert y in multiset(xs[1..]);
        var k :| 0 <= k < |xs[1..]| && xs[1..][k] == y;
        assert xs[k + 1] == y;
      }
    }
  }

  /**
   * `OrderBy(key => key)` as an insertion sort. Under a strict total order two elements are
   * unordered only when they are equal, so the ascending permutation is unique.
   */
  function SortBy<T(!new)>(xs: seq<T>, lt: (T, T) -> bool): (r: seq<T>)
    requires StrictTotal(lt)
    ensures multiset(r) == multiset(xs) && |r| == |xs|
    ensures Ascending(r, lt)
  {
    if xs == [] then []
    else
      var init := xs[..|xs| - 1];
      InsertByKeepsAscending(xs[|xs| - 1], SortBy(init, lt), lt);
      assert xs == init + [xs[|xs| - 1]];
      InsertBy(xs[|xs| - 1], SortBy(init, lt), lt)
  }

  /** `string.CompareOrdinal(a, b) < 0` as a function value. */
  function Ordinal(): (string, string) -> bool
  {
    (a: string, b: string) => OrdinalLess(a, b)
  }

  /** The ordinal order on strings is a strict total order. */
  lemma OrdinalIsStrictTotal()
    ensures StrictTotal(Ordinal())
  {
    forall a: string
      ensures !OrdinalLess(a, a)
    {
      OrdinalLessIrreflexive(a);
    }
    forall a: string, b: string, c: string | OrdinalLess(a, b) && OrdinalLess(b, c)
      ensures OrdinalLess(a, c)
    {
      OrdinalLessTransitive(a, b, c);
    }
    forall a: string, b: string
      ensures a == b || OrdinalLess(a, b) || OrdinalLess(b, a)
    {
      OrdinalLessTotal(a, b);
    }
  }

  /** The name of resident k (counting from 0): `string.Format("R{0}", k + 1)`. */
  function ResidentName(k: nat): (s: string)
    ensures |s| > 1 && s[0] == 'R'
  {
    "R" + NatToString(k + 1)
  }

  /** Different residents have different names, and none is called "Unknown". */
  lemma ResidentNamesDistinct(k: nat, m: nat)
    ensures k != m ==> ResidentName(k) != ResidentName(m)
    ensures ResidentName(k) != "Unknown"
  {
    if ResidentName(k) == ResidentName(m) {
      assert ResidentName(k)[1..] == NatToString(k + 1);
      assert ResidentName(m)[1..] == NatToString(m + 1);
      NatToStringInjective(k + 1, m + 1);
    }
  }

  class CasasInputs {
    const activities: seq<string>
    var numberOfResidents: Int32
    var sensorSet: SensorSet?
    var trainInstances: seq<Instance>
    var testInstances: seq<Instance>
    var name: Option<string>

    /** `new CasasInputs()`: no residents, no sensor set, empty instance lists. */
    constructor ()
      ensures activities == ActivityTable
      ensures numberOfResidents == 0 && sensorSet == null && name.None?
      ensures trainInstances == [] && testInstances == []
    {
      activities := ActivityTable;
      numberOfResidents := 0;
      sensorSet := null;
      trainInstances := [];
      testInstances := [];
      name := None;
    }

    /**
     * `GetResidents(includeUnknown)`: residents "R1" to "Rn" with indices 0 to n-1, after
     * `Resident.Unknown` when asked for. `Enumerable.Range` throws for a negative count.
     */
    function GetResidents(includeUnknown: bool): (r: Result<seq<Resident>, Exn>)
      reads this
      ensures r.Err? <==> numberOfResidents < 0
      ensures r.Err? ==> r.error == Raise(ArgumentOutOfRange)
      ensures r.Ok? ==> |r.value| == numberOfResidents + (if includeUnknown then 1 else 0)
      ensures r.Ok? && includeUnknown ==> r.value[0] == Residents.Unknown && Ok(r.value[1..]) == GetResidents(false)
      ensures r.Ok? ==> var off := if includeUnknown then 1 else 0;
        forall k :: 0 <= k < numberOfResidents ==> r.value[off + k] == Resident(Some(ResidentName(k)), k)
    {
      if numberOfResidents < 0 then Err(Raise(ArgumentOutOfRange))
      else
        var n := numberOfResidents;
        var residents := seq(n, k requires 0 <= k < n => Resident(Some(ResidentName(k)), k));
        if includeUnknown then Ok([Residents.Unknown] + residents) else Ok(residents)
    }

    /** `Residents`: n residents, pairwise unequal by `Equals`, none of them `Unknown`. */
    function ResidentsList(): (r: Result<seq<Resident>, Exn>)
      reads this
      ensures r.Err? <==> numberOfResidents < 0
      ensures r.Ok? ==> |r.value| == numberOfResidents
      ensures r.Ok? ==> forall k :: 0 <= k < |r.value| ==> r.value[k].name == Some(ResidentName(k)) && r.value[k].index == k
      ensures r.Ok? ==> forall k :: 0 <= k < |r.value| ==> !Residents.Unknown.Equals(Some(r.value[k]))
      ensures r.Ok? ==> forall k, m :: 0 <= k < m < |r.value| ==> !r.value[k].Equals(Some(r.value[m]))
    {
      var r := GetResidents(false);
      if r.Ok? then
        assert forall k, m :: 0 <= k < m < |r.value| ==> ResidentName(k) != ResidentName(m) by {
          forall k, m | 0 <= k < m < |r.value| { ResidentNamesDistinct(k, m); }
        }
        assert forall k :: 0 <= k < |r.value| ==> ResidentName(k) != "Unknown" by {
          forall k | 0 <= k < |r.value| { ResidentNamesDistinct(k, k); }
        }
        r
      else r
    }

    /** The activity names in ascending order: the sort key is the name itself. */
    function SortedActivityNames(): (names: seq<string>)
      ensures |names| == |activities| && multiset(names) == multiset(activities)
      ensures forall i, j :: 0 <= i < j < |names| ==> !OrdinalLess(names[j], names[i])
    {
      OrdinalIsStrictTotal();
      SortBy(activities, Ordinal())
    }

    /**
     * `GetActivities(includeUnknown)`: the activities named in ascending order, each with
     * its position as `Index`, after `Activity.Unknown` when asked for.
     */
    function GetActivities(includeUnknown: bool): (r: seq<Activity>)
      requires |activities| <= IntMax
      ensures |r| == |activities| + (if includeUnknown then 1 else 0)
      ensures includeUnknown ==> r[0] == Activities.Unknown && r[1..] == GetActivities(false)
      ensures var off := if includeUnknown then 1 else 0;
        forall i :: 0 <= i < |activities| ==> r[off + i] == Named(SortedActivityNames()[i], i)
    {
      var names := SortedActivityNames();
      var a := seq(|names|, i requires 0 <= i < |names| => Named(names[i], i));
      if includeUnknown then [Activities.Unknown] + a else a
    }

    /** `Activities`: one activity per table name, ascending by name, with its position as index. */
    function ActivitiesList(): (r: seq<Activity>)
      requires |activities| <= IntMax
      ensures |r| == |activities|
      ensures forall i :: 0 <= i < |r| ==> r[i].name.Some? && r[i].index == i && r[i].resident.None?
      ensures multiset(seq(|r|, i requires 0 <= i < |r| => r[i].name.value)) == multiset(activities)
      ensures forall i, j :: 0 <= i < j < |r| ==> !OrdinalLess(r[j].name.value, r[i].name.value)
    {
      var r := GetActivities(false);
      assert seq(|r|, i requires 0 <= i < |r| => r[i].name.value) == SortedActivityNames();
      r
    }

    /** `SensorCount`: -1 without a sensor set, else the length of its feature vector. */
    function SensorCount(): (n: int)
      reads this, sensorSet, if sensorSet == null then [] else sensorSet.sensors
      ensures sensorSet == null ==> n == -1
      ensures sensorSet != null ==> n == |Flatten(sensorSet.sensors)|
    {
      if sensorSet == null then -1 else sensorSet.SensorVectorLength()
    }
  }
}
