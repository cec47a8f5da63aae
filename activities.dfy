/**
 * An activity label. Activities compare by `Name` only; `Index` and `Resident` are ignored.
 */
module Activities {
  import opened Wrappers
  import opened Runtime
  import opened Residents

  datatype Activity = Activity(name: Option<string>, index: Int32, resident: Option<Resident>)
  {
    /** `Equals(Activity other)`: the other activity exists and has the same name. */
    predicate Equals(other: Option<Activity>)
    {
      other.Some? && name == other.value.name
    }

    /**
     * `GetHashCode()`: the hash of the name alone. With a null name the call dereferences
     * null and throws.
     */
    function HashKey(): (k: Result<string, Exn>)
      ensures k.Ok? <==> name.Some?
      ensures k.Ok? ==> k.value == name.value
      ensures k.Err? ==> k.error.kind == NullReference
    {
      if name.None? then Err(Raise(NullReference)) else Ok(name.value)
    }
  }

  /** The parameterless constructor: no name, no resident, and the nonsensical index `int.MinValue`. */
  const Default: Activity := Activity(None, IntMin, None)

  /** `Activity.Unknown`: name "Unknown", index -1. */
  const Unknown: Activity := Activity(Some("Unknown"), -1, None)

  /** An activity with the given name, as `new Activity { Name = name, Index = index }` makes it. */
  function Named(name: string, index: Int32): (a: Activity)
    ensures a.name == Some(name) && a.index == index && a.resident.None?
  {
    Activity(Some(name), index, None)
  }

  /** `operator ==`: two null references are equal; otherwise the left one's `Equals`. */
  predicate Eq(a1: Option<Activity>, a2: Option<Activity>)
  {
    if a1.None? then a2.None? else a1.value.Equals(a2)
  }

  /** `operator !=`. */
  predicate NotEq(a1: Option<Activity>, a2: Option<Activity>)
  {
    !Eq(a1, a2)
  }

  /** `==` holds exactly when both are null, or both exist with the same name. */
  lemma EqMeansSameName(a1: Option<Activity>, a2: Option<Activity>)
    ensures Eq(a1, a2) <==> (a1.None? && a2.None?) || (a1.Some? && a2.Some? && a1.value.name == a2.value.name)
    ensures NotEq(a1, a2) <==> !Eq(a1, a2)
  {
  }

  /** `==` is an equivalence on possibly-null activities; index and resident play no part. */
  lemma EqIsEquivalence(a1: Option<Activity>, a2: Option<Activity>, a3: Option<Activity>)
    ensures Eq(a1, a1)
    ensures Eq(a1, a2) ==> Eq(a2, a1)
    ensures Eq(a1, a2) && Eq(a2, a3) ==> Eq(a1, a3)
    ensures a1.Some? ==> Eq(a1, Some(a1.value.(index := IntMin, resident := None)))
  {
  }

  /** Equal activities hash alike (both throw when the shared name is null). */
  lemma HashAgreesWithEquals(a1: Activity, a2: Activity)
    ensures a1.Equals(Some(a2)) ==> a1.HashKey() == a2.HashKey()
  {
  }

  /** No activity equals a null reference; `Unknown` equals exactly the activities named "Unknown". */
  lemma UnknownEquality(a: Activity)
    ensures !a.Equals(None)
    ensures Unknown.Equals(Some(a)) <==> a.name == Some("Unknown")
    ensures Default.HashKey().Err?
  {
  }
}
