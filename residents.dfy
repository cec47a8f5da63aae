/**
 * A resident of the home. Residents compare by `Name` only; a null resident reference is
 * `None` and a null name is `None` as well.
 */
module Residents {
  import opened Wrappers
  import opened Runtime

  datatype Resident = Resident(name: Option<string>, index: Int32)
  {
    /** `Equals(Resident other)`: the other resident exists and has the same name. */
    predicate Equals(other: Option<Resident>)
    {
      other.Some? && name == other.value.name
    }

    /** The values `GetHashCode` combines: exactly the name (null-safe). */
    function HashKey(): (k: Option<string>)
      ensures k == name
    {
      name
    }

    /** `ToString()`: the name. */
    function ToString(): (s: Option<string>)
      ensures s == name
    {
      name
    }
  }

  /** A resident created with no properties set: null name, index 0. */
  const Default: Resident := Resident(None, 0)

  /** `Resident.Unknown`: name "Unknown", index -1. */
  const Unknown: Resident := Resident(Some("Unknown"), -1)

  /** `operator ==`: two null references are equal; otherwise the left one's `Equals`. */
  predicate Eq(r1: Option<Resident>, r2: Option<Resident>)
  {
    if r1.None? then r2.None? else r1.value.Equals(r2)
  }

  /** `operator !=`. */
  predicate NotEq(r1: Option<Resident>, r2: Option<Resident>)
  {
    !Eq(r1, r2)
  }

  /** `==` holds exactly when both are null, or both exist with the same name. */
  lemma EqMeansSameName(r1: Option<Resident>, r2: Option<Resident>)
    ensures Eq(r1, r2) <==> (r1.None? && r2.None?) || (r1.Some? && r2.Some? && r1.value.name == r2.value.name)
    ensures NotEq(r1, r2) <==> !Eq(r1, r2)
  {
  }

  /** `==` is an equivalence on possibly-null residents; the index plays no part. */
  lemma EqIsEquivalence(r1: Option<Resident>, r2: Option<Resident>, r3: Option<Resident>)
    ensures Eq(r1, r1)
    ensures Eq(r1, r2) ==> Eq(r2, r1)
    ensures Eq(r1, r2) && Eq(r2, r3) ==> Eq(r1, r3)
    ensures r1.Some? ==> Eq(r1, Some(r1.value.(index := 0)))
  {
  }

  /** Equal residents hash alike. */
  lemma HashAgreesWithEquals(r1: Resident, r2: Resident)
    ensures r1.Equals(Some(r2)) ==> r1.HashKey() == r2.HashKey()
    ensures r1.Equals(Some(r2)) <==> r1.HashKey() == r2.HashKey()
  {
  }

  /** Two residents print alike exactly when they are equal. */
  lemma ToStringAgreesWithEquals(r1: Resident, r2: Resident)
    ensures r1.ToString() == r2.ToString() <==> r1.Equals(Some(r2))
    ensures r1.ToString() == r2.ToString() <==> Eq(Some(r1), Some(r2))
  {
  }

  /** No resident equals a null reference, and `Unknown` equals exactly the residents named "Unknown". */
  lemma UnknownEquality(r: Resident)
    ensures !r.Equals(None)
    ensures Unknown.Equals(Some(r)) <==> r.name == Some("Unknown")
  {
  }
}
