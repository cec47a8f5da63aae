/**
 * `ExperimenterSwitch`: a binary sensor whose reading names a state of the
 * `ExperimenterSwitchState` enumeration, matched ignoring case.
 */
module ExperimenterSwitches {
  import opened Wrappers
  import opened Runtime
  import opened Text
  import opened Utils

  /** `Enum.GetNames(typeof(ExperimenterSwitchState))`, in declaration order. */
  const StateNames: seq<string> := ["Close", "Open"]

  /** The enumeration value of `Open`. */
  const Open: nat := 1

  /** `ComputeSensor`: whether the reading parses to `Open`. */
  function ComputeSensor(reading: string): Result<bool, Exn>
  {
    match ParseEnum(StateNames, reading)
    case Ok(k) => Ok(k == Open)
    case Err(e) => Err(e)
  }

  /** `BucketNames`: the state names, in enumeration order. */
  function BucketNames(): (names: seq<string>)
    ensures names == ["Close", "Open"]
  {
    StateNames
  }

  /**
   * The switch is on exactly for "open" in any case, off exactly for "close" in any
   * case, and any other reading makes `Enum.Parse` throw.
   */
  lemma ComputeSensorMeaning(reading: string)
    ensures ComputeSensor(reading) == Ok(true) <==> EqualsIgnoreCase(reading, "Open")
    ensures ComputeSensor(reading) == Ok(false) <==> EqualsIgnoreCase(reading, "Close")
    ensures ComputeSensor(reading).Err? <==> !EqualsIgnoreCase(reading, "Open") && !EqualsIgnoreCase(reading, "Close")
    ensures ComputeSensor(reading).Err? ==> ComputeSensor(reading).error.kind == ArgumentError
  {
    EqualsIgnoreCaseIsEquivalence(reading, "Open", "Close");
    EqualsIgnoreCaseIsEquivalence(reading, "Close", "Open");
    EqualsIgnoreCaseIsEquivalence("Open", reading, "Close");
    EqualsIgnoreCaseIsEquivalence("Close", reading, "Open");
    assert !EqualsIgnoreCase("Close", "Open");
    var close := EqualsIgnoreCase("Close", reading);
    var open := EqualsIgnoreCase("Open", reading);
    assert StateNames[1..] == ["Open"] && ["Open"][1..] == [];
    var none := ParseEnum([], reading);
    assert none == Err(Raise(ArgumentError));
    var tail := ParseEnum(["Open"], reading);
    assert !open ==> tail == none;
    assert tail == if open then Ok(0) else Err(Raise(ArgumentError));
    assert ParseEnum(StateNames, reading) == if close then Ok(0) else if open then Ok(1) else Err(Raise(ArgumentError));
  }

  lemma ComputeSensorExamples()
    ensures ComputeSensor("OPEN") == Ok(true)
    ensures ComputeSensor("close") == Ok(false)
    ensures ComputeSensor("ajar").Err?
  {
    assert EqualsIgnoreCase("OPEN", "Open");
    ComputeSensorMeaning("OPEN");
    assert EqualsIgnoreCase("close", "Close");
    ComputeSensorMeaning("close");
    assert !EqualsIgnoreCase("ajar", "Open") by { assert Upper("ajar"[0]) != Upper("Open"[0]); }
    assert !EqualsIgnoreCase("ajar", "Close") by { assert |"ajar"| != |"Close"|; }
    ComputeSensorMeaning("ajar");
  }
}
