/**
 * The parts of the .NET runtime that the sensor engine calls but that are not part of
 * this model: date and number parsing, and the exceptions the runtime throws.
 */
module Runtime {
  import opened Wrappers

  /** 32-bit signed integers (C# `int`). */
  const IntMin: int := -0x8000_0000
  const IntMax: int := 0x7FFF_FFFF
  type Int32 = x: int | IntMin <= x <= IntMax

  /** An hour of the day, as `DateTime.Hour` returns it. */
  type Hour = h: int | 0 <= h < 24

  /** A weekday number, as `(int)DateTime.DayOfWeek` returns it: Sunday is 0. */
  type Weekday = d: int | 0 <= d < 7

  /**
   * A point in time. Only the two calendar fields the sensors read are modelled;
   * `ticks` stands for everything else the value carries.
   */
  datatype DateTime = DateTime(ticks: int, hour: Hour, dayOfWeek: Weekday)

  /** `default(DateTime)`, i.e. `DateTime.MinValue`: 0001-01-01 00:00, a Monday. */
  const MinValue: DateTime := DateTime(0, 0, 1)

  /** The exception classes the modelled code can raise. */
  datatype ExnKind =
    | FormatError          // FormatException from DateTime.Parse / double.Parse
    | ArgumentError        // ArgumentException (Enum.Parse, duplicate dictionary key)
    | ArgumentNull         // ArgumentNullException (LINQ operators on a null source)
    | ArgumentOutOfRange   // ArgumentOutOfRangeException (List indexer, Substring, Enumerable.Range)
    | IndexOutOfRange      // IndexOutOfRangeException (array indexer)
    | NullReference        // NullReferenceException
    | InvalidOperation     // InvalidOperationException
    | MissingMethod        // MissingMethodException (Activator.CreateInstance)

  /** A thrown exception: its class and its `Message`. */
  datatype Exn = Exn(kind: ExnKind, message: string)

  /**
   * An exception raised by the runtime itself. The message texts are the runtime's
   * default texts; the exact wording differs between .NET versions.
   */
  function Raise(kind: ExnKind): (e: Exn)
    ensures e.kind == kind
  {
    Exn(kind,
      match kind
      case FormatError => "Input string was not in a correct format."
      case ArgumentError => "An item with the same key has already been added."
      case ArgumentNull => "Value cannot be null."
      case ArgumentOutOfRange => "Index was out of range. Must be non-negative and less than the size of the collection."
      case IndexOutOfRange => "Index was outside the bounds of the array."
      case NullReference => "Object reference not set to an instance of an object."
      case InvalidOperation => "Sequence contains no matching element"
      case MissingMethod => "No parameterless constructor defined for this object.")
  }

  /**
   * The runtime's parsers. Each is a total function that either yields a value or
   * says why the text was rejected (the message of the FormatException it would throw).
   * Culture settings are folded into the functions.
   */
  datatype Platform = Platform(
    parseDate: string -> Result<DateTime, string>,   // DateTime.Parse
    parseDouble: string -> Result<real, string>)     // double.Parse

  /** `DateTime.Parse(text)`, as a result instead of an exception. */
  function ParseDate(p: Platform, text: string): (r: Result<DateTime, Exn>)
    ensures r.Err? <==> p.parseDate(text).Err?
    ensures r.Ok? ==> r.value == p.parseDate(text).value
    ensures r.Err? ==> r.error.kind == FormatError
  {
    match p.parseDate(text)
    case Ok(d) => Ok(d)
    case Err(m) => Err(Exn(FormatError, m))
  }

  /** `double.Parse(text)`, as a result instead of an exception. */
  function ParseDouble(p: Platform, text: string): (r: Result<real, Exn>)
    ensures r.Err? <==> p.parseDouble(text).Err?
    ensures r.Ok? ==> r.value == p.parseDouble(text).value
    ensures r.Err? ==> r.error == Exn(FormatError, p.parseDouble(text).error)
  {
    match p.parseDouble(text)
    case Ok(v) => Ok(v)
    case Err(m) => Err(Exn(FormatError, m))
  }
}
