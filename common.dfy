/**
 * Shared vocabulary of the model: optional values for Java references that may be
 * null, results for operations that throw, the exception kinds the core raises,
 * and Java's fixed-width integer ranges.
 */
module Common {

  /** A Java reference that may be null. */
  datatype Option<+T> = None | Some(value: T)

  /** The exceptions the modelled operations throw, by kind. */
  datatype Error =
    | NullArgument(parameter: string)   // ArgumentChecker.notNull: IllegalArgumentException naming the parameter
    | IllegalArgument(reason: string)   // an explicit IllegalArgumentException
    | IllegalState(reason: string)      // IllegalStateException
    | NullPointer(reason: string)       // a null dereference or unboxing
    | ClassCast(reason: string)         // a failed down-cast
    | IndexOutOfBounds(index: int)      // ArrayIndexOutOfBoundsException
    | DateTime(reason: string)          // DateTimeException from the calendar library
    | NotImplemented(reason: string)    // NotImplementedException
    | DecodeFailure(reason: string)     // a message the deserialisation context cannot turn into an object

  /** A value-returning operation that either returns or throws. */
  datatype Result<+T> = Success(value: T) | Failure(error: Error)

  /** A void operation that either returns normally or throws. */
  datatype Outcome = Pass | Fail(error: Error)

  const INT32_MIN: int := -0x8000_0000
  const INT32_MAX: int := 0x7fff_ffff
  const INT64_MIN: int := -0x8000_0000_0000_0000
  const INT64_MAX: int := 0x7fff_ffff_ffff_ffff

  /** Java `int`. */
  type Int32 = x: int | INT32_MIN <= x <= INT32_MAX

  /** Java `long`. */
  type Int64 = x: int | INT64_MIN <= x <= INT64_MAX

  /** How Java renders a possibly-null string in `+` concatenation and `%s`: null becomes "null". */
  function Show(s: Option<string>): (r: string)
    ensures s.Some? ==> r == s.value
  {
    match s
    case None => "null"
    case Some(v) => v
  }
}
