/**
 * Value wrappers shared by the whole model.
 *
 * A Java reference that may be null is modelled as an `Option`; an operation that
 * returns normally or throws is modelled as a `Result` whose `Err` carries the
 * exception's message.
 */
module Values {

  /** A Java reference that may be null. */
  datatype Option<+T> = None | Some(value: T) {
    /** The value, or the given default when the reference is null. */
    function GetOr(default: T): T {
      match this
      case Some(v) => v
      case None => default
    }
  }

  /** A Java `int`: a 32-bit two's-complement integer. */
  newtype int32 = x: int | -0x8000_0000 <= x < 0x8000_0000

  /** A Java `long`: a 64-bit two's-complement integer. */
  newtype int64 = x: int | -0x8000_0000_0000_0000 <= x < 0x8000_0000_0000_0000

  /** Normal return (`Ok`) or a thrown exception (`Err`). */
  datatype Result<+T, +E> = Ok(value: T) | Err(error: E)

  /**
   * How `String.format("%s", x)` and string concatenation render a possibly-null
   * string: the text itself, or the four letters "null".
   */
  function NullText(s: Option<string>): (r: string)
    ensures s.Some? ==> r == s.value
  {
    match s
    case Some(t) => t
    case None => "null"
  }

  /** Java's `s != null && !s.isEmpty()`. */
  predicate IsPresent(s: Option<string>) {
    s.Some? && s.value != ""
  }
}
