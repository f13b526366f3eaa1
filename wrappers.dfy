/** Small failure-carrying datatypes shared by the model. */
module Wrappers {

  /** A value that may be absent: a dictionary key that may be missing. */
  datatype Option<+T> = None | Some(value: T) {

    /** The value, or `default` when absent (Python's `d.get(key, default)`). */
    function GetOr(default: T): T
    {
      match this
      case Some(v) => v
      case None => default
    }
  }

  /** The kinds of exception the analyzer lets escape to its caller. */
  datatype ErrorKind =
    | ZeroDivision   // `x / 0` on a float
    | InvalidNumber  // `float(s)` on a string that is not a number

  /** Either a returned value or an exception that propagated out of the call. */
  datatype Outcome<+T> = Ok(value: T) | Raised(error: ErrorKind)
}
