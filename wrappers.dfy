/** Option, Result and Outcome: the nullable boxed values of the configuration
    and the exceptions of the builder, written as values. */
module Wrappers {

  /** A boxed Java value that may be `null`: `None` is "not set". */
  datatype Option<+T> = None | Some(value: T) {
    /** The value, or `default` when unset. */
    function GetOr(default: T): T {
      match this
      case Some(v) => v
      case None => default
    }
  }

  /** A computation that returns a value or throws. */
  datatype Result<+T, +E> = Ok(value: T) | Err(error: E)

  /** A `void` computation that returns normally or throws. */
  datatype Outcome<+E> = Pass | Fail(error: E)
}
