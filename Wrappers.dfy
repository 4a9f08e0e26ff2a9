/** Option and Result: the absent values and raised exceptions of the modelled program. */
module Wrappers {

  /** A value that may be missing: a dictionary key that is absent, or a Python `None`. */
  datatype Option<+T> = None | Some(value: T) {
    function GetOr(default: T): T {
      match this
      case Some(v) => v
      case None => default
    }
  }

  /** The outcome of code that can raise: `Err` carries what was raised. */
  datatype Result<+T, +E> = Ok(value: T) | Err(error: E)
}
