/** Failure-compatible helper datatypes shared by the model. */
module Wrappers {

  /** A value that may be absent (Python's `None`). */
  datatype Option<+T> = None | Some(value: T) {
    function GetOr(default: T): T {
      match this
      case Some(v) => v
      case None => default
    }
  }

  /** The outcome of an operation that either returns normally or raises. */
  datatype Outcome<+E> = Pass | Fail(error: E)
}
