/** Option, Result and Outcome: the error paths of the modelled routines. */
module Wrappers {

  datatype Option<+T> = None | Some(value: T) {
    function GetOr(default: T): T {
      match this
      case Some(v) => v
      case None => default
    }
  }

  datatype Result<+R, +E> = Success(value: R) | Failure(error: E)

  /** A check that either passes or reports one error (a Python function that returns None or raises). */
  datatype Outcome<+E> = Pass | Fail(error: E)
}
