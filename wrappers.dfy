/** Failure-carrying values shared by every module of the ledger model. */
module Wrappers {

  /** A value that may be absent: a missing JSON field, an empty reply. */
  datatype Option<+T> = None | Some(value: T) {
    /** `x ?? d` and `x || d` on a field that may be missing. */
    function GetOr(default: T): T {
      match this
      case Some(v) => v
      case None => default
    }
  }

  /** The outcome of an awaited call that may throw: a value or the error's message. */
  datatype Result<+R> = Success(value: R) | Failure(error: string)

  /** The outcome of an awaited call that returns nothing but may throw. */
  datatype Outcome = Pass | Fail(error: string)
}
