/** Failure-compatible wrappers shared by the whole model. */
module Wrappers {

  /** A value that may be absent (`undefined`, a missing key, a failed parse). */
  datatype Option<+T> = None | Some(value: T) {
    function GetOr(default: T): T {
      match this
      case Some(v) => v
      case None => default
    }
  }

  /** A value or the message of the exception that replaced it. */
  datatype Result<+R> = Success(value: R) | Failure(message: string)
}
