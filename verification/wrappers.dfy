/** Failure-carrying wrappers shared by the model's modules. */
module Wrappers {

  /** A value that may be absent: Python's `None` or a skipped step. */
  datatype Option<+T> = None | Some(value: T) {
    function GetOr(default: T): T {
      match this
      case Some(v) => v
      case None => default
    }
  }
}
