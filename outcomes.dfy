/** Optional values and the outcome of an operation that may trap.
    Swift's `fatalError`, `preconditionFailure`, a failed `precondition` and an
    out-of-range subscript all stop the program; the model returns `Fatal` instead,
    with the reason the source prints. */
module Outcomes {

  datatype Option<+T> = None | Some(value: T) {
    function GetOr(default: T): T {
      match this
      case Some(v) => v
      case None => default
    }
  }

  datatype Result<+T> = Ok(value: T) | Fatal(reason: string)
}
