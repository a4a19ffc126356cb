/** Optional values and results shared by all modules of the model. */
module Outcomes {

  /** A value that may be absent; stands for a nil pointer or a missing map entry. */
  datatype Option<+T> = None | Some(value: T) {
    function GetOr(default: T): T {
      match this
      case None => default
      case Some(v) => v
    }

    function OrElse(other: Option<T>): Option<T> {
      if None? then other else this
    }
  }

  /** A value or an error text; stands for Go's pair of a value and an error. */
  datatype Result<+T> = Success(value: T) | Failure(error: string)
}
