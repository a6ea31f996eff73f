/** The two result shapes shared by every module of the model. */
module Wrappers {

  datatype Option<+T> = None | Some(value: T) {
    function GetOr(default: T): T {
      match this
      case Some(v) => v
      case None => default
    }
  }

  /** A Python call that either returns or raises. */
  datatype Result<+T, +E> = Ok(value: T) | Raised(error: E) {
    predicate IsFailure() {
      Raised?
    }

    function PropagateFailure<U>(): (r: Result<U, E>)
      requires Raised?
    {
      Raised(error)
    }

    function Extract(): T
      requires Ok?
    {
      value
    }
  }
}
