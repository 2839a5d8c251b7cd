/** Option, Result and Outcome: the model's stand-ins for Python's None,
    raised exceptions and `raise`-or-return-nothing validators. */
module Wrappers {

  datatype Option<T> = None | Some(value: T) {
    /** `d.get(k, default)`-style access. */
    function GetOr(default: T): T {
      match this
      case Some(v) => v
      case None => default
    }
  }

  datatype Result<T, E> = Success(value: T) | Failure(error: E)

  /** The outcome of a check that either returns normally or raises `error`. */
  datatype Outcome<E> = Pass | Fail(error: E)
}
