/** Failure-carrying value types shared by the model: an optional value, and the
    outcome of a Python or JavaScript call that either returns or raises. */
module Wrappers {

  datatype Option<+T> = None | Some(value: T) {

    /** The wrapped value, or `default` when absent (Python's `x or default`
        for an argument that is either None or a value). */
    function GetOr(default: T): T {
      match this
      case Some(v) => v
      case None => default
    }
  }

  /** `Success(v)` is a normal return of `v`; `Failure(e)` is an exception `e`
      propagating out of the call. */
  datatype Result<+T, +E> = Success(value: T) | Failure(error: E)
}
