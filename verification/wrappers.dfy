/** Option and Result, the shapes used in place of Python's None and exceptions. */
module Wrappers {

  datatype Option<+T> = None | Some(value: T) {

    /** The wrapped value, or `default` when there is none (Python's `d.get(k, default)`). */
    function GetOr(default: T): T {
      match this
      case Some(v) => v
      case None => default
    }
  }

  /** `Success` is a returned value; `Failure` is a raised exception, carried as data. */
  datatype Result<+R, +E> = Success(value: R) | Failure(error: E)
}
