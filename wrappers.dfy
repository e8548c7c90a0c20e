/** Optional values and failure results shared by the whole model. */
module Wrappers {

  /** A value that may be absent: a metadata key that is missing, a series that is empty. */
  datatype Option<T> = None | Some(value: T) {

    /** The value, or `default` when absent (Python's `d.get(k, default)`). */
    function GetOr(default: T): (r: T)
      ensures Some? ==> r == value
      ensures None? ==> r == default
    {
      match this
      case Some(v) => v
      case None => default
    }
  }

  /** The outcome of a request that can fail as a whole (an uncaught exception becomes `Failure`). */
  datatype Result<T> = Success(value: T) | Failure(error: string)
}
