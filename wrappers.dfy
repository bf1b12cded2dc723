/** Optional values (PHP `null`) and outcomes that may carry a thrown error. */
module Wrappers {

  datatype Option<T> = None | Some(value: T)
  {
    /** PHP's `$x ?? $fallback`. */
    function GetOr(fallback: T): T
    {
      if Some? then value else fallback
    }
  }

  datatype Result<T, E> = Success(value: T) | Failure(error: E)
  {
    predicate IsFailure() { Failure? }
  }
}
