/** Optional values (C# nullable `T?`) and results that may carry an exception. */
module Wrappers {

  /** A C# nullable value: `None` is `null`. */
  datatype Option<T> = None | Some(value: T) {

    /** The C# null-coalescing operator `v ?? default`. */
    function GetOr(default: T): T {
      match this
      case Some(v) => v
      case None => default
    }
  }

  /** The outcome of an operation that may throw: `Failure` carries the exception kind. */
  datatype Result<T, E> = Success(value: T) | Failure(error: E)
}
