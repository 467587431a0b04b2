/** Optional values and success/failure results, shared by every module. */
module Wrappers {

  /** A value that may be absent: an unset field, an `undefined` read, a NaN parse. */
  datatype Option<+T> = None | Some(value: T)

  /** The outcome of an operation that either yields a value or fails with an error. */
  datatype Result<+T, +E> = Success(value: T) | Failure(error: E)

  function GetOr<T>(o: Option<T>, default: T): T
  {
    match o
    case Some(v) => v
    case None => default
  }
}
