/** Optional values and success-or-error results, used for `undefined`, for
    decoders that may reject their input, and for calls that may throw. */
module Wrappers {

  datatype Option<+T> = None | Some(value: T) {
    /** The held value, or `default` when there is none. */
    function GetOr(default: T): T {
      match this
      case Some(v) => v
      case None => default
    }
  }

  datatype Result<+R, +E> = Success(value: R) | Failure(error: E)
}
