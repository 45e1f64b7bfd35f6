/** Failure-compatible wrappers used across the model. */
module Results {

  /** A value that may be absent: JavaScript's `null`, or `NaN` from a failed `parseInt`. */
  datatype Option<+T> = None | Some(value: T) {
    function GetOr(default: T): T {
      match this
      case Some(v) => v
      case None => default
    }
  }

  /** Either a computed value or the one error that stopped the computation. */
  datatype Result<+T, +E> = Success(value: T) | Failure(error: E)
}
