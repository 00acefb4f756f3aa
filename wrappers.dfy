/** Tagged results used instead of NaN / None sentinels. */
module Wrappers {

  /** A value that may be unavailable (NumPy's NaN or Python's None in the script). */
  datatype Option<+T> = None | Some(value: T)

  /** A computation that either produces a value or stops with an error. */
  datatype Result<+R, +E> = Success(value: R) | Failure(error: E)
}
