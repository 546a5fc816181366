/** Option and Result values used for the source's absent values and raised exceptions. */
module Results {

  /** A value that may be absent (Python's `None`). */
  datatype Option<+T> = None | Some(value: T)

  /** Either a computed value or the exception the source would raise. */
  datatype Result<+R, +E> = Success(value: R) | Failure(error: E)
}
