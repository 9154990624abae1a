/** Failure-carrying values shared by the instance model. */
module Results {

  /** A Go pointer or map that may be nil: `None` is nil. */
  datatype Option<+T> = None | Some(value: T)

  /** A value, or the error that stopped its computation. */
  datatype Result<+T, +E> = Success(value: T) | Failure(error: E)
}
