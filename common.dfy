/** Failure-carrying values shared by the other modules. */
module Common {

  /** A value that may be absent: a nullable column, a failed parse. */
  datatype Option<+T> = None | Some(value: T)

  /** The outcome of an operation that throws in the original program. */
  datatype Result<+R, +E> = Success(value: R) | Failure(error: E)
}
