/** Small failure-carrying datatypes shared by the three models. */
module Common {

  /** Python's optional argument: `None` or a value. */
  datatype Option<+T> = None | Some(value: T)

  /** The outcome of an operation that either returns a value or raises. */
  datatype Result<+T, +E> = Success(value: T) | Failure(error: E)
}
