/** The exceptions the column-layout core raises, as values. */
module Results {

  /** Python's `ValueError` and `TypeError`, with their messages. */
  datatype Error = ValueError(message: string) | TypeError(message: string)

  datatype Result<T> = Success(value: T) | Failure(error: Error)
}
