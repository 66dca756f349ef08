/** The error path of an operation: a value, or the reason there is none. */
module Results {

  datatype Result<+T, +E> = Success(value: T) | Failure(error: E)
}
