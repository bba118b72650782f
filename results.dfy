/** Success/failure values standing in for Python's exceptions. */
module Results {

  /** A computation that yields a value or raises an error. */
  datatype Result<T, E> = Ok(value: T) | Err(error: E)

  /** A computation run for its effect, which completes or raises an error. */
  datatype Outcome<E> = Pass | Fail(error: E)
}
