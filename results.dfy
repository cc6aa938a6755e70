/** Failure-carrying values shared by the modules of the benchmark harness. */
module Results {

  /** The one exception the harness itself throws: Java's IllegalArgumentException with its message. */
  datatype Error = IllegalArgument(message: string)

  datatype Result<T> = Success(value: T) | Failure(error: Error)

  datatype Option<T> = None | Some(value: T)
}
