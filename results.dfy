/** Option and Result values shared by the modules of this model. */
module Results {

  datatype Option<+T> = None | Some(value: T)

  /** The outcome of an operation that the program can abandon with an exception. */
  datatype Result<+T, +E> = Success(value: T) | Failure(error: E)
}
