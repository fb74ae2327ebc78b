/** Failure-carrying values shared by the configuration and flyweight models. */
module Results {

  datatype Option<+T> = None | Some(value: T)

  /** The outcome of an operation that may raise one of the errors `E`. */
  datatype Result<+T, +E> = Ok(value: T) | Err(error: E)
}
