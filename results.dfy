/** Success-or-error values: the model's stand-in for Swift's `throws`. */
module Results {

  datatype Result<+T, +E> = Ok(value: T) | Err(error: E)
}
