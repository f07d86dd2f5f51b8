// Shared value types.
module Options {
  datatype Option<+T> = None | Some(value: T)

  // Go's (value, error) return pair.
  datatype Result<+T, +E> = Success(value: T) | Failure(error: E)
}
