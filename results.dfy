/** Option and Result: Python's `None` and its raised exceptions, as values. */
module Results {

  datatype Option<+T> = None | Some(value: T)

  datatype Result<+T, +E> = Success(value: T) | Failure(error: E)

  /** Python truthiness of an optional integer argument: `None` and `0` are falsy. */
  predicate Truthy(v: Option<int>) {
    v.Some? && v.value != 0
  }
}
