/** The two sum types the engine works with: an optional value (a row's amount)
    and the outcome of an operation that may fail with an error value. */
module Results {

  datatype Option<+T> = None | Some(value: T)

  datatype Result<+T, +E> = Ok(value: T) | Err(error: E)
}
