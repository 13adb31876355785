/** Optional values and the success-or-error result of an operation that
    throws in the client code. */
module Results {

  datatype Option<+T> = None | Some(value: T)

  datatype Result<+T, +E> = Ok(value: T) | Err(error: E)
}
