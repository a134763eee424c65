/** Optional values and the outcome of an operation that can raise. */
module Results {

  datatype Option<T> = None | Some(value: T)

  /** `Err` stands for the exception the source raises; `Ok` for the value it returns. */
  datatype Result<T, E> = Ok(value: T) | Err(error: E)
}
