/** Small shared vocabulary: optional values, results and document ids. */
module Common {

  /** A document id, as the string form of a store key. */
  type Id = string

  datatype Option<T> = None | Some(value: T)

  /** The outcome of an operation that either produces a value or fails with an error. */
  datatype Result<T, E> = Ok(value: T) | Err(error: E)
}
