/** Small shared wrappers: optional values, bytes and the store's error results. */
module Common {

  datatype Option<+T> = None | Some(value: T)

  type byte = x: int | 0 <= x < 256

  /** The error classes the store reports to its callers. */
  datatype StoreError = NotFound | Validation | StateError | Conflict

  datatype Result<+T> = Ok(value: T) | Err(error: StoreError)
}
