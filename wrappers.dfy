/** Optional values and the two Python exceptions the extraction core can raise. */
module Wrappers {

  datatype Option<T> = None | Some(value: T)

  /** IndexError: an out-of-range list subscript; ValueError: `int()` of a non-decimal string. */
  datatype Error = IndexError | ValueError

  datatype Result<T> = Ok(value: T) | Err(error: Error)
}
