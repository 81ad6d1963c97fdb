/** Optional values and results with an error, used for the codec's
    "value or nothing" and "value or error" returns. */
module Wrappers {

  datatype Option<T> = None | Some(value: T)

  datatype Result<T, E> = Ok(value: T) | Err(error: E)
}
