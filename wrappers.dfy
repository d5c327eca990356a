/** Optional values and success/failure results, used where the source returns
    `undefined`, uses `?.`/`??`, or stops with an error message. */
module Wrappers {

  datatype Option<+T> = None | Some(value: T)

  datatype Result<+T, +E> = Ok(value: T) | Err(error: E)
}
