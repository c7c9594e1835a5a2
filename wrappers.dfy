/** Optional values and results, for the NaT / empty-input / crash paths of the engine. */
module Wrappers {

  datatype Option<+T> = None | Some(value: T)

  datatype Result<+T, +E> = Ok(value: T) | Err(error: E)
}
