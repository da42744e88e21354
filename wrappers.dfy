/** Optional values and results shared by the profile model. */
module Wrappers {

  /** A value that may be absent: an unset document field or a missing request field. */
  datatype Option<+T> = None | Some(value: T)

  /** The outcome of a handler: the resulting document or an error. */
  datatype Result<+R, +E> = Success(value: R) | Failure(error: E)
}
