/** Optional values and results shared by the other modules. */
module Basics {

  datatype Option<+T> = None | Some(value: T)

  /** A failure stands for an exception of the source. */
  datatype Result<+T> = Success(value: T) | Failure(error: string)
}
