/** Optional values and results with an error, used for every provider field that
    may be absent and for the one failure that aborts an analysis. */
module Wrappers {

  /** A value that may be missing. `None` stands for both `undefined` and `null`. */
  datatype Option<+T> = None | Some(value: T)

  /** The outcome of a step that can fail. */
  datatype Result<+R, +E> = Success(value: R) | Failure(error: E)
}
