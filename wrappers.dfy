/** The absent result of a move (the source's `null`) and the planner's
    thrown error, as values. */
module Wrappers {

  datatype Option<+T> = None | Some(value: T)

  datatype Result<+R, +E> = Success(value: R) | Failure(error: E)
}
