/** The two result shapes every module uses: an optional value, and the settled outcome
    of a promise (a value, or the thing that was thrown). */
module Outcomes {
  datatype Option<+T> = None | Some(value: T)

  datatype Result<+T, +E> = Success(value: T) | Failure(error: E)
}
