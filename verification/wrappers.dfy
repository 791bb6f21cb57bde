/** Failure-compatible carriers used by the dashboard model: `Option` for a
    lookup that may find nothing, `Result` for a render that may fail. */
module Wrappers {

  datatype Option<+T> = None | Some(value: T)

  datatype Result<+R, +E> = Success(value: R) | Failure(error: E)
}
