/** Option and Result values used across the model: an absent cutoff is `None`,
    a statistics routine that raised is `Failure(message)`. */
module Wrappers {

  datatype Option<+T> = None | Some(value: T)

  datatype Result<+R, +E> = Success(value: R) | Failure(error: E)
}
