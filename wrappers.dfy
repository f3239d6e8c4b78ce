/** Success/failure results. The source signals errors by throwing `Error`
    objects with a message; the model returns them as `Failure(message)`. */
module Wrappers {

  datatype Result<+T, +E> = Success(value: T) | Failure(error: E)

  datatype Option<+T> = None | Some(value: T)
}
