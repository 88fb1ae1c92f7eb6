/** The small generic datatypes both controllers and the dashboard share. */
module Basics {

  datatype Option<T> = None | Some(value: T)

  datatype Result<T, E> = Success(value: T) | Failure(error: E)

  /** An HTTP error response: its status code and its message. */
  datatype HttpError = HttpError(status: int, message: string)
}
