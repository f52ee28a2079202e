/** Optional values, results, and the application error every service throws. */
module Wrappers {

  datatype Option<T> = None | Some(value: T) {
    function GetOr(default: T): T {
      match this
      case Some(v) => v
      case None => default
    }
  }

  datatype Result<T, E> = Ok(value: T) | Err(error: E)

  /** The shared `AppError`: an HTTP status code and a message. */
  datatype AppError = AppError(statusCode: nat, message: string)

  /** The result of a service call: a value, or the `AppError` it throws. */
  type Outcome<T> = Result<T, AppError>
}
