/** Optional values and the two ways an operation of the payment system can end. */
module Wrappers {
  datatype Option<+T> = None | Some(value: T)

  /** The exception classes the services throw. */
  datatype Error = BadRequest | Conflict | BadGateway | NotFound | Internal

  datatype Result<+T> = Success(value: T) | Failure(error: Error)
}
