/** Failure-carrying values shared by every module of the model. */
module Results {

  /** A value that may be absent: JavaScript's `undefined` / SQL's `NULL`. */
  datatype Option<+T> = None | Some(value: T) {
    function GetOr(default: T): T {
      match this
      case Some(v) => v
      case None => default
    }
  }

  /** The outcome of a handler: its value, or the error it throws. */
  datatype Result<+T, +E> = Ok(value: T) | Err(error: E)

  /** The error codes the RPC handlers throw. */
  datatype ErrorCode = NotFound | BadRequest
}
