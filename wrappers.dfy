/** Optional values and results shared by the modules of the model.
    `None` stands for JavaScript's `undefined` (and, where the source treats
    them alike, `null`). */
module Wrappers {

  datatype Option<+T> = None | Some(value: T) {
    function GetOr(default: T): T {
      match this
      case Some(v) => v
      case None => default
    }
  }

  /** Outcome of a call into an external service: it returns a value or throws. */
  datatype Result<+R, +E> = Ok(value: R) | Err(error: E)

  /** Outcome of an external call whose value is not used: it completes or throws. */
  datatype Outcome<+E> = Pass | Fail(error: E)

  /** What the handlers read from a thrown error: `err.message` and the HTTP
      status the client library attaches (`statusCode`, `$metadata.httpStatusCode`). */
  datatype Thrown = Thrown(message: Option<string>, statusCode: Option<int>)
}
