/**
 * What a handler or guard can throw, and the HTTP status the framework answers with.
 * NestJS turns an `HttpException` into its own status and message; anything else that is
 * thrown (a `TypeError`, a plain `Error`) becomes a 500 response.
 */
module Http {

  const BAD_REQUEST: int := 400
  const UNAUTHORIZED: int := 401
  const INTERNAL_SERVER_ERROR: int := 500

  datatype Failure =
    | HttpError(status: int, message: string)  // an HttpException or one of its subclasses
    | RuntimeError(message: string)            // any other thrown value

  function Unauthorized(message: string): Failure { HttpError(UNAUTHORIZED, message) }

  function BadRequest(message: string): Failure { HttpError(BAD_REQUEST, message) }

  /** The status code of the response the framework sends for a thrown failure. */
  function Status(f: Failure): (code: int)
    ensures f.RuntimeError? ==> code == INTERNAL_SERVER_ERROR
    ensures f.HttpError? ==> code == f.status
  {
    match f
    case HttpError(status, _) => status
    case RuntimeError(_) => INTERNAL_SERVER_ERROR
  }
}
