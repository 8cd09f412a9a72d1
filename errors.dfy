/**
 * Typed HTTP errors (`badRequest`, `unauthorized`, `forbidden`, `notFound`)
 * and the error-handling middleware that turns a thrown value into the
 * response status and the body `{ error: message }`.
 */
module Errors {
  import opened Wrappers
  import opened Json

  /** An `Error` whose `status` property was set by one of the constructors. */
  datatype HttpError = HttpError(status: int, message: string)

  /** What a handler produces: its response value, or the error it passes to `next`. */
  datatype Result<T> = Ok(value: T) | Err(error: HttpError)

  function BadRequest(msg: Option<string>): HttpError {
    HttpError(400, msg.GetOr("Bad request"))
  }

  function Unauthorized(msg: Option<string>): HttpError {
    HttpError(401, msg.GetOr("Unauthorized"))
  }

  function Forbidden(msg: Option<string>): HttpError {
    HttpError(403, msg.GetOr("Forbidden"))
  }

  function NotFound(msg: Option<string>): HttpError {
    HttpError(404, msg.GetOr("Not found"))
  }

  /** Any value that reaches the error handler: its `status`, `statusCode` and `message`. */
  datatype Thrown = Thrown(status: Option<int>, statusCode: Option<int>, message: Option<string>)

  /** Throwing an error built by one of the constructors. */
  function Raise(e: HttpError): Thrown {
    Thrown(Some(e.status), None, Some(e.message))
  }

  datatype Response = Response(status: int, body: Json)

  /** The JSON body `{ error: message }`. */
  function ErrorBody(message: string): Json {
    JObj(map["error" := JStr(message)])
  }

  /** `errorHandler`: status from `status`, else `statusCode`, else 500. */
  function ErrorHandler(err: Thrown): (r: Response)
    ensures r.body.JObj? && r.body.fields.Keys == {"error"} && r.body.fields["error"].JStr?
    ensures err.message.Some? ==> r.body.fields["error"].s == err.message.value
    ensures err.message.None? ==> r.body.fields["error"].s == "Internal server error"
    ensures err.status.Some? ==> r.status == err.status.value
    ensures err.status.None? && err.statusCode.Some? ==> r.status == err.statusCode.value
    ensures err.status.None? && err.statusCode.None? ==> r.status == 500
  {
    var status := err.status.GetOr(err.statusCode.GetOr(500));
    Response(status, ErrorBody(err.message.GetOr("Internal server error")))
  }

  /** Every error a handler raises through a constructor reaches the client with its own status and message. */
  lemma HandlerReportsRaisedError(e: HttpError)
    ensures ErrorHandler(Raise(e)) == Response(e.status, ErrorBody(e.message))
  {
  }

  /** The four constructors carry 400/401/403/404 and fall back to their default messages. */
  lemma ConstructorStatuses(msg: Option<string>)
    ensures BadRequest(msg).status == 400 && Unauthorized(msg).status == 401
    ensures Forbidden(msg).status == 403 && NotFound(msg).status == 404
    ensures msg.Some? ==> BadRequest(msg).message == Unauthorized(msg).message
                          == Forbidden(msg).message == NotFound(msg).message == msg.value
    ensures msg.None? ==> BadRequest(msg).message == "Bad request" && Unauthorized(msg).message == "Unauthorized"
                          && Forbidden(msg).message == "Forbidden" && NotFound(msg).message == "Not found"
  {
  }

  /** A thrown value with only `statusCode` set is reported with that status. */
  lemma HandlerFallsBackToStatusCode(code: int, msg: Option<string>)
    ensures ErrorHandler(Thrown(None, Some(code), msg)).status == code
  {
  }
}
