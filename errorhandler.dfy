/** backend/src/middlewares/ErrorHandler.ts: the HTTP status and JSON body sent for an
    error that reached the end of the middleware chain. */
module ErrorHandler {
  import opened Wrappers
  import opened Types

  const DefaultMessage := "An error occurred on the server."

  /** The reply for `err`; `isDevelopment` is `NODE_ENV === 'development'`. */
  function Handle(err: Thrown, isDevelopment: bool): (reply: Reply)
    // the body is always an error body without data, whose details repeat its message
    ensures reply.body.status == Error && reply.body.data == None && reply.body.redirect == None
    ensures reply.body.error.Some? && reply.body.error.value.message == reply.body.message
    // validation errors
    ensures err.ZodError? ==>
      && reply.code == 400 && reply.body.message == "Validation failed"
      && reply.body.error.value.errorLog == (if isDevelopment then Some(err.message) else None)
      && reply.body.error.value.stackTrace == None
      && reply.body.error.value.data == Some(err.issues)
    // every other error
    ensures !err.ZodError? ==>
      && reply.code == (if err.HttpError? then err.statusCode else 500)
      && reply.body.message == (if err.message != "" then err.message else DefaultMessage)
      && (reply.body.error.value.errorLog.Some? <==>
            isDevelopment && err.HttpError? && err.errorLog.Some? && err.errorLog.value != "")
      && (reply.body.error.value.errorLog.Some? ==> reply.body.error.value.errorLog == err.errorLog)
      && reply.body.error.value.stackTrace == (if isDevelopment then Some(err.Stack()) else None)
      && reply.body.error.value.data == (if err.HttpError? then err.data else None)
  {
    if err.ZodError? then
      var details := ErrorDetails("Validation failed", if isDevelopment then Some(err.message) else None, None, Some(err.issues));
      Reply(400, UnifiedResponse(Error, "Validation failed", None, Some(details), None))
    else
      var statusCode := if err.HttpError? then err.statusCode else 500;
      var message := if err.message != "" then err.message else DefaultMessage;
      var errorLog := if isDevelopment && err.HttpError? then err.errorLog else None;
      var shownLog := if isDevelopment && errorLog.Some? && errorLog.value != "" then errorLog else None;
      var stackTrace := if isDevelopment then Some(err.Stack()) else None;
      var data := if err.HttpError? then err.data else None;
      Reply(statusCode, UnifiedResponse(Error, message, None, Some(ErrorDetails(message, shownLog, stackTrace, data)), None))
  }

  /** Outside development no reply carries a log or a stack trace. */
  lemma ProductionHidesDiagnostics(err: Thrown)
    ensures Handle(err, false).body.error.value.errorLog == None
    ensures Handle(err, false).body.error.value.stackTrace == None
  {
  }

  /** A `400` raised with `HttpError.badRequest` reaches the client with its own code and
      message. */
  lemma BadRequestReply(message: string, isDevelopment: bool)
    requires message != ""
    ensures Handle(BadRequest(message), isDevelopment).code == 400
    ensures Handle(BadRequest(message), isDevelopment).body.message == message
  {
  }
}
