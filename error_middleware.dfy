/** The Express error handler of backend/src/middlewares/error.middleware.ts: it classifies a
    thrown error into an HTTP status and message and answers `{ success: false, message, stack }`. */
module ErrorMiddleware {
  import opened Wrappers
  import opened Text

  /** The fields of a thrown error that the handler reads. `keyValue` holds the keys of the
      error's `keyValue` object and `errors` the messages of its `errors` object, both in
      insertion order; `value` is the error's `value` as a template literal renders it; `stack`
      is whatever stack the handler's spread copy of the error carries. */
  datatype AppError = AppError(
    name: string,
    message: string,
    statusCode: Option<int>,
    code: Option<int>,
    keyValue: Option<seq<string>>,
    value: string,
    errors: Option<seq<string>>,
    stack: Option<string>)

  /** An error with only a name and a message, such as a TypeError or an HTTP client error. */
  function Plain(name: string, message: string): AppError
  {
    AppError(name, message, None, None, None, "undefined", None, None)
  }

  /** The TypeError JavaScript throws when a property of `undefined` is read. */
  function ReadOfUndefined(property: string): AppError
  {
    Plain("TypeError", "Cannot read properties of undefined (reading '" + property + "')")
  }

  datatype ErrorBody = ErrorBody(success: bool, message: string, stack: Option<string>)

  datatype Handled =
    | Respond(status: int, body: ErrorBody)
      // writing the response threw (Node refuses the status code): the handler calls next(innerError)
    | Forward(inner: AppError)

  /** The status and message the handler's branch chain settles on, tried in the source's order:
      validation error, cast error, duplicate key, anything else. */
  function Classify(err: AppError): (int, string)
  {
    var message := if err.message == "" then "Internal Server Error" else err.message;
    if err.name == "ValidationError" && err.errors.Some? then
      (400, Join(err.errors.value, ", "))
    else if err.name == "CastError" then
      (400, "Resource not found with id of " + err.value)
    else if err.code == Some(11000) && err.keyValue.Some? then
      (400, "Duplicate field value entered: " + Join(err.keyValue.value, ", "))
    else
      (if err.statusCode.None? || err.statusCode.value == 0 then 500 else err.statusCode.value, message)
  }

  /** Node's `writeHead` throws a RangeError for a status outside 100..999. */
  function InvalidStatus(status: int): AppError
  {
    Plain("RangeError", "Invalid status code: " + IntToString(status))
  }

  /** The handler. The response always says `success: false` with a non-empty message, hides the
      stack in production, and carries 400, 500 or the error's own status code; it is written
      exactly when Node accepts the status. */
  function Handle(err: AppError, production: bool): (h: Handled)
    ensures h.Respond? <==> 100 <= Classify(err).0 <= 999
    ensures h.Respond? ==> !h.body.success && h.body.message != ""
    ensures h.Respond? ==> h.body.stack == if production then None else err.stack
    ensures h.Respond? ==> h.status == 400 || h.status == 500 || Some(h.status) == err.statusCode
    ensures h.Forward? ==> h.inner.name == "RangeError"
  {
    var (status, message) := Classify(err);
    if status < 100 || status > 999 then Forward(InvalidStatus(status))
    else Respond(status, ErrorBody(false, if message == "" then "Server Error" else message,
                                   if production then None else err.stack))
  }

  /** A validation error with field messages is answered 400 with the messages joined by ", ",
      whatever its code or status code say. */
  lemma ValidationErrorIs400(err: AppError, production: bool)
    requires err.name == "ValidationError" && err.errors.Some?
    requires Join(err.errors.value, ", ") != ""
    ensures Handle(err, production).Respond?
    ensures Handle(err, production).status == 400
    ensures Handle(err, production).body.message == Join(err.errors.value, ", ")
  {
  }

  /** A cast error is answered 400 naming the value that failed to cast. */
  lemma CastErrorIs400(err: AppError, production: bool)
    requires err.name == "CastError"
    ensures Handle(err, production).Respond?
    ensures Handle(err, production).status == 400
    ensures Handle(err, production).body.message == "Resource not found with id of " + err.value
  {
  }

  /** A duplicate key error is answered 400 listing its keys, unless an earlier branch claims it
      first: a validation error with messages, or a cast error. */
  lemma DuplicateKeyIs400(err: AppError, production: bool)
    requires !(err.name == "ValidationError" && err.errors.Some?) && err.name != "CastError"
    requires err.code == Some(11000) && err.keyValue.Some?
    ensures Handle(err, production).Respond?
    ensures Handle(err, production).status == 400
    ensures Handle(err, production).body.message == "Duplicate field value entered: " + Join(err.keyValue.value, ", ")
  {
  }

  /** An error that no branch recognises keeps its own non-zero status, or gets 500. */
  lemma OtherErrorsKeepTheirStatus(err: AppError, production: bool)
    requires !(err.name == "ValidationError" && err.errors.Some?) && err.name != "CastError"
    requires !(err.code == Some(11000) && err.keyValue.Some?)
    requires 100 <= (if err.statusCode.None? || err.statusCode.value == 0 then 500 else err.statusCode.value) <= 999
    ensures Handle(err, production).Respond?
    ensures Handle(err, production).status == (if err.statusCode.None? || err.statusCode.value == 0 then 500 else err.statusCode.value)
    ensures Handle(err, production).body.message == (if err.message == "" then "Internal Server Error" else err.message)
  {
  }
}
