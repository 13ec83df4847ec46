/**
 * The last Express middleware: turns any error reaching it into the JSON
 * error envelope and the matching HTTP status.
 */
module ErrorHandler {
  import opened Wrappers
  import opened Types

  const InternalMessage := "Internal Server Error"
  const InternalCode := "INTERNAL_ERROR"

  /** The `AppError` class: an error that carries its status, code and optional details. */
  datatype AppError = AppError(message: string, status: int, code: string, details: Option<Json>)

  /**
   * `createError` (and the `AppError` constructor it wraps): omitted arguments
   * take the defaults 500 and `INTERNAL_ERROR`.
   */
  function CreateError(message: string, status: Option<int>, code: Option<string>, details: Option<Json>): (r: AppError)
    ensures r.message == message && r.details == details
    ensures status.None? ==> r.status == 500
    ensures status.Some? ==> r.status == status.value
    ensures code.None? ==> r.code == InternalCode
    ensures code.Some? ==> r.code == code.value
  {
    AppError(message, status.GetOr(500), code.GetOr(InternalCode), details)
  }

  /** Any error as the handler sees it: every field but `name` and `message` may be absent. */
  datatype Thrown = Thrown(
    name: string,
    message: string,
    status: Option<int>,
    code: Option<string>,
    details: Option<Json>,
    stack: Option<string>)

  /** An `AppError` once thrown; `stack` is whatever the runtime recorded. */
  function Raise(e: AppError, stack: Option<string>): Thrown {
    Thrown("AppError", e.message, Some(e.status), Some(e.code), e.details, stack)
  }

  /** The `error` object of the response body; `stack` and `details` are absent keys when `None`. */
  datatype Envelope = Envelope(message: string, code: string, status: int, stack: Option<string>, details: Option<Json>)

  datatype ErrorResponse = ErrorResponse(httpStatus: int, error: Envelope)

  /** `error.status || 500`: a zero status counts as absent. */
  function StatusOrDefault(s: Option<int>): int {
    if s.Some? && s.value != 0 then s.value else 500
  }

  /** `errorHandler`, with `NODE_ENV` passed in. */
  function HandleError(e: Thrown, nodeEnv: Option<string>): (r: ErrorResponse)
    ensures r.httpStatus == r.error.status
    ensures e.name == "ValidationError" ==> r.error.status == 400 && r.error.code == "VALIDATION_ERROR"
    ensures e.name == "CastError" ==>
      r.error.status == 400 && r.error.code == "INVALID_ID" && r.error.message == "Invalid ID format"
    ensures e.name == "MongoNetworkError" ==>
      r.error.status == 503 && r.error.code == "DATABASE_ERROR" && r.error.message == "Database connection error"
    ensures e.name !in {"ValidationError", "CastError", "MongoNetworkError"} ==>
      && r.error.status == StatusOrDefault(e.status)
      && r.error.code == (if Truthy(e.code) then e.code.value else InternalCode)
    ensures e.name != "CastError" && e.name != "MongoNetworkError" && !(nodeEnv == Some("production") && r.error.status == 500) ==>
      r.error.message == (if e.message != "" then e.message else InternalMessage)
    ensures nodeEnv == Some("production") && r.error.status == 500 ==> r.error.message == InternalMessage
    ensures r.error.stack.Some? <==> nodeEnv == Some("development") && e.stack.Some?
    ensures r.error.stack.Some? ==> r.error.stack == e.stack
    ensures r.error.details.Some? <==> e.details.Some? && JsonTruthy(e.details.value)
    ensures r.error.details.Some? ==> r.error.details == e.details
  {
    var status0 := StatusOrDefault(e.status);
    var message0 := if e.message != "" then e.message else InternalMessage;
    var code0 := if Truthy(e.code) then e.code.value else InternalCode;
    var (status, message, code) :=
      if e.name == "ValidationError" then (400, message0, "VALIDATION_ERROR")
      else if e.name == "CastError" then (400, "Invalid ID format", "INVALID_ID")
      else if e.name == "MongoNetworkError" then (503, "Database connection error", "DATABASE_ERROR")
      else (status0, message0, code0);
    var shown := if nodeEnv == Some("production") && status == 500 then InternalMessage else message;
    var stack := if nodeEnv == Some("development") then e.stack else None;
    var details := if e.details.Some? && JsonTruthy(e.details.value) then e.details else None;
    ErrorResponse(status, Envelope(shown, code, status, stack, details))
  }

  /** The envelope never carries an empty message or code. */
  lemma EnvelopeNeverBlank(e: Thrown, nodeEnv: Option<string>)
    ensures HandleError(e, nodeEnv).error.message != ""
    ensures HandleError(e, nodeEnv).error.code != ""
  {
  }

  /** An error made with `createError` and only a message is answered 500 `INTERNAL_ERROR`, its message hidden in production. */
  lemma CreatedErrorAnswered(message: string, stack: Option<string>, nodeEnv: Option<string>)
    requires message != ""
    ensures var r := HandleError(Raise(CreateError(message, None, None, None), stack), nodeEnv);
      && r.httpStatus == 500 && r.error.code == InternalCode && r.error.details == None
      && r.error.message == (if nodeEnv == Some("production") then InternalMessage else message)
  {
  }

  /** An `AppError` with an explicit non-500 status keeps its status, code and message in every environment. */
  lemma AppErrorPassesThrough(e: AppError, stack: Option<string>, nodeEnv: Option<string>)
    requires e.status != 0 && e.status != 500 && e.code != "" && e.message != ""
    ensures var r := HandleError(Raise(e, stack), nodeEnv);
      r.httpStatus == e.status && r.error.code == e.code && r.error.message == e.message
  {
  }
}
