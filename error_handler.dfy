/**
 * The API's error envelope: `ApiError`, the error type the controllers and
 * services throw, and `errorHandler`, the last middleware, which turns any
 * error into a JSON response. Status and message fall back to 500 and
 * 'Internal Server Error' through `||`, so a status of 0 and an empty
 * message count as missing.
 */
module ErrorHandler {
  import opened Wrappers
  import opened JsStrings

  /**
   * A thrown error as the handler sees it: `statusCode` and `isOperational`
   * are set only on an `ApiError`; `stack` is whatever the runtime recorded.
   */
  datatype AppError = AppError(message: string, statusCode: Option<int>, isOperational: Option<bool>, stack: Option<string>)

  /** `new ApiError(message, statusCode)`; an omitted status is 500. */
  function NewApiError(message: string, statusCode: Option<int>, stack: Option<string>): (e: AppError)
    ensures e.message == message
    ensures e.statusCode == Some(if statusCode.Some? then statusCode.value else 500)
    ensures e.isOperational == Some(true)
    ensures e.stack == stack
  {
    AppError(message, Some(statusCode.GetOr(500)), Some(true), stack)
  }

  /** A plain `new Error(message)`, such as the one the upload filter raises: no status at all. */
  function PlainError(message: string, stack: Option<string>): (e: AppError)
    ensures e.message == message && e.statusCode == None && e.isOperational == None
    ensures e.stack == stack
  {
    AppError(message, None, None, stack)
  }

  /**
   * The first line of the `stack` the runtime records when an error named
   * `name` is created: `Error.prototype.toString`, which is the name, then
   * ': ' and the message when the message is non-empty. An `ApiError` does
   * not set `name`, so its stack starts with 'Error'. The lines naming the
   * call sites, which follow, are not modelled.
   */
  function StackHead(name: string, message: string): (s: string)
    ensures |name| <= |s| && s[..|name|] == name
    ensures message == "" <==> s == name
    ensures message != "" ==> |name| + 2 + |message| == |s| && s[|s| - |message|..] == message
  {
    if message == "" then name else name + ": " + message
  }

  /** The JSON body; `stack` is `None` when the key is left out of the object. */
  datatype ErrorBody = ErrorBody(success: bool, message: string, stack: Option<Option<string>>)

  datatype ErrorResponse = ErrorResponse(status: int, body: ErrorBody)

  /** `err.statusCode || 500`. */
  function StatusOf(err: AppError): (status: int)
    ensures err.statusCode.Some? && err.statusCode.value != 0 ==> status == err.statusCode.value
    ensures err.statusCode == None || err.statusCode == Some(0) ==> status == 500
    ensures status != 0
  {
    if err.statusCode.Some? && err.statusCode.value != 0 then err.statusCode.value else 500
  }

  /**
   * `errorHandler(err, req, res, next)` with `process.env.NODE_ENV` as
   * `nodeEnv`: the status and message with their defaults, `success: false`,
   * and the stack only in development.
   */
  function HandleError(err: AppError, nodeEnv: Option<string>): (r: ErrorResponse)
    ensures r.status == StatusOf(err)
    ensures !r.body.success
    ensures err.message != "" ==> r.body.message == err.message
    ensures err.message == "" ==> r.body.message == "Internal Server Error"
    ensures r.body.stack.Some? <==> nodeEnv == Some("development")
    ensures r.body.stack.Some? ==> r.body.stack.value == err.stack
  {
    var message := OrElse(Some(err.message), "Internal Server Error");
    var stack := if nodeEnv == Some("development") then Some(err.stack) else None;
    ErrorResponse(StatusOf(err), ErrorBody(false, message, stack))
  }

  /** An `ApiError` with a non-empty message and a non-zero status reaches the client exactly as thrown. */
  lemma ApiErrorReachesClient(message: string, statusCode: int, stack: Option<string>, nodeEnv: Option<string>)
    requires message != "" && statusCode != 0
    ensures HandleError(NewApiError(message, Some(statusCode), stack), nodeEnv).status == statusCode
    ensures HandleError(NewApiError(message, Some(statusCode), stack), nodeEnv).body.message == message
  {
  }

  /** An error without a status, such as a plain `Error`, becomes a 500, whatever it says. */
  lemma PlainErrorIs500(message: string, stack: Option<string>, nodeEnv: Option<string>)
    ensures HandleError(PlainError(message, stack), nodeEnv).status == 500
    ensures HandleError(NewApiError(message, None, stack), nodeEnv).status == 500
  {
  }

  /** `ApiError(m, 0)` is not a status-0 response: `||` turns the 0 into 500. */
  lemma ZeroStatusBecomes500(message: string, stack: Option<string>, nodeEnv: Option<string>)
    ensures HandleError(NewApiError(message, Some(0), stack), nodeEnv).status == 500
  {
  }

  /** Outside development the response never carries the stack, and the response does not depend on it. */
  lemma StackHiddenOutsideDevelopment(err: AppError, other: Option<string>, nodeEnv: Option<string>)
    requires nodeEnv != Some("development")
    ensures HandleError(err, nodeEnv).body.stack == None
    ensures HandleError(err, nodeEnv) == HandleError(err.(stack := other), nodeEnv)
  {
  }

  /** `isOperational` is set by `ApiError` but the handler never reads it. */
  lemma OperationalFlagIgnored(err: AppError, flag: Option<bool>, nodeEnv: Option<string>)
    ensures HandleError(err, nodeEnv) == HandleError(err.(isOperational := flag), nodeEnv)
  {
  }
}
