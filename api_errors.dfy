/**
  The api-service's Express error handler: an `AppError` answers with its own
  status and message; otherwise a known Postgres error code picks a fixed status
  and message; a refused or unresolved database connection answers 503; anything
  else answers 500. The body always has `success: false`.
*/
module ApiErrors {
  import opened Wrappers
  import opened JsStrings

  /** A JavaScript `code` property: a string or a number. */
  datatype JsCode = CodeText(text: string) | CodeNumber(n: int)

  /** The error reaching the handler: an `AppError`, or any other error with its
      `code` property (`None` when undefined or null). */
  datatype HandledError =
    | AppError(message: string, statusCode: int, appCode: Option<string>)
    | OtherError(code: Option<JsCode>)

  datatype ErrorBody = ErrorBody(success: bool, error: string, code: Option<JsCode>)
  datatype ErrorResponse = ErrorResponse(status: int, body: ErrorBody)

  predicate Truthy(code: JsCode) {
    match code
    case CodeText(t) => t != []
    case CodeNumber(n) => n != 0
  }

  /** The property key a code is looked up under. */
  function PropertyKey(code: JsCode): string {
    match code
    case CodeText(t) => t
    case CodeNumber(n) => IntToString(n)
  }

  /** The Postgres code table: status and message per SQLSTATE. */
  function PgError(key: string): (r: Option<(int, string)>)
    ensures r.Some? ==> r.value.0 in {400, 409, 500}
    ensures r.Some? && r.value.0 == 409 <==> key == "23505"
    ensures r.Some? && r.value.0 == 400 <==> key in {"23503", "23502", "23514"}
    ensures r.Some? && r.value.0 == 500 <==> key in {"42P01", "42703"}
  {
    if key == "23505" then Some((409, "Duplicate key value violates unique constraint"))
    else if key == "23503" then Some((400, "Foreign key constraint violation"))
    else if key == "23502" then Some((400, "Not null constraint violation"))
    else if key == "23514" then Some((400, "Check constraint violation"))
    else if key == "42P01" then Some((500, "Undefined table"))
    else if key == "42703" then Some((500, "Undefined column"))
    else None
  }

  predicate IsConnectionFailure(code: Option<JsCode>) {
    code == Some(CodeText("ECONNREFUSED")) || code == Some(CodeText("ENOTFOUND"))
  }

  /** `errorHandler`: the rules in order, the `AppError` rule first. */
  function HandleError(err: HandledError): (r: ErrorResponse)
    ensures !r.body.success
    ensures err.AppError? ==>
      && r.status == err.statusCode && r.body.error == err.message
      && (r.body.code.Some? <==> err.appCode.Some? && err.appCode.value != [])
      && (r.body.code.Some? ==> r.body.code.value == CodeText(err.appCode.value))
    ensures err.OtherError? && err.code.Some? && Truthy(err.code.value) && PgError(PropertyKey(err.code.value)).Some? ==>
      r == ErrorResponse(PgError(PropertyKey(err.code.value)).value.0,
                         ErrorBody(false, PgError(PropertyKey(err.code.value)).value.1, err.code))
    ensures err.OtherError? && IsConnectionFailure(err.code) ==>
      r == ErrorResponse(503, ErrorBody(false, "Database connection failed", err.code))
    ensures err.OtherError? && r.body.code.None? ==> r == ErrorResponse(500, ErrorBody(false, "Internal Server Error", None))
    ensures err.OtherError? ==> r.status in {400, 409, 500, 503}
  {
    match err
    case AppError(message, statusCode, appCode) =>
      var code := if appCode.Some? && appCode.value != [] then Some(CodeText(appCode.value)) else None;
      ErrorResponse(statusCode, ErrorBody(false, message, code))
    case OtherError(code) =>
      if code.Some? && Truthy(code.value) && PgError(PropertyKey(code.value)).Some? then
        var (status, message) := PgError(PropertyKey(code.value)).value;
        ErrorResponse(status, ErrorBody(false, message, code))
      else if IsConnectionFailure(code) then
        ErrorResponse(503, ErrorBody(false, "Database connection failed", code))
      else
        ErrorResponse(500, ErrorBody(false, "Internal Server Error", None))
  }

  /** A non-`AppError` echoes its code exactly when the code is a known Postgres code
      or a connection failure; every other error is the plain 500 without a code. */
  lemma CodeEchoedIffRecognised(code: Option<JsCode>)
    ensures var r := HandleError(OtherError(code));
      var recognised := (code.Some? && Truthy(code.value) && PgError(PropertyKey(code.value)).Some?)
                        || IsConnectionFailure(code);
      && (r.body.code.Some? <==> recognised)
      && (r.body.code.Some? ==> r.body.code == code)
      && (!recognised ==> r == ErrorResponse(500, ErrorBody(false, "Internal Server Error", None)))
  {
  }

  /** An `AppError` wins over every other rule, even when it carries a Postgres or
      connection code. */
  lemma AppErrorFirst(message: string, statusCode: int, code: string)
    ensures HandleError(AppError(message, statusCode, Some(code))).status == statusCode
    ensures code != [] ==>
      HandleError(AppError(message, statusCode, Some(code))).body == ErrorBody(false, message, Some(CodeText(code)))
  {
  }

  /** A numeric `code` is looked up under its decimal property key, so the number
      23505 is treated like the SQLSTATE "23505". */
  lemma NumericCodeUsesPropertyKey()
    ensures HandleError(OtherError(Some(CodeNumber(23505)))) ==
      ErrorResponse(409, ErrorBody(false, "Duplicate key value violates unique constraint", Some(CodeNumber(23505))))
  {
    assert NatToString(2) == "2";
    assert NatToString(23) == "23";
    assert NatToString(235) == "235";
    assert NatToString(2350) == "2350";
    assert NatToString(23505) == "23505";
  }
}
