/**
  The frontend's error helpers: the `ApiError` type guard, the normalisation of
  anything thrown into an `ApiError`, the status-code message table, the
  network-error test and the two `try`/`catch` wrappers.
*/
module FrontendErrors {
  import opened Wrappers
  import opened JsStrings

  /** A property value as far as these helpers look at it. */
  datatype Prop = PString(s: string) | PBool(b: bool) | PNumber(n: int) | POther

  /** A thrown value: an object (`isError` for an `Error` instance) with its
      properties, a string, or any other primitive. */
  datatype Thrown = Obj(isError: bool, props: map<string, Prop>) | Text(s: string) | Primitive

  /** `isApiError`: a non-null object with `success` and `message` keys whose
      `success` is `false`. The `in` operator also sees inherited keys, so every
      `Error` instance has `message` through `Error.prototype.message`. */
  predicate IsApiError(error: Thrown): (r: bool)
    ensures !error.Obj? ==> !r
    ensures r ==> "success" in error.props && error.props["success"] == PBool(false)
    ensures error.Obj? && !error.isError && "message" !in error.props ==> !r
    ensures error.Obj? && error.isError && "success" in error.props && error.props["success"] == PBool(false) ==> r
  {
    error.Obj? && "success" in error.props && ("message" in error.props || error.isError)
    && error.props["success"] == PBool(false)
  }

  /** An `ApiError` literal `{success: false, message}`. */
  function ApiErrorOf(message: string): (e: Thrown)
    ensures IsApiError(e)
  {
    Obj(false, map["success" := PBool(false), "message" := PString(message)])
  }

  /** `error.message` of an `Error` instance: its own property, or the inherited "". */
  function ErrorMessage(error: Thrown): Prop
    requires error.Obj?
  {
    if "message" in error.props then error.props["message"] else PString("")
  }

  /** The value `handleError` returns and the thrown value as the caller holds it
      afterwards: an `ApiError` is passed through as the same object, so a custom
      message written into the result is written into the caller's error too. */
  datatype Handled = Handled(apiError: Thrown, errorAfter: Thrown)

  /** The normalisation step of `handleError`, before the custom message. */
  function Normalise(error: Thrown): (r: Thrown)
    ensures IsApiError(r)
    ensures IsApiError(error) ==> r == error
    ensures !IsApiError(error) && error.Obj? && error.isError ==>
      r == Obj(false, map["success" := PBool(false), "message" := ErrorMessage(error)])
    ensures !IsApiError(error) && error.Text? ==> r == ApiErrorOf(error.s)
    ensures !IsApiError(error) && !(error.Obj? && error.isError) && !error.Text? ==>
      r == ApiErrorOf("An unexpected error occurred")
  {
    if IsApiError(error) then error
    else if error.Obj? && error.isError then
      Obj(false, map["success" := PBool(false), "message" := ErrorMessage(error)])
    else if error.Text? then ApiErrorOf(error.s)
    else ApiErrorOf("An unexpected error occurred")
  }

  /** `handleError(error, {customMessage})` (an empty `customMessage` is none): the
      result always satisfies the type guard; a non-empty custom message replaces
      the message, in the caller's object as well when that object was passed
      through; anything else about the input is left as it was. */
  function HandleError(error: Thrown, customMessage: string): (h: Handled)
    ensures IsApiError(h.apiError)
    ensures customMessage == [] ==> h.apiError == Normalise(error) && h.errorAfter == error
    ensures customMessage != [] ==>
      Normalise(error).Obj? && h.apiError == Normalise(error).(props := Normalise(error).props["message" := PString(customMessage)])
    ensures customMessage != [] ==>
      && "message" in h.apiError.props && h.apiError.props["message"] == PString(customMessage)
      && h.apiError.props - {"message"} == Normalise(error).props - {"message"}
      && (IsApiError(error) ==> h.errorAfter == h.apiError)
      && (!IsApiError(error) ==> h.errorAfter == error)
  {
    var normalised := Normalise(error);
    if customMessage == [] then Handled(normalised, error)
    else
      var updated := normalised.(props := normalised.props["message" := PString(customMessage)]);
      Handled(updated, if IsApiError(error) then updated else error)
  }

  /** With a custom message, handling twice is handling once. */
  lemma HandleErrorIdempotent(error: Thrown, customMessage: string)
    ensures var once := HandleError(error, customMessage).apiError;
      HandleError(once, customMessage).apiError == once
  {
    var once := HandleError(error, customMessage).apiError;
    if customMessage != [] {
      assert once.props["message" := PString(customMessage)] == once.props;
    }
  }

  /** An `Error` instance carrying its own `success: false` but no own `message` is an
      `ApiError` by inheritance: `handleError` returns that very object, keeps its other
      properties, and writes a custom message into the caller's object. */
  lemma InheritedMessageErrorPassesThrough(customMessage: string)
    requires customMessage != []
    ensures var e := Obj(true, map["success" := PBool(false), "statusCode" := PNumber(503)]);
      && IsApiError(e)
      && HandleError(e, []) == Handled(e, e)
      && HandleError(e, customMessage).apiError == e.(props := e.props["message" := PString(customMessage)])
      && HandleError(e, customMessage).errorAfter == HandleError(e, customMessage).apiError
  {
  }

  const NoStatusMessage := "An error occurred"
  const UnlistedStatusMessage := "An error occurred. Please try again."
  const UnavailableMessage := "Service unavailable. Please try again later."

  /** The statuses `getErrorMessage` has a text of its own for. */
  const ListedStatuses: set<int> := {400, 401, 403, 404, 409, 422, 429, 500, 502, 503, 504}

  /** `getErrorMessage`: the user-facing text for an HTTP status. */
  function GetErrorMessage(statusCode: Option<int>): (m: string)
    ensures m == NoStatusMessage <==> statusCode.None? || statusCode.value == 0
    ensures m == UnlistedStatusMessage <==>
      statusCode.Some? && statusCode.value != 0 && statusCode.value !in ListedStatuses
    ensures m == UnavailableMessage <==> statusCode == Some(502) || statusCode == Some(503)
  {
    if statusCode.None? || statusCode.value == 0 then NoStatusMessage
    else
      var m := StatusMessage(statusCode.value);
      assert |m| != |NoStatusMessage|;
      m
  }

  function StatusMessage(code: int): (m: string)
    ensures m == UnlistedStatusMessage <==> code !in ListedStatuses
    ensures m == UnavailableMessage <==> code == 502 || code == 503
  {
    match code
    case 400 => "Invalid request. Please check your input."
    case 401 => "Unauthorized. Please log in again."
    case 403 => "You do not have permission to perform this action."
    case 404 => "The requested resource was not found."
    case 409 => "Conflict. The resource already exists or has been modified."
    case 422 => "Validation error. Please check your input."
    case 429 => "Too many requests. Please try again later."
    case 500 => "Server error. Please try again later."
    case 502 => UnavailableMessage
    case 503 => UnavailableMessage
    case 504 => "Request timeout. Please try again."
    case _ => UnlistedStatusMessage
  }

  /** `message.includes(part)` on a property, or `None` when `includes` would throw
      because the message is not a string. */
  function MessageIncludes(message: Prop, part: string): Option<bool> {
    if message.PString? then Some(Includes(message.s, part)) else None
  }

  /** `isNetworkError`: an `Error` whose message mentions a network error, a missing
      response or a timeout; an `ApiError` whose message mentions a missing response;
      `false` for anything else. `None` stands for the `TypeError` thrown when the
      message is not a string. */
  function IsNetworkError(error: Thrown): (r: Option<bool>)
    ensures r == Some(true) <==>
      && error.Obj? && ErrorMessageOrApi(error).PString?
      && (if error.isError
          then Includes(ErrorMessage(error).s, "Network Error")
               || Includes(ErrorMessage(error).s, "No response from server")
               || Includes(ErrorMessage(error).s, "timeout")
          else IsApiError(error) && Includes(error.props["message"].s, "No response from server"))
    ensures !(error.Obj? && (error.isError || IsApiError(error))) ==> r == Some(false)
    ensures r.None? <==> error.Obj? && (error.isError || IsApiError(error)) && !ErrorMessageOrApi(error).PString?
  {
    if error.Obj? && error.isError then
      var message := ErrorMessage(error);
      if !message.PString? then None
      else Some(Includes(message.s, "Network Error") || Includes(message.s, "No response from server")
                || Includes(message.s, "timeout"))
    else if IsApiError(error) then MessageIncludes(error.props["message"], "No response from server")
    else Some(false)
  }

  /** The message `IsNetworkError` reads. */
  function ErrorMessageOrApi(error: Thrown): Prop
    requires error.Obj?
  {
    if error.isError then ErrorMessage(error)
    else if "message" in error.props then error.props["message"] else POther
  }

  /** The `instanceof Error` test comes first: an `Error` that also looks like an
      `ApiError` counts as a network error on a timeout message. */
  lemma ErrorCheckedBeforeApiError()
    ensures var e := Obj(true, map["success" := PBool(false), "message" := PString("timeout")]);
      IsApiError(e) && IsNetworkError(e) == Some(true)
    ensures IsNetworkError(ApiErrorOf("timeout")) == Some(false)
  {
    assert StartsWith("timeout", "timeout");
    assert !StartsWith("timeout", "No response from server");
    NotIncludedInShorter("timeout", "No response from server");
  }

  /** A string cannot contain a longer one. */
  lemma {:induction false} NotIncludedInShorter(s: string, part: string)
    requires |s| < |part|
    ensures !Includes(s, part)
  {
    if s != [] {
      NotIncludedInShorter(s[1..], part);
    }
  }

  /** What an async function did: returned a value or threw. */
  datatype Completion<T> = Returned(value: T) | Threw(error: Thrown)

  /** `tryCatch`: the value, or `null` after handling the error. */
  function TryCatch<T>(fn: Completion<T>): (r: Option<T>)
    ensures r.Some? <==> fn.Returned?
    ensures r.Some? ==> r.value == fn.value
  {
    match fn
    case Returned(v) => Some(v)
    case Threw(_) => None
  }

  /** `tryCatchWithDefault`: the value, or `defaultValue` after handling the error. */
  function TryCatchWithDefault<T>(fn: Completion<T>, defaultValue: T): (r: T)
    ensures fn.Returned? ==> r == fn.value
    ensures fn.Threw? ==> r == defaultValue
  {
    match fn
    case Returned(v) => v
    case Threw(_) => defaultValue
  }

  /** The two wrappers agree: the default one is `tryCatch` with `null` replaced. */
  lemma TryCatchWrappersAgree<T>(fn: Completion<T>, defaultValue: T)
    ensures TryCatchWithDefault(fn, defaultValue) == TryCatch(fn).GetOr(defaultValue)
  {
  }
}
