/**
 * The error classifier of src/utils/errorHandler.ts. It only reports: it
 * takes what a command caught and an optional context, and yields the
 * report it prints; the error itself is left to the caller, which rethrows it.
 */
module ErrorHandler {
  import opened Wrappers
  import opened Json
  import opened ApiClient

  /** The hint printed after an ApiError, by status. */
  datatype Hint = BadRequest | AuthFailed | NotFound | RateLimited | ServerError | NoHint

  /** What `handleApiError` prints, line by line, as structured data. */
  datatype Report =
      /** `{prefix} API Error ({status}): {message}`, then the hint, then the details. */
    | ApiReport(prefix: string, status: nat, message: ErrorMessage, hint: Hint, details: Option<Json>)
      /** `{prefix} Unexpected error: {text}` for any other Error. */
    | UnexpectedReport(prefix: string, text: string)
      /** `{prefix} An unknown error occurred:` for a thrown non-Error. */
    | UnknownReport(prefix: string, value: Json)

  /** `"\nError"`, then ` while {context}` for a non-empty context, then `":"`. */
  function ContextPrefix(context: Option<string>): (p: string)
    ensures context.Some? && context.value != "" ==> p == "\nError while " + context.value + ":"
    ensures context.None? || context.value == "" ==> p == "\nError:"
  {
    var base := "\nError";
    var withContext := if context.Some? && context.value != "" then base + " while " + context.value else base;
    withContext + ":"
  }

  /** The `switch (error.status)` of the handler. */
  function HintFor(status: nat): (h: Hint)
    ensures h == BadRequest <==> status == 400
    ensures h == AuthFailed <==> status == 401 || status == 403
    ensures h == NotFound <==> status == 404
    ensures h == RateLimited <==> status == 429
    ensures h == ServerError <==> status == 500 || status == 502 || status == 503 || status == 504
    ensures h == NoHint <==> status !in {400, 401, 403, 404, 429, 500, 502, 503, 504}
  {
    match status
    case 400 => BadRequest
    case 401 => AuthFailed
    case 403 => AuthFailed
    case 404 => NotFound
    case 429 => RateLimited
    case 500 => ServerError
    case 502 => ServerError
    case 503 => ServerError
    case 504 => ServerError
    case _ => NoHint
  }

  /** The hint line itself. */
  function HintText(h: Hint): Option<string> {
    match h
    case BadRequest => Some("-> Bad Request. Please check the data you provided (e.g., name format, limit value).")
    case AuthFailed => Some("-> Authentication/Authorization failed. Please check if your API key (Provisioning or Regular) is correct, valid, and has the necessary permissions for this operation.")
    case NotFound => Some("-> The requested resource (e.g., key hash) was not found.")
    case RateLimited => Some("-> Rate limit exceeded. Please wait a bit before trying again.")
    case ServerError => Some("-> The OpenRouter server encountered an error. Please try again later.")
    case NoHint => None
  }

  /** The branches that print `API Error Details` when errorData is truthy. */
  predicate PrintsDetails(h: Hint) {
    h != AuthFailed && h != RateLimited
  }

  /** `handleApiError(error, context)`. */
  function HandleApiError(error: Thrown, context: Option<string>): (r: Report)
    ensures r.prefix == ContextPrefix(context)
    ensures r.ApiReport? <==> error.ApiError?
    ensures r.ApiReport? ==>
      && r.status == error.status && r.message == error.message
      && r.hint == HintFor(error.status)
      && (r.details.Some? <==> PrintsDetails(r.hint) && Truthy(error.errorData))
      && (r.details.Some? ==> r.details.value == error.errorData)
    ensures r.UnexpectedReport? <==> error.PlainError?
    ensures r.UnexpectedReport? ==> r.text == error.text
    ensures r.UnknownReport? <==> error.NonError?
  {
    var prefix := ContextPrefix(context);
    match error
    case ApiError(message, status, errorData) =>
      var hint := HintFor(status);
      var details := if PrintsDetails(hint) && Truthy(errorData) then Some(errorData) else None;
      ApiReport(prefix, status, message, hint, details)
    case PlainError(text) => UnexpectedReport(prefix, text)
    case NonError(value) => UnknownReport(prefix, value)
  }
}
