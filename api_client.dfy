/**
 * The request executor of src/utils/apiClient.ts: building one
 * authenticated request (URL, query string, headers, body) and classifying
 * what the network delivers into a value or a thrown error.
 *
 * The network is not modelled: `fetch` is replaced by a `FetchOutcome`, the
 * thing the call delivered (a transport failure, or a response whose body
 * did or did not parse as JSON).
 */
module ApiClient {
  import opened Wrappers
  import opened Json
  import opened Text

  const BaseUrl := "https://openrouter.ai/api/v1"
  const Authorization := "Authorization"
  const ContentType := "Content-Type"
  const JsonMediaType := "application/json"
  const NetworkErrorPrefix := "Network or fetch error: "
  const BadSuccessBodyPrefix := "Failed to parse successful response JSON: "

  datatype Method = GET | POST | PATCH | DELETE

  /** A query parameter value: `string | number | undefined | null`. */
  datatype ParamValue = Undefined | Null | StrParam(s: string) | NumParam(n: int)

  /**
   * The options of one call. `body` is the JSON object to send, or None for
   * an absent or null body; `params` are the entries of the params record,
   * in entry order.
   */
  datatype RequestOptions = RequestOptions(
    verb: Method,
    apiKey: string,
    body: Option<map<string, Json>>,
    params: seq<(string, ParamValue)>)

  /**
   * The request as issued: the URL `target` followed by the appended query
   * pairs, the headers, and the body that is serialised when present.
   */
  datatype Request = Request(
    verb: Method,
    target: string,
    query: seq<(string, string)>,
    headers: map<string, string>,
    body: Option<map<string, Json>>)

  /** Whether `response.json()` produced a value or rejected. */
  datatype BodyParse = Parsed(value: Json) | Unparseable(reason: string)

  datatype Response = Response(status: nat, statusText: string, body: BodyParse)

  /** What the `fetch` call delivered. */
  datatype FetchOutcome = FetchFailed(cause: string) | Received(response: Response)

  /** `response.ok`. */
  predicate IsOk(status: nat) {
    200 <= status <= 299
  }

  /**
   * The message of an ApiError: a detail taken from the error body,
   * rendered `API Error ({status}): {detail}`, or the status line, rendered
   * `HTTP Error {status}: {statusText}`.
   */
  datatype ErrorMessage =
    | DetailMessage(status: nat, detail: Json)
    | StatusLine(status: nat, statusText: string)

  /** What a call can throw: an ApiError, a plain Error, or a non-Error value. */
  datatype Thrown =
    | ApiError(message: ErrorMessage, status: nat, errorData: Json)
    | PlainError(text: string)
    | NonError(value: Json)

  /** The five ways one call can end. */
  datatype ApiOutcome =
    | TransportError(cause: string)
    | HttpError(httpStatus: nat, httpMessage: ErrorMessage, errorData: Json)
    | NoContent
    | ParsedBody(value: Json)
    | BodyParseError(reason: string)

  // ---------------------------------------------------------------------
  // Building the request
  // ---------------------------------------------------------------------

  predicate IsPresent(v: ParamValue) {
    !v.Undefined? && !v.Null?
  }

  /** `String(value)` for a present parameter value. */
  function ParamText(v: ParamValue): string
    requires IsPresent(v)
  {
    match v
    case StrParam(s) => s
    case NumParam(n) => IntToString(n)
  }

  /** The query pairs appended for `params`: present entries only, in order. */
  function FilterParams(params: seq<(string, ParamValue)>): (q: seq<(string, string)>)
    ensures |q| <= |params|
  {
    if params == [] then []
    else
      var last := params[|params| - 1];
      FilterParams(params[..|params| - 1])
        + (if IsPresent(last.1) then [(last.0, ParamText(last.1))] else [])
  }

  /** Filtering distributes over concatenation: the entry order is kept. */
  lemma {:induction false} FilterParamsAppend(a: seq<(string, ParamValue)>, b: seq<(string, ParamValue)>)
    ensures FilterParams(a + b) == FilterParams(a) + FilterParams(b)
    decreases |b|
  {
    if b != [] {
      var ab := a + b;
      assert ab[..|ab| - 1] == a + b[..|b| - 1];
      FilterParamsAppend(a, b[..|b| - 1]);
    } else {
      assert a + b == a;
    }
  }

  /**
   * A pair is in the query exactly when some entry with that key has a
   * present value whose text is that string: undefined and null values
   * never reach the URL, every other value does.
   */
  lemma {:induction false} FilterParamsMembership(params: seq<(string, ParamValue)>, key: string, text: string)
    ensures (key, text) in FilterParams(params) <==>
      exists i :: 0 <= i < |params| && params[i].0 == key && IsPresent(params[i].1) && ParamText(params[i].1) == text
  {
    if params != [] {
      var init := params[..|params| - 1];
      FilterParamsMembership(init, key, text);
      var n := |params| - 1;
      if (key, text) in FilterParams(params) && (key, text) !in FilterParams(init) {
        assert params[n].0 == key && IsPresent(params[n].1) && ParamText(params[n].1) == text;
      }
      if exists i :: 0 <= i < |params| && params[i].0 == key && IsPresent(params[i].1) && ParamText(params[i].1) == text {
        var i :| 0 <= i < |params| && params[i].0 == key && IsPresent(params[i].1) && ParamText(params[i].1) == text;
        if i < n {
          assert init[i] == params[i];
        }
      }
    }
  }

  /** The headers: always the bearer credential, the JSON content type only with a body. */
  function RequestHeaders(apiKey: string, hasBody: bool): (h: map<string, string>)
    ensures Authorization in h && h[Authorization] == "Bearer " + apiKey
    ensures ContentType in h <==> hasBody
    ensures ContentType in h ==> h[ContentType] == JsonMediaType
    ensures h.Keys <= {Authorization, ContentType}
  {
    var h := map[Authorization := "Bearer " + apiKey];
    if hasBody then h[ContentType := JsonMediaType] else h
  }

  /** The request `makeApiRequest(endpoint, options)` issues. */
  function RequestFor(endpoint: string, options: RequestOptions): (r: Request)
    ensures r.verb == options.verb && r.target == BaseUrl + endpoint
    ensures r.query == FilterParams(options.params)
    ensures Authorization in r.headers && r.headers[Authorization] == "Bearer " + options.apiKey
    ensures ContentType in r.headers <==> r.body.Some?
    ensures r.body == options.body
  {
    Request(options.verb, BaseUrl + endpoint, FilterParams(options.params),
            RequestHeaders(options.apiKey, options.body.Some?), options.body)
  }

  // ---------------------------------------------------------------------
  // Classifying what came back
  // ---------------------------------------------------------------------

  /** `errorData` after the best-effort parse: the parsed body, or null. */
  function ErrorData(body: BodyParse): Json {
    if body.Parsed? then body.value else JNull
  }

  /** `errorData?.error?.message`. */
  function NestedMessage(data: Json): Option<Json> {
    OptGet(Get(data, "error"), "message")
  }

  /**
   * The message of the ApiError: the nested `error.message` when it is
   * truthy, otherwise the top-level `message` when that is truthy,
   * otherwise the status line. Rendering the chosen detail into the
   * template throws when it cannot be converted to a string; the `catch`
   * around the parse swallows that, and the status line stays.
   */
  function SelectMessage(status: nat, statusText: string, data: Json): (m: ErrorMessage)
    ensures m.status == status
    ensures m.DetailMessage? <==>
      || (IsTruthy(NestedMessage(data)) && !ToPrimitiveThrows(NestedMessage(data).value))
      || (!IsTruthy(NestedMessage(data)) && IsTruthy(Get(data, "message"))
          && !ToPrimitiveThrows(Get(data, "message").value))
    ensures m.DetailMessage? && IsTruthy(NestedMessage(data)) ==> m.detail == NestedMessage(data).value
    ensures m.DetailMessage? && !IsTruthy(NestedMessage(data)) ==> m.detail == Get(data, "message").value
    ensures m.StatusLine? ==> m.statusText == statusText
  {
    var detail := if IsTruthy(NestedMessage(data)) then NestedMessage(data)
      else if IsTruthy(Get(data, "message")) then Get(data, "message")
      else None;
    if detail.Some? && !ToPrimitiveThrows(detail.value) then DetailMessage(status, detail.value)
    else StatusLine(status, statusText)
  }

  /**
   * A nested message that cannot be rendered leaves the status line, even
   * when a top-level `message` is there: the template threw before the
   * `else if` was reached.
   */
  lemma UnrenderableDetailKeepsStatusLine(status: nat, statusText: string, data: Json)
    requires IsTruthy(NestedMessage(data)) && ToPrimitiveThrows(NestedMessage(data).value)
    ensures SelectMessage(status, statusText, data) == StatusLine(status, statusText)
  {
  }

  /**
   * The rendered message text: the status line, or the detail's `String()`
   * after the status. None where that text needs float formatting.
   */
  function MessageText(m: ErrorMessage): (r: Option<string>)
    ensures m.StatusLine? ==> r == Some("HTTP Error " + NatToString(m.status) + ": " + m.statusText)
    ensures m.DetailMessage? ==> (r.Some? <==> JsString(m.detail).Some?)
    ensures m.DetailMessage? && r.Some? ==>
      r.value == "API Error (" + NatToString(m.status) + "): " + JsString(m.detail).value
  {
    match m
    case DetailMessage(status, detail) =>
      var d := JsString(detail);
      if d.None? then None else Some("API Error (" + NatToString(status) + "): " + d.value)
    case StatusLine(status, statusText) =>
      Some("HTTP Error " + NatToString(status) + ": " + statusText)
  }

  /** Both message forms contain the status code. */
  lemma MessageMentionsStatus(m: ErrorMessage)
    requires MessageText(m).Some?
    ensures Contains(MessageText(m).value, NatToString(m.status))
  {
    var t := MessageText(m).value;
    var code := NatToString(m.status);
    var i := if m.DetailMessage? then |"API Error ("| else |"HTTP Error "|;
    assert t[i..][..|code|] == code;
  }

  /** A string detail appears verbatim after the status code. */
  lemma StringDetailMessage(status: nat, statusText: string, data: Json, detail: string)
    requires NestedMessage(data) == Some(JStr(detail)) && detail != ""
    ensures MessageText(SelectMessage(status, statusText, data))
      == Some("API Error (" + NatToString(status) + "): " + detail)
    ensures Contains(MessageText(SelectMessage(status, statusText, data)).value, detail)
  {
    var t := "API Error (" + NatToString(status) + "): " + detail;
    var i := |t| - |detail|;
    assert t[i..] == detail;
  }

  /** An error body `{"error": {"message": "bad"}}` at status 400. */
  lemma NestedErrorExample(statusText: string)
    ensures MessageText(SelectMessage(400, statusText,
        JObj(map["error" := JObj(map["message" := JStr("bad")])])))
      == Some("API Error (400): bad")
  {
    var data := JObj(map["error" := JObj(map["message" := JStr("bad")])]);
    assert NestedMessage(data) == Some(JStr("bad"));
    assert SelectMessage(400, statusText, data) == DetailMessage(400, JStr("bad"));
    assert DigitChar(0) == '0' && DigitChar(4) == '4';
    assert NatToString(4) == "4";
    assert NatToString(40) == "40";
    assert NatToString(400) == "400";
    assert JsString(JStr("bad")) == Some("bad");
    assert MessageText(DetailMessage(400, JStr("bad"))) == Some("API Error (" + "400" + "): " + "bad");
    assert "API Error (" + "400" + "): " + "bad" == "API Error (400): bad";
  }

  /** How the outcome of one call is classified. */
  function Classify(reply: FetchOutcome): (o: ApiOutcome)
    ensures o.TransportError? <==> reply.FetchFailed?
    ensures o.HttpError? <==> reply.Received? && !IsOk(reply.response.status)
    ensures o.NoContent? <==> reply.Received? && reply.response.status == 204
    ensures o.HttpError? ==>
      var r := reply.response;
      && o.httpStatus == r.status
      && o.errorData == ErrorData(r.body)
      && o.httpMessage == SelectMessage(r.status, r.statusText, ErrorData(r.body))
    ensures o.ParsedBody? <==>
      reply.Received? && IsOk(reply.response.status) && reply.response.status != 204 && reply.response.body.Parsed?
    ensures o.ParsedBody? ==> o.value == reply.response.body.value
  {
    match reply
    case FetchFailed(cause) => TransportError(cause)
    case Received(r) =>
      if !IsOk(r.status) then
        var data := ErrorData(r.body);
        HttpError(r.status, SelectMessage(r.status, r.statusText, data), data)
      else if r.status == 204 then NoContent
      else
        match r.body
        case Parsed(v) => ParsedBody(v)
        case Unparseable(reason) => BodyParseError(reason)
  }

  /** What the promise settles with for each outcome. */
  function Settle(o: ApiOutcome): (r: Result<Json, Thrown>)
    ensures r.Success? <==> o.NoContent? || o.ParsedBody?
    ensures r.Failure? ==> !r.error.NonError?
    ensures r.Failure? && r.error.ApiError? <==> o.HttpError?
  {
    match o
    case TransportError(cause) => Failure(PlainError(NetworkErrorPrefix + cause))
    case HttpError(status, message, data) => Failure(ApiError(message, status, data))
    case NoContent => Success(EmptyObject)
    case ParsedBody(v) => Success(v)
    case BodyParseError(reason) => Failure(PlainError(BadSuccessBodyPrefix + reason))
  }

  /**
   * What `makeApiRequest` resolves or rejects with once the network
   * delivered `reply`.
   */
  function Execute(reply: FetchOutcome): (r: Result<Json, Thrown>)
    // A failed fetch is a plain Error, never an ApiError.
    ensures reply.FetchFailed? ==> r == Failure(PlainError(NetworkErrorPrefix + reply.cause))
    // Every non-ok response is an ApiError with exactly that status.
    ensures (r.Failure? && r.error.ApiError?) <==> reply.Received? && !IsOk(reply.response.status)
    ensures r.Failure? && r.error.ApiError? ==>
      && r.error.status == reply.response.status
      && r.error.message.status == reply.response.status
      && r.error.errorData == ErrorData(reply.response.body)
    // 204 is the empty object, whatever the body.
    ensures reply.Received? && reply.response.status == 204 ==> r == Success(EmptyObject)
    // Any other ok response is its parsed body, or a plain parse Error.
    ensures reply.Received? && IsOk(reply.response.status) && reply.response.status != 204 ==>
      match reply.response.body
      case Parsed(v) => r == Success(v)
      case Unparseable(reason) => r == Failure(PlainError(BadSuccessBodyPrefix + reason))
    ensures r.Failure? ==> !r.error.NonError?
  {
    Settle(Classify(reply))
  }

  /**
   * `makeApiRequest(endpoint, options)`: appends the present query
   * parameters one by one, builds the header record in place, and then
   * interprets `reply`.
   */
  method MakeApiRequest(endpoint: string, options: RequestOptions, reply: FetchOutcome)
    returns (request: Request, result: Result<Json, Thrown>)
    ensures request == RequestFor(endpoint, options)
    ensures result == Execute(reply)
  {
    var params := options.params;
    var query: seq<(string, string)> := [];
    var i := 0;
    while i < |params|
      invariant 0 <= i <= |params|
      invariant query == FilterParams(params[..i])
    {
      var (key, value) := params[i];
      if IsPresent(value) {
        query := query + [(key, ParamText(value))];
      }
      assert params[..i + 1][..i] == params[..i];
      i := i + 1;
    }
    assert params[..i] == params;

    var headers: map<string, string> := map[Authorization := "Bearer " + options.apiKey];
    if options.body.Some? {
      headers := headers[ContentType := JsonMediaType];
    }

    request := Request(options.verb, BaseUrl + endpoint, query, headers, options.body);

    match reply
    case FetchFailed(cause) =>
      result := Failure(PlainError(NetworkErrorPrefix + cause));
    case Received(response) =>
      if !IsOk(response.status) {
        var errorData := JNull;
        var errorMessage := StatusLine(response.status, response.statusText);
        if response.body.Parsed? {
          errorData := response.body.value;
          // A detail that cannot be rendered throws inside the `try`; the
          // `catch` leaves the status line in place.
          if IsTruthy(NestedMessage(errorData)) {
            var detail := NestedMessage(errorData).value;
            if !ToPrimitiveThrows(detail) {
              errorMessage := DetailMessage(response.status, detail);
            }
          } else if IsTruthy(Get(errorData, "message")) {
            var detail := Get(errorData, "message").value;
            if !ToPrimitiveThrows(detail) {
              errorMessage := DetailMessage(response.status, detail);
            }
          }
        }
        result := Failure(ApiError(errorMessage, response.status, errorData));
      } else if response.status == 204 {
        result := Success(EmptyObject);
      } else {
        match response.body
        case Parsed(v) =>
          result := Success(v);
        case Unparseable(reason) =>
          result := Failure(PlainError(BadSuccessBodyPrefix + reason));
      }
  }
}
