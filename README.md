# openrouter-cli-tool — a verified model of the request core

The CLI manages the API keys of an OpenRouter account: it lists them,
creates, updates, inspects and deletes them, and checks a key's limits.
Beneath its prompts and console output sits a small core of decisions,
and this project models that core:

- **`makeApiRequest`** (`ApiClient`) builds one request:
  - the target URL and the query pairs that survive the null/undefined filter;
  - the `Authorization: Bearer` header, and `Content-Type` only when there is a body.

  It then settles with one of five outcomes: a network error, an `ApiError` with the
  response status and a message taken from the error body or the status line, `{}`
  for 204, the parsed body, or a body-parse error. The network is a
  `FetchOutcome` value handed in by the caller.
- **`handleApiError`** (`ErrorHandler`) turns a thrown value into a `Report`: the
  context prefix, the hint category for the status, and whether the error data's
  details are printed.
- **`listApiKeys`** (`ListKeys`) is a `while` loop over pages of 100 keys. The server
  is a sequence of replies, one per request. The walk stops at the first short or
  malformed page, or at the first error. The keys are then laid out as table rows
  inside the same `try`, so a record whose row cannot be built fails the command too.
  Either error is reported and rethrown.
- **The commands** (`CreateKey`, `UpdateKey`, `DeleteKey`, `GetKey`, `CheckKeyLimit`)
  each return a `Run`: the requests issued, what the command resolved or rejected
  with, and the error-handler reports. Their guards run in the source's order before
  any request. `createApiKey` keeps three states of `limit` apart: left out, `null`,
  and a non-negative number.

Shared pieces:
- `Json` holds JSON values and JavaScript truthiness.
- `Text` holds `trim()` and `String(n)` for integers.
- `Commands` holds the environment record, `Run`, and the TypeError raised by reading
  a property of `null`.

The source's doc comment says an `ApiError` is thrown for statuses of 400 and above.
The code throws one for every status outside 200–299, and the model follows the code.

## Model

| member | source | states |
|---|---|---|
| Text.Trim | src/commands/createKey.ts:23-26 | `trim()` is the slice of its input between two all-whitespace margins; it is empty exactly when the input is all whitespace, and otherwise starts and ends with a character that is not whitespace |
| Text.TrimIdempotent | src/commands/createKey.ts:32 | trimming the trimmed name changes nothing |
| Text.NatToStringRoundTrip | src/utils/apiClient.ts:66 | `String(n)` of a non-negative integer reads back as `n` |
| Text.NatToStringInjective | src/utils/apiClient.ts:66 | different integers give different query texts |
| Json.JsString | src/utils/apiClient.ts:105-107 | `String(v)` of a string is the string, of an object `[object Object]` unless the object's own `toString` makes the conversion throw; a number has a text exactly when it is a safe integer |
| Json.SafeIntegerText | src/utils/apiClient.ts:105-107 | the text of a safe non-negative integer is its decimal digits and reads back as that integer |
| Json.Get | src/commands/getKey.ts:48 | a property read yields a value exactly when the value is an object that has the key, and then the field's value |
| ApiClient.FilterParams | src/utils/apiClient.ts:64-68 | the filter appends at most one pair per entry |
| ApiClient.FilterParamsAppend | src/utils/apiClient.ts:64-68 | the filter works entry by entry in entry order: the pairs of `a + b` are those of `a`, then those of `b` |
| ApiClient.FilterParamsMembership | src/utils/apiClient.ts:63-68 | `(key, text)` is in the query exactly when some entry has that key, a value that is neither undefined nor null, and `String(value) == text` |
| ApiClient.RequestHeaders | src/utils/apiClient.ts:70-75 | `Authorization` is always `Bearer ` + key; `Content-Type: application/json` is present exactly when there is a body; there are no other headers |
| ApiClient.RequestFor | src/utils/apiClient.ts:59-88 | the request has the caller's method, the URL base + endpoint, the filtered query and the Bearer header; `Content-Type` is present exactly when the body is sent; the body is the caller's |
| ApiClient.SelectMessage | src/utils/apiClient.ts:98-108 | the message takes `error.message` when truthy, else the top-level `message` when truthy, else the status line. A chosen detail that cannot be converted to a string leaves the status line, because the template throws inside the `try`. The message always carries the response status |
| ApiClient.UnrenderableDetailKeepsStatusLine | src/utils/apiClient.ts:100-110 | a truthy nested message that cannot be converted gives the status line, and the top-level `message` is not consulted |
| ApiClient.MessageText | src/utils/apiClient.ts:99-107 | the status line renders as `HTTP Error {status}: {statusText}` and a detail as `API Error ({status}): {String(detail)}` |
| ApiClient.MessageMentionsStatus | src/utils/apiClient.ts:99-107 | both message forms contain the status code's digits |
| ApiClient.StringDetailMessage | src/utils/apiClient.ts:104-105 | a string `error.message` appears verbatim after `API Error ({status}): ` |
| ApiClient.NestedErrorExample | src/utils/apiClient.ts:104-105 | the body `{"error":{"message":"bad"}}` at 400 gives `API Error (400): bad` |
| ApiClient.Classify | src/utils/apiClient.ts:90-136 | the five outcomes: a transport error exactly when fetch failed; an HTTP error exactly for a non-ok status, carrying that status, the parsed body or null, and the selected message; no content exactly for 204; the parsed body exactly for another ok status with a parsable body |
| ApiClient.Settle | src/utils/apiClient.ts:90-136 | the promise resolves exactly for no content and a parsed body; it rejects with an `ApiError` exactly for an HTTP error, and never with a non-Error |
| ApiClient.Execute | src/utils/apiClient.ts:82-136 | a failed fetch is the plain Error `Network or fetch error: …`, never an `ApiError`. Every non-ok status, whether or not its body parsed, is an `ApiError` with exactly that status and the parsed body or null. 204 is `{}` whatever the body. Any other ok status is its parsed body, or the plain Error `Failed to parse successful response JSON: …` |
| ApiClient.MakeApiRequest | src/utils/apiClient.ts:59-137 | the param loop, the headers built in place and the step-by-step `errorData`/`errorMessage` give exactly the request `RequestFor` describes and the outcome `Execute` describes |
| ErrorHandler.ContextPrefix | src/utils/errorHandler.ts:11-15 | the prefix is `\nError`, then ` while {ctx}` only for a non-empty context, then `:` |
| ErrorHandler.HintFor | src/utils/errorHandler.ts:22-57 | 400 is bad request; 401 and 403 are authentication; 404 is not found; 429 is rate limit; 500, 502, 503 and 504 are server error; any other status has no hint |
| ErrorHandler.HandleApiError | src/utils/errorHandler.ts:10-66 | an `ApiError` gives an API report with its status, message and hint, and details exactly when the hint prints them and `errorData` is truthy. Another Error gives an unexpected-error report with its message. Anything else gives an unknown report. The prefix is always `ContextPrefix(context)` |
| Commands.ReadMember | src/commands/listKeys.ts:56 | reading a property throws the TypeError exactly when the result is null; otherwise it yields the property |
| Commands.DataOrWhole | src/commands/getKey.ts:48 | reading `data` or else the whole result: an error passes unchanged; a null result throws; otherwise the value is `data` when truthy and the whole result when not |
| ListKeys.FirstStop | src/commands/listKeys.ts:41-76 | the walk stops at the first page that is not full: every earlier page is full |
| ListKeys.FirstStopIsLeast | src/commands/listKeys.ts:65-75 | no page before a short, malformed or failed page can be the stop |
| ListKeys.FullPageExtends | src/commands/listKeys.ts:60-71 | a full page before the stop adds its records to the keys and lets the walk go on |
| ListKeys.NotFullIsStop | src/commands/listKeys.ts:65-75 | a page that is not full, reached through full pages only, is where the walk stops |
| ListKeys.NextPageRequested | src/commands/listKeys.ts:50-54 | the request made after n pages is the request for page n |
| ListKeys.FetchPage | src/commands/listKeys.ts:50-56 | one turn issues GET /keys at the current offset and classifies the page from the reply |
| ListKeys.WalkPages | src/commands/listKeys.ts:39-76 | the loop issues exactly k + 1 requests for pages 0..k, where k is the first page that is not full. The keys are the records of the full pages and then of page k in order, or the failing page's error |
| ListKeys.FirstBadRow | src/commands/listKeys.ts:84-104 | the table is built up to the first record whose row throws: every earlier row builds, and that record's row throws |
| ListKeys.NullRecordFailsTable | src/commands/listKeys.ts:84-86 | a null record stops the table at or before it, with the TypeError of reading `created_at` when it is the first |
| ListKeys.ListApiKeys | src/commands/listKeys.ts:22-118 | without a provisioning key nothing is requested. Otherwise the walk's requests. An error in the walk is reported with `listing keys (around page k+1)` and rethrown unchanged. After a walk that succeeded, the first record whose table row throws (a null record, or a `created_at`, `limit` or `usage` that cannot be converted) gives that error, reported with the same context and rethrown; otherwise the run resolves with the keys |
| ListKeys.CollectedAppend | src/commands/listKeys.ts:60-62 | the keys gathered are the in-order concatenation of the pages |
| ListKeys.FullPageAsksOnce | src/commands/listKeys.ts:68-71 | a full page is followed by one more request |
| ListKeys.PageOffsets | src/commands/listKeys.ts:35-69 | page i's query is `offset={100 i}&limit=100`: the first offset is 0, and each next one is 100 further |
| CreateKey.CreateBody | src/commands/createKey.ts:31-56 | the body has the trimmed name. It has the label exactly when one was passed, null or string. It has the limit as null for a null limit and as the number for a non-negative one, and no limit otherwise. There are no other fields |
| CreateKey.BuildCreateBody | src/commands/createKey.ts:31-56 | the in-place assignments build exactly that body |
| CreateKey.AbsentAndNullLimitDiffer | src/commands/createKey.ts:40-56 | an undefined limit leaves the field out, while `null` sends `limit: null`, so the two bodies differ |
| CreateKey.RejectedLimitIsDropped | src/commands/createKey.ts:44-52 | a negative or NaN limit gives the same body as no limit |
| CreateKey.CreateApiKey | src/commands/createKey.ts:13-100 | the provisioning key is checked first, then a blank name; neither issues a request. Otherwise there is one POST /keys with the body. A failed request, or a null result, is reported with `creating key "{trimmed}"` and rethrown unchanged. The key is shown exactly when the result and its `key` are truthy |
| UpdateKey.UpdateApiKey | src/commands/updateKey.ts:24-77 | the key is checked, then the hash, then the update fields; none of those paths issues a request. An empty update returns successfully even so. Otherwise the one request is exactly the PATCH `makeApiRequest` builds for `/keys/{trimmed}` with the updates as the body: the Bearer header, `Content-Type: application/json`, and no other header. Errors are rethrown unchanged, with no report |
| DeleteKey.DeleteApiKey | src/commands/deleteKey.ts:13-57 | the key is checked, then the hash, before any request. Otherwise the one request is exactly the DELETE `makeApiRequest` builds for `/keys/{trimmed}`: no body, and only the Bearer header. Errors are reported with `deleting key hash "{trimmed}"` and rethrown. Details are shown exactly when the result is truthy and has truthy `data` or at least one key |
| DeleteKey.NoContentShowsNothing | src/commands/deleteKey.ts:44-50 | a 204 reply takes the "no content" branch |
| DeleteKey.FieldsShowDetails | src/commands/deleteKey.ts:44-46 | a 200 reply with a non-empty object takes the details branch |
| GetKey.GetSpecificKeyDetails | src/commands/getKey.ts:10-55 | the key is checked, then the hash, before any request. Otherwise the one request is exactly the GET `makeApiRequest` builds for `/keys/{trimmed}`: no body, and only the Bearer header. The value shown is `data` when truthy and the whole result when not. Errors are rethrown unchanged, with no report |
| GetKey.TruthyDataIsShown | src/commands/getKey.ts:48 | a reply whose body has a truthy `data` shows exactly that `data` |
| CheckKeyLimit.CheckApiKeyLimit | src/commands/checkKeyLimit.ts:11-46 | a non-empty override is used, and labelled provided, exactly when it is set; otherwise the environment's key is used. With neither key it throws before any request. Otherwise the one request is exactly the GET `makeApiRequest` builds for `/auth/key`: no body, and only the Bearer header with the chosen key. Errors are rethrown unchanged |
| CheckKeyLimit.EmptyOverrideFallsBack | src/commands/checkKeyLimit.ts:13 | an empty override behaves exactly like no override, whether or not the environment has a key |

## Left out

- Console output is not modelled. That covers every `console.log`/`warn`/`error` line, the `console.table` display of the keys, and the text of the date and amount formatting it uses. What building the table's rows throws is modelled. `handleApiError` is modelled by the `Report` it would print: prefix, status, message, hint and details. Its hint lines are in `HintText`.
- The `error.message` that update, get and check-limit print before rethrowing is console output and is not modelled. The rethrow itself is.
- `fetch`, `response.json()` and async/await become a `FetchOutcome` value. A body is either parsed JSON or a parse failure with its reason.
- The `URL` class is reduced: the target is the base URL followed by the endpoint, and the query is the list of appended pairs. Percent-encoding and path normalisation (of a hash containing `/`, `?` or `#`) are not modelled.
- `JSON.stringify` is not modelled. The body is the JSON object that would be serialised.
- JSON numbers are reals. `String()` and template rendering need float formatting for a number that is not a safe integer (a fraction, or an integer beyond `Number.MAX_SAFE_INTEGER`, which prints in exponent form or with rounded digits), so `Json.JsString` and `ApiClient.MessageText` give no text there.
- Query parameter values that are numbers are integers. The source only ever passes offsets and limits.
- `Object.entries` lists integer-like keys first. The model takes the entries in the order given.
- CreateKey.CreateApiKey: the limit is a finite number or NaN. Infinities are not modelled, and `JSON.stringify` would send one as null.
- ListKeys.WalkPages: requires that some reply in the sequence ends the walk. The source loops forever against a server that returns full pages without end.
- ListKeys.ListApiKeys: carries the same requirement, and only when the provisioning key is set.
- `process.env` and dotenv loading become the `Env` record.
- The stack-trace capture in `ApiError` is not modelled.
- `src/cli.ts` (prompts, menus, exit codes) and the smoke scripts under `tests/` are not part of this model.
