/**
 * What the command operations share: the environment they read their
 * credentials from, the record of one run (the requests issued, what the
 * command resolved or rejected with, the reports the error handler
 * printed), and the error messages of the guards.
 */
module Commands {
  import opened Wrappers
  import opened Json
  import opened ApiClient
  import opened ErrorHandler

  /** `process.env`: PROVISIONING_API_KEY and OPENROUTER_API_KEY. */
  datatype Env = Env(provisioningKey: Option<string>, apiKey: Option<string>)

  /** The JavaScript truthiness of an optional string. */
  predicate IsSet(v: Option<string>) {
    v.Some? && v.value != ""
  }

  const MissingProvisioningKey := "PROVISIONING_API_KEY not set."
  const InvalidKeyHash := "Invalid key hash."
  const InvalidKeyName := "Invalid key name."

  /** One run of a command: at most the listed requests went out, in order. */
  datatype Run<V> = Run(requests: seq<Request>, result: Result<V, Thrown>, reports: seq<Report>)

  /** A run stopped by a guard: a plain Error and no request. */
  function Refused<V>(text: string): Run<V> {
    Run([], Failure(PlainError(text)), [])
  }

  /** The TypeError thrown when the property `key` of null is read. */
  function NullRead(key: string): Thrown {
    PlainError("Cannot read properties of null (reading '" + key + "')")
  }

  /** The TypeError thrown when a value cannot be converted to a primitive. */
  const ConversionError: Thrown := PlainError("Cannot convert object to primitive value")

  /**
   * `v.key` on a parsed result: reading a property of null throws a
   * TypeError; any other value yields the property or undefined.
   */
  function ReadMember(v: Json, key: string): (r: Result<Option<Json>, Thrown>)
    ensures r.Failure? <==> v.JNull?
    ensures r.Failure? ==> r.error == NullRead(key)
    ensures r.Success? ==> r.value == Get(v, key)
  {
    if v.JNull? then Failure(NullRead(key))
    else Success(Get(v, key))
  }

  /**
   * `result.data || result` evaluated on what the request settled with:
   * the request's error propagates unchanged, a null result throws the
   * TypeError of reading `data`, and otherwise the value shown is the
   * result's `data` when that is truthy and the whole result when not.
   */
  function DataOrWhole(result: Result<Json, Thrown>): (r: Result<Json, Thrown>)
    ensures result.Failure? ==> r == Failure(result.error)
    ensures result == Success(JNull) ==> r == Failure(NullRead("data"))
    ensures r.Success? <==> result.Success? && !result.value.JNull?
    ensures r.Success? && IsTruthy(Get(result.value, "data")) ==> r.value == Get(result.value, "data").value
    ensures r.Success? && !IsTruthy(Get(result.value, "data")) ==> r.value == result.value
  {
    match result
    case Failure(e) => Failure(e)
    case Success(v) =>
      match ReadMember(v, "data")
      case Failure(e) => Failure(e)
      case Success(data) => Success(Or(data, v))
  }

  /** The path `/keys/{hash}` for a trimmed hash. */
  function KeyPath(trimmedHash: string): string {
    "/keys/" + trimmedHash
  }
}
