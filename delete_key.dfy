/**
 * `deleteApiKey(keyHash)`: the guards, one DELETE /keys/{hash} without a
 * body, and the choice between the "no content" message and the details
 * the API returned.
 */
module DeleteKey {
  import opened Wrappers
  import opened Json
  import opened Text
  import opened ApiClient
  import opened ErrorHandler
  import opened Commands

  /** What the command shows after a successful request. */
  datatype DeleteView =
    | NothingReturned      // "Status 204 No Content or empty response"
    | DetailsShown(shown: Json) // `result.data || result`

  /** `result && (result.data || Object.keys(result).length > 0)`. */
  predicate HasDetails(v: Json) {
    Truthy(v) && (IsTruthy(Get(v, "data")) || KeyCount(v) > 0)
  }

  /** The context handed to the error handler. */
  function DeletingContext(keyHash: string): string {
    "deleting key hash \"" + Trim(keyHash) + "\""
  }

  /**
   * `deleteApiKey()`. Without a provisioning key, or with a blank hash, it
   * throws before any request, in that order. Otherwise one DELETE without
   * a body goes to the trimmed hash's path; an error is reported with the
   * trimmed hash and rethrown unchanged, and a result is shown exactly when
   * it has details, as its `data` when that is truthy and whole otherwise.
   */
  function DeleteApiKey(env: Env, keyHash: string, reply: FetchOutcome): (run: Run<DeleteView>)
    ensures !IsSet(env.provisioningKey) ==> run == Refused(MissingProvisioningKey)
    ensures IsSet(env.provisioningKey) && Trim(keyHash) == "" ==> run == Refused(InvalidKeyHash)
    ensures IsSet(env.provisioningKey) && Trim(keyHash) != "" ==>
      var outcome := Execute(reply);
      && run.requests == [RequestFor(KeyPath(Trim(keyHash)), RequestOptions(DELETE, env.provisioningKey.value, None, []))]
      && (outcome.Failure? ==>
            run.result == Failure(outcome.error)
            && run.reports == [HandleApiError(outcome.error, Some(DeletingContext(keyHash)))])
      && (outcome.Success? ==>
            && run.reports == []
            && run.result.Success?
            && (run.result.value.DetailsShown? <==> HasDetails(outcome.value))
            && (run.result.value.DetailsShown? && IsTruthy(Get(outcome.value, "data")) ==>
                  run.result.value.shown == Get(outcome.value, "data").value)
            && (run.result.value.DetailsShown? && !IsTruthy(Get(outcome.value, "data")) ==>
                  run.result.value.shown == outcome.value))
  {
    if !IsSet(env.provisioningKey) then Refused(MissingProvisioningKey)
    else if keyHash == "" || Trim(keyHash) == "" then Refused(InvalidKeyHash)
    else
      var targetUrlPath := KeyPath(Trim(keyHash));
      var request := RequestFor(targetUrlPath, RequestOptions(DELETE, env.provisioningKey.value, None, []));
      match Execute(reply)
      case Failure(e) => Run([request], Failure(e), [HandleApiError(e, Some(DeletingContext(keyHash)))])
      case Success(result) =>
        if HasDetails(result) then Run([request], Success(DetailsShown(Or(Get(result, "data"), result))), [])
        else Run([request], Success(NothingReturned), [])
  }

  /** A 204 reply settles as the empty object, which takes the "no content" branch. */
  lemma NoContentShowsNothing(env: Env, keyHash: string, statusText: string, body: BodyParse)
    requires IsSet(env.provisioningKey) && Trim(keyHash) != ""
    ensures DeleteApiKey(env, keyHash, Received(Response(204, statusText, body))).result == Success(NothingReturned)
  {
  }

  /** A 200 reply with a non-empty object takes the details branch. */
  lemma FieldsShowDetails(env: Env, keyHash: string, statusText: string, fields: map<string, Json>)
    requires IsSet(env.provisioningKey) && Trim(keyHash) != "" && |fields| > 0
    ensures DeleteApiKey(env, keyHash, Received(Response(200, statusText, Parsed(JObj(fields))))).result.value.DetailsShown?
  {
  }
}
