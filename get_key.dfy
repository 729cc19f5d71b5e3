/**
 * `getSpecificKeyDetails(keyHash)`: the guards, one GET /keys/{hash}, and
 * the value shown, `result.data || result`.
 */
module GetKey {
  import opened Wrappers
  import opened Json
  import opened Text
  import opened ApiClient
  import opened Commands

  /**
   * `getSpecificKeyDetails()`. Without a provisioning key, or with a blank
   * hash, it throws before any request, in that order. Otherwise one GET
   * without a body goes to the trimmed hash's path, and the value shown is
   * the result's `data` when truthy and the whole result when not; any
   * error is rethrown as it is, with no report from the error handler.
   */
  function GetSpecificKeyDetails(env: Env, keyHash: string, reply: FetchOutcome): (run: Run<Json>)
    ensures !IsSet(env.provisioningKey) ==> run == Refused(MissingProvisioningKey)
    ensures IsSet(env.provisioningKey) && Trim(keyHash) == "" ==> run == Refused(InvalidKeyHash)
    ensures IsSet(env.provisioningKey) && Trim(keyHash) != "" ==>
      && run.requests == [RequestFor(KeyPath(Trim(keyHash)), RequestOptions(GET, env.provisioningKey.value, None, []))]
      && run.reports == []
      && (Execute(reply).Failure? ==> run.result == Failure(Execute(reply).error))
      && run.result == DataOrWhole(Execute(reply))
  {
    if !IsSet(env.provisioningKey) then Refused(MissingProvisioningKey)
    else if keyHash == "" || Trim(keyHash) == "" then Refused(InvalidKeyHash)
    else
      var targetUrlPath := KeyPath(Trim(keyHash));
      var request := RequestFor(targetUrlPath, RequestOptions(GET, env.provisioningKey.value, None, []));
      Run([request], DataOrWhole(Execute(reply)), [])
  }

  /** A reply whose parsed body has a truthy `data` shows that `data`. */
  lemma TruthyDataIsShown(env: Env, keyHash: string, statusText: string, fields: map<string, Json>)
    requires IsSet(env.provisioningKey) && Trim(keyHash) != ""
    requires "data" in fields && Truthy(fields["data"])
    ensures GetSpecificKeyDetails(env, keyHash, Received(Response(200, statusText, Parsed(JObj(fields))))).result
      == Success(fields["data"])
  {
  }
}
