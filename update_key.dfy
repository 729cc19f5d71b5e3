/**
 * `updateApiKey(keyHash, updates)`: the guards (provisioning key, then
 * hash, then the empty-update short cut) and one PATCH /keys/{hash} that
 * sends the updates as they were given.
 */
module UpdateKey {
  import opened Wrappers
  import opened Json
  import opened Text
  import opened ApiClient
  import opened Commands

  /** What the command ends with when it does not throw. */
  datatype UpdateView =
    | NoFieldsGiven      // nothing to update: returned without a request
    | Updated(shown: Json) // `result.data || result`

  /**
   * `updateApiKey()`. Without a provisioning key, or with a blank hash, it
   * throws before any request, in that order, even when there is nothing
   * to update; with no fields to update it returns without a request.
   * Otherwise one PATCH goes to the trimmed hash's path carrying the
   * updates unchanged, and any error is rethrown as it is, with no report
   * from the error handler.
   */
  function UpdateApiKey(env: Env, keyHash: string, updates: map<string, Json>, reply: FetchOutcome): (run: Run<UpdateView>)
    ensures !IsSet(env.provisioningKey) ==> run == Refused(MissingProvisioningKey)
    ensures IsSet(env.provisioningKey) && Trim(keyHash) == "" ==> run == Refused(InvalidKeyHash)
    ensures IsSet(env.provisioningKey) && Trim(keyHash) != "" && |updates| == 0 ==>
      run == Run([], Success(NoFieldsGiven), [])
    ensures IsSet(env.provisioningKey) && Trim(keyHash) != "" && |updates| > 0 ==>
      && run.requests == [RequestFor(KeyPath(Trim(keyHash)), RequestOptions(PATCH, env.provisioningKey.value, Some(updates), []))]
      && run.reports == []
      && (Execute(reply).Failure? ==> run.result == Failure(Execute(reply).error))
      && (run.result.Success? <==> DataOrWhole(Execute(reply)).Success?)
      && (run.result.Success? ==> run.result.value == Updated(DataOrWhole(Execute(reply)).value))
      && (run.result.Failure? ==> run.result.error == DataOrWhole(Execute(reply)).error)
  {
    if !IsSet(env.provisioningKey) then Refused(MissingProvisioningKey)
    else if keyHash == "" || Trim(keyHash) == "" then Refused(InvalidKeyHash)
    else if |updates| == 0 then Run([], Success(NoFieldsGiven), [])
    else
      var targetUrlPath := KeyPath(Trim(keyHash));
      var request := RequestFor(targetUrlPath, RequestOptions(PATCH, env.provisioningKey.value, Some(updates), []));
      match DataOrWhole(Execute(reply))
      case Failure(e) => Run([request], Failure(e), [])
      case Success(shown) => Run([request], Success(Updated(shown)), [])
  }
}
