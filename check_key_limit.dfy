/**
 * `checkApiKeyLimit(apiKeyOverride?)`: the choice between an override key
 * and OPENROUTER_API_KEY, and one GET /auth/key with the chosen key.
 */
module CheckKeyLimit {
  import opened Wrappers
  import opened Json
  import opened ApiClient
  import opened Commands

  const NoKeyToCheck := "API key not available for checking."

  /** Where the checked key came from, as the command announces it. */
  datatype KeySource = Provided | FromEnv

  /** What the command shows: the source, then `result.data || result`. */
  datatype KeyInfo = KeyInfo(source: KeySource, shown: Json)

  /** `apiKeyOverride || process.env.OPENROUTER_API_KEY`. */
  function KeyToUse(env: Env, apiKeyOverride: Option<string>): Option<string> {
    if IsSet(apiKeyOverride) then apiKeyOverride else env.apiKey
  }

  /**
   * `checkApiKeyLimit()`. A non-empty override is used, and announced as
   * provided; otherwise the environment's key is. With neither it throws
   * before any request. Otherwise one GET /auth/key without a body is sent
   * with the chosen key, the value shown is the result's `data` when
   * truthy and the whole result when not, and any error is rethrown as it
   * is, with no report from the error handler.
   */
  function CheckApiKeyLimit(env: Env, apiKeyOverride: Option<string>, reply: FetchOutcome): (run: Run<KeyInfo>)
    ensures !IsSet(apiKeyOverride) && !IsSet(env.apiKey) ==> run == Refused(NoKeyToCheck)
    ensures IsSet(apiKeyOverride) || IsSet(env.apiKey) ==>
      var chosen := if IsSet(apiKeyOverride) then apiKeyOverride.value else env.apiKey.value;
      && run.requests == [RequestFor("/auth/key", RequestOptions(GET, chosen, None, []))]
      && run.reports == []
      && (Execute(reply).Failure? ==> run.result == Failure(Execute(reply).error))
      && (run.result.Success? <==> DataOrWhole(Execute(reply)).Success?)
      && (run.result.Failure? ==> run.result.error == DataOrWhole(Execute(reply)).error)
      && (run.result.Success? ==>
            && run.result.value.shown == DataOrWhole(Execute(reply)).value
            && (run.result.value.source == Provided <==> IsSet(apiKeyOverride)))
  {
    var apiKeyToUse := KeyToUse(env, apiKeyOverride);
    if !IsSet(apiKeyToUse) then Refused(NoKeyToCheck)
    else
      var source := if IsSet(apiKeyOverride) then Provided else FromEnv;
      var request := RequestFor("/auth/key", RequestOptions(GET, apiKeyToUse.value, None, []));
      match DataOrWhole(Execute(reply))
      case Failure(e) => Run([request], Failure(e), [])
      case Success(shown) => Run([request], Success(KeyInfo(source, shown)), [])
  }

  /** An empty override counts as no override: the environment's key is used. */
  lemma EmptyOverrideFallsBack(env: Env, reply: FetchOutcome)
    ensures CheckApiKeyLimit(env, Some(""), reply) == CheckApiKeyLimit(env, None, reply)
  {
  }
}
