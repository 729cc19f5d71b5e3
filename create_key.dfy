/**
 * `createApiKey(name, label?, limit?)`: the guards (provisioning key, then
 * name), the request body assembled field by field, one POST /keys, and
 * what the command makes of the reply.
 */
module CreateKey {
  import opened Wrappers
  import opened Json
  import opened Text
  import opened ApiClient
  import opened ErrorHandler
  import opened Commands

  /** An optional argument: left undefined, passed as null, or given. */
  datatype Arg<T> = Omitted | PassedNull | Given(value: T)

  /** A JavaScript number as the command can receive it: finite, or NaN. */
  datatype Number = Finite(r: real) | NaN

  /** The label as it goes into the body: null, or the string as given. */
  function LabelJson(keyLabel: Arg<string>): Json
    requires !keyLabel.Omitted?
  {
    if keyLabel.PassedNull? then JNull else JStr(keyLabel.value)
  }

  /** A limit that survives `!isNaN(limit) && limit >= 0`. */
  predicate AcceptedLimit(limit: Arg<Number>) {
    limit.Given? && limit.value.Finite? && limit.value.r >= 0.0
  }

  /**
   * The request body: the trimmed name always; the label whenever it was
   * not left undefined; the limit as null when passed as null, as the
   * number when that is a non-negative number, and not at all otherwise.
   */
  function CreateBody(name: string, keyLabel: Arg<string>, limit: Arg<Number>): (body: map<string, Json>)
    ensures body.Keys <= {"name", "label", "limit"}
    ensures "name" in body && body["name"] == JStr(Trim(name))
    ensures "label" in body <==> !keyLabel.Omitted?
    ensures keyLabel.PassedNull? ==> body["label"] == JNull
    ensures keyLabel.Given? ==> body["label"] == JStr(keyLabel.value)
    ensures "limit" in body <==> limit.PassedNull? || AcceptedLimit(limit)
    ensures limit.PassedNull? ==> body["limit"] == JNull
    ensures AcceptedLimit(limit) ==> body["limit"] == JNum(limit.value.r)
  {
    var withName := map["name" := JStr(Trim(name))];
    var withLabel := if keyLabel.Omitted? then withName else withName["label" := LabelJson(keyLabel)];
    if limit.PassedNull? then withLabel["limit" := JNull]
    else if AcceptedLimit(limit) then withLabel["limit" := JNum(limit.value.r)]
    else withLabel
  }

  /** `requestBody`, started with the name and completed in place. */
  method BuildCreateBody(name: string, keyLabel: Arg<string>, limit: Arg<Number>) returns (body: map<string, Json>)
    ensures body == CreateBody(name, keyLabel, limit)
  {
    body := map["name" := JStr(Trim(name))];
    if !keyLabel.Omitted? {
      body := body["label" := LabelJson(keyLabel)];
    }
    if !limit.Omitted? {
      if limit.PassedNull? {
        body := body["limit" := JNull];
      } else {
        var limitValue := limit.value;
        if limitValue.Finite? && limitValue.r >= 0.0 {
          body := body["limit" := JNum(limitValue.r)];
        }
      }
    }
  }

  /**
   * An undefined limit and a null limit give different bodies: the first
   * leaves the field out, the second sends `limit: null`.
   */
  lemma AbsentAndNullLimitDiffer(name: string, keyLabel: Arg<string>)
    ensures "limit" !in CreateBody(name, keyLabel, Omitted)
    ensures CreateBody(name, keyLabel, PassedNull)["limit"] == JNull
    ensures CreateBody(name, keyLabel, Omitted) != CreateBody(name, keyLabel, PassedNull)
  {
  }

  /** A negative or NaN limit is dropped, leaving the body an undefined limit gives. */
  lemma RejectedLimitIsDropped(name: string, keyLabel: Arg<string>, limit: Number)
    requires limit.NaN? || limit.r < 0.0
    ensures CreateBody(name, keyLabel, Given(limit)) == CreateBody(name, keyLabel, Omitted)
  {
  }

  /** What the command shows after a successful request. */
  datatype CreateView =
    | KeyIssued(details: Option<Json>, key: Json)      // `result.data`, then the new key
    | KeyMissing(details: Option<Json>, response: Json) // `result.data`, then the warning and the whole result

  /** The context handed to the error handler. */
  function CreatingContext(name: string): string {
    "creating key \"" + Trim(name) + "\""
  }

  /**
   * `createApiKey()`. No request goes out without a provisioning key or
   * with a blank name, the key being checked first. Otherwise exactly one
   * POST /keys carries `CreateBody`. A failed request, or a null result
   * whose `data` is read, is reported with the trimmed name and rethrown
   * unchanged; otherwise the new key is shown exactly when the result and
   * its `key` are truthy.
   */
  method CreateApiKey(env: Env, name: string, keyLabel: Arg<string>, limit: Arg<Number>, reply: FetchOutcome)
    returns (run: Run<CreateView>)
    ensures !IsSet(env.provisioningKey) ==> run == Refused(MissingProvisioningKey)
    ensures IsSet(env.provisioningKey) && Trim(name) == "" ==> run == Refused(InvalidKeyName)
    ensures IsSet(env.provisioningKey) && Trim(name) != "" ==>
      var outcome := Execute(reply);
      && run.requests == [RequestFor("/keys", RequestOptions(POST, env.provisioningKey.value, Some(CreateBody(name, keyLabel, limit)), []))]
      && (outcome.Failure? ==>
            run.result == Failure(outcome.error)
            && run.reports == [HandleApiError(outcome.error, Some(CreatingContext(name)))])
      && (outcome == Success(JNull) ==>
            run.result == Failure(NullRead("data"))
            && run.reports == [HandleApiError(NullRead("data"), Some(CreatingContext(name)))])
      && (outcome.Success? && !outcome.value.JNull? ==>
            && run.reports == []
            && run.result.Success?
            && run.result.value.details == Get(outcome.value, "data")
            && (run.result.value.KeyIssued? <==> Truthy(outcome.value) && IsTruthy(Get(outcome.value, "key")))
            && (run.result.value.KeyIssued? ==> run.result.value.key == Get(outcome.value, "key").value)
            && (run.result.value.KeyMissing? ==> run.result.value.response == outcome.value))
  {
    if !IsSet(env.provisioningKey) {
      return Refused(MissingProvisioningKey);
    }
    var provisioningKey := env.provisioningKey.value;
    if name == "" || Trim(name) == "" {
      return Refused(InvalidKeyName);
    }

    var requestBody := BuildCreateBody(name, keyLabel, limit);
    var request, result := MakeApiRequest("/keys", RequestOptions(POST, provisioningKey, Some(requestBody), []), reply);
    var context := CreatingContext(name);
    if result.Failure? {
      return Run([request], Failure(result.error), [HandleApiError(result.error, Some(context))]);
    }
    var data := ReadMember(result.value, "data");
    if data.Failure? {
      return Run([request], Failure(data.error), [HandleApiError(data.error, Some(context))]);
    }
    var key := Get(result.value, "key");
    if Truthy(result.value) && IsTruthy(key) {
      run := Run([request], Success(KeyIssued(data.value, key.value)), []);
    } else {
      run := Run([request], Success(KeyMissing(data.value, result.value)), []);
    }
  }
}
