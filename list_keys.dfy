/**
 * The listing command of src/commands/listKeys.ts: a loop that asks for
 * pages of 100 keys at growing offsets until a page comes back short or
 * malformed, accumulating the keys.
 *
 * The server is a finite sequence of replies: the k-th request (0-based)
 * receives `pages[k]`.
 */
module ListKeys {
  import opened Wrappers
  import opened Json
  import opened Text
  import opened ApiClient
  import opened ErrorHandler
  import opened Commands

  /** The page size, sent as the `limit` query parameter. */
  const PageSize: nat := 100

  function PageOptions(key: string, offset: nat): RequestOptions {
    RequestOptions(GET, key, None, [("offset", NumParam(offset)), ("limit", NumParam(PageSize))])
  }

  /** The request for page `page` (counting from 0): GET /keys at offset 100 * page. */
  function PageRequest(key: string, page: nat): Request {
    RequestFor("/keys", PageOptions(key, PageSize * page))
  }

  /** The context given to the error handler when page number `page` (from 1) failed. */
  function PageContext(page: nat): string {
    "listing keys (around page " + NatToString(page) + ")"
  }

  /** What one reply means to the loop. */
  datatype PageStep =
      /** `data` is an array of at least 100 records: ask for the next page. */
    | More(records: seq<Json>)
      /** `data` is an array of fewer than 100 records: the last page. */
    | LastPage(records: seq<Json>)
      /** `data` is missing or not an array: stop with what was gathered. */
    | Malformed
      /** The request failed, or the result was null: the error propagates. */
    | Abort(error: Thrown)

  function StepOf(reply: FetchOutcome): PageStep {
    StepOfResult(Execute(reply))
  }

  /** How the loop reads the value `makeApiRequest` settled with. */
  function StepOfResult(result: Result<Json, Thrown>): PageStep {
    match result
    case Failure(e) => Abort(e)
    case Success(v) =>
      match ReadMember(v, "data")
      case Failure(e) => Abort(e)
      case Success(data) =>
        if data.Some? && data.value.JArr? then
          if |data.value.items| < PageSize then LastPage(data.value.items) else More(data.value.items)
        else Malformed
  }

  /** The step each reply means, in request order. */
  function StepsOf(pages: seq<FetchOutcome>): (steps: seq<PageStep>)
    ensures |steps| == |pages|
    ensures forall i :: 0 <= i < |pages| ==> steps[i] == StepOf(pages[i])
  {
    seq(|pages|, i requires 0 <= i < |pages| => StepOf(pages[i]))
  }

  /** The steps contain one that ends the walk. */
  predicate Finishes(steps: seq<PageStep>) {
    exists i :: 0 <= i < |steps| && !steps[i].More?
  }

  /** The index of the step that ends the walk: the first page that is not full. */
  function FirstStop(steps: seq<PageStep>): (k: nat)
    requires Finishes(steps)
    ensures k < |steps| && !steps[k].More?
    ensures forall i :: 0 <= i < k ==> steps[i].More?
  {
    if !steps[0].More? then 0
    else
      assert Finishes(steps[1..]) by {
        var i :| 0 <= i < |steps| && !steps[i].More?;
        assert steps[1..][i - 1] == steps[i];
      }
      1 + FirstStop(steps[1..])
  }

  /** No page that ends the walk comes before the first stop. */
  lemma FirstStopIsLeast(steps: seq<PageStep>, j: nat)
    requires j < |steps| && !steps[j].More?
    ensures Finishes(steps) && FirstStop(steps) <= j
  {
  }

  predicate AllFull(steps: seq<PageStep>) {
    forall i :: 0 <= i < |steps| ==> steps[i].More?
  }

  /** A full page before the stop extends the run of full pages by one. */
  lemma FullPageExtends(steps: seq<PageStep>, page: nat)
    requires Finishes(steps) && page <= FirstStop(steps) && page < |steps|
    requires AllFull(steps[..page]) && steps[page].More?
    ensures page < FirstStop(steps)
    ensures AllFull(steps[..page + 1])
    ensures Collected(steps[..page + 1]) == Collected(steps[..page]) + steps[page].records
  {
    assert steps[..page + 1][..page] == steps[..page];
  }

  /** A page that is not full, reached through full pages only, is the stop. */
  lemma NotFullIsStop(steps: seq<PageStep>, page: nat)
    requires Finishes(steps) && page <= FirstStop(steps) && page < |steps|
    requires !steps[page].More?
    ensures page == FirstStop(steps)
  {
  }

  /** The records of a run of full pages, page after page. */
  function Collected(steps: seq<PageStep>): seq<Json>
    requires AllFull(steps)
  {
    if steps == [] then []
    else Collected(steps[..|steps| - 1]) + steps[|steps| - 1].records
  }

  /** The records the final page adds: its own for a short page, none otherwise. */
  function FinalRecords(s: PageStep): seq<Json> {
    if s.LastPage? then s.records else []
  }

  /** Request i of a walk asks for page i. */
  predicate PagesRequested(key: string, requests: seq<Request>)
  {
    forall i :: 0 <= i < |requests| ==> requests[i] == PageRequest(key, i)
  }

  lemma NextPageRequested(key: string, requests: seq<Request>, request: Request)
    requires PagesRequested(key, requests)
    requires request == RequestFor("/keys", PageOptions(key, PageSize * |requests|))
    ensures PagesRequested(key, requests + [request])
  {
  }

  /**
   * One turn of the loop's request: GET /keys at `offset`, then the reading
   * of `result.data` (a null result throws when its `data` is read).
   */
  method FetchPage(key: string, offset: nat, reply: FetchOutcome) returns (request: Request, step: PageStep)
    ensures request == RequestFor("/keys", PageOptions(key, offset))
    ensures step == StepOf(reply)
  {
    var result;
    request, result := MakeApiRequest("/keys", PageOptions(key, offset), reply);
    if result.Failure? {
      return request, Abort(result.error);
    }
    var data := ReadMember(result.value, "data");
    if data.Failure? {
      return request, Abort(data.error);
    }
    if data.value.Some? && data.value.value.JArr? {
      var fetched := data.value.value.items;
      step := if |fetched| < PageSize then LastPage(fetched) else More(fetched);
    } else {
      step := Malformed;
    }
  }

  /**
   * The `try` block of `listApiKeys()`: pages 0..k are requested, k being
   * the first page that is not full, and the keys are the records of those
   * pages in order, unless a request failed, whose error leaves the loop.
   * `currentPage` is the loop's page counter when it was left.
   */
  method WalkPages(key: string, pages: seq<FetchOutcome>)
    returns (requests: seq<Request>, result: Result<seq<Json>, Thrown>, currentPage: nat)
    requires Finishes(StepsOf(pages))
    ensures var steps := StepsOf(pages);
      var k := FirstStop(steps);
      && |requests| == currentPage == k + 1
      && PagesRequested(key, requests)
      && (steps[k].Abort? ==> result == Failure(steps[k].error))
      && (!steps[k].Abort? ==> result == Success(Collected(steps[..k]) + FinalRecords(steps[k])))
  {
    ghost var steps := StepsOf(pages);
    ghost var k := FirstStop(steps);

    var allKeys: seq<Json> := [];
    var offset: nat := 0;
    currentPage := 1;
    var keepFetching := true;
    requests := [];

    while keepFetching
      invariant 1 <= currentPage <= k + 1
      invariant offset == PageSize * (currentPage - 1)
      invariant AllFull(steps[..currentPage - 1])
      invariant keepFetching ==> |requests| == currentPage - 1 && allKeys == Collected(steps[..currentPage - 1])
      invariant !keepFetching ==>
        |requests| == currentPage == k + 1 && allKeys == Collected(steps[..k]) + FinalRecords(steps[k])
      invariant !keepFetching ==> !steps[k].Abort?
      invariant PagesRequested(key, requests)
      decreases k + 1 - |requests|
    {
      var page := currentPage - 1;
      var request, step := FetchPage(key, offset, pages[page]);
      NextPageRequested(key, requests, request);
      requests := requests + [request];
      if !step.More? {
        NotFullIsStop(steps, page);
      } else {
        FullPageExtends(steps, page);
      }

      match step
      case Abort(e) =>
        return requests, Failure(e), currentPage;
      case More(fetched) =>
        allKeys := allKeys + fetched;
        offset := offset + PageSize;
        currentPage := currentPage + 1;
      case LastPage(fetched) =>
        if |fetched| > 0 {
          allKeys := allKeys + fetched;
        }
        keepFetching := false;
      case Malformed =>
        keepFetching := false;
    }
    result := Success(allKeys);
  }

  /**
   * What building one table row throws, if anything. Reading `created_at`
   * of a null record throws; so does converting a truthy `created_at` for
   * `new Date`, a `limit` that is not null for `Number`, or `usage` for
   * `Number`, when the value cannot be converted. The name, hash and
   * `disabled` are only read and tested.
   */
  function RowError(key: Json): Option<Thrown> {
    if key.JNull? then Some(NullRead("created_at"))
    else if IsTruthy(Get(key, "created_at")) && ToPrimitiveThrows(Get(key, "created_at").value) then Some(ConversionError)
    else if Get(key, "limit").Some? && Get(key, "limit") != Some(JNull)
      && ToPrimitiveThrows(Get(key, "limit").value) then Some(ConversionError)
    else if Get(key, "usage").Some? && ToPrimitiveThrows(Get(key, "usage").value) then Some(ConversionError)
    else None
  }

  /**
   * The index of the first record whose row cannot be built, `|keys|` when
   * every row can: `allKeys.map` stops at the first throw.
   */
  function FirstBadRow(keys: seq<Json>): (b: nat)
    ensures b <= |keys|
    ensures forall j :: 0 <= j < b ==> RowError(keys[j]).None?
    ensures b < |keys| ==> RowError(keys[b]).Some?
  {
    if keys == [] || RowError(keys[0]).Some? then 0
    else
      var rest := FirstBadRow(keys[1..]);
      assert forall j :: 1 <= j < 1 + rest ==> keys[j] == keys[1..][j - 1];
      1 + rest
  }

  /** A null record among the keys stops the table at the first such record or before. */
  lemma NullRecordFailsTable(keys: seq<Json>, i: nat)
    requires i < |keys| && keys[i].JNull?
    ensures FirstBadRow(keys) <= i
    ensures FirstBadRow(keys) == i ==> RowError(keys[i]) == Some(NullRead("created_at"))
  {
  }

  /**
   * `listApiKeys()`. Without a provisioning key nothing is requested. With
   * one, the pages are walked and the keys laid out as a table, both inside
   * one `try`: an error that leaves the walk, or a record the table cannot
   * render, is reported with the page the counter stands at and rethrown
   * unchanged.
   */
  method ListApiKeys(env: Env, pages: seq<FetchOutcome>) returns (run: Run<seq<Json>>)
    requires IsSet(env.provisioningKey) ==> Finishes(StepsOf(pages))
    ensures !IsSet(env.provisioningKey) ==> run == Refused(MissingProvisioningKey)
    ensures IsSet(env.provisioningKey) ==>
      var steps := StepsOf(pages);
      var k := FirstStop(steps);
      var step := steps[k];
      var keys := Collected(steps[..k]) + FinalRecords(step);
      var b := FirstBadRow(keys);
      && |run.requests| == k + 1
      && PagesRequested(env.provisioningKey.value, run.requests)
      && (step.Abort? ==>
            run.result == Failure(step.error)
            && run.reports == [HandleApiError(step.error, Some(PageContext(k + 1)))])
      && (!step.Abort? && b == |keys| ==>
            run.result == Success(keys)
            && run.reports == [])
      && (!step.Abort? && b < |keys| ==>
            run.result == Failure(RowError(keys[b]).value)
            && run.reports == [HandleApiError(RowError(keys[b]).value, Some(PageContext(k + 1)))])
  {
    if !IsSet(env.provisioningKey) {
      return Refused(MissingProvisioningKey);
    }
    var requests, result, currentPage := WalkPages(env.provisioningKey.value, pages);
    var context := PageContext(currentPage);
    if result.Failure? {
      return Run(requests, result, [HandleApiError(result.error, Some(context))]);
    }
    var allKeys := result.value;
    var bad := FirstBadRow(allKeys);
    if bad < |allKeys| {
      var error := RowError(allKeys[bad]).value;
      run := Run(requests, Failure(error), [HandleApiError(error, Some(context))]);
    } else {
      run := Run(requests, result, []);
    }
  }

  // ---------------------------------------------------------------------
  // Properties of the walk
  // ---------------------------------------------------------------------

  /** Gathering is in-order concatenation: the keys of a + b are those of a, then those of b. */
  lemma {:induction false} CollectedAppend(a: seq<PageStep>, b: seq<PageStep>)
    requires AllFull(a) && AllFull(b)
    ensures AllFull(a + b)
    ensures Collected(a + b) == Collected(a) + Collected(b)
    decreases |b|
  {
    if b == [] {
      assert a + b == a;
    } else {
      var b' := b[..|b| - 1];
      CollectedAppend(a, b');
      assert (a + b)[..|a + b| - 1] == a + b';
    }
  }

  /** A full page is followed by exactly one more request: the walk goes on to page i + 1. */
  lemma FullPageAsksOnce(steps: seq<PageStep>, i: nat)
    requires Finishes(steps) && i < |steps| && steps[i].More?
    requires forall j :: 0 <= j < i ==> steps[j].More?
    ensures i + 1 <= FirstStop(steps)
  {
  }

  /**
   * The query of page i is `offset={100 i}&limit=100`, and the offset text
   * reads back as 100 i: the first request is at offset 0, and each next one
   * 100 further.
   */
  lemma PageOffsets(key: string, i: nat)
    ensures PageRequest(key, i).query == [("offset", NatToString(PageSize * i)), ("limit", NatToString(PageSize))]
    ensures DigitsValue(NatToString(PageSize * i)) == PageSize * i
    ensures DigitsValue(NatToString(PageSize * (i + 1))) == DigitsValue(NatToString(PageSize * i)) + PageSize
  {
    var params := PageOptions(key, PageSize * i).params;
    assert params[..1][..0] == [];
    assert params[..1] == [params[0]];
    assert params[..2] == params;
    assert FilterParams(params[..1]) == [("offset", NatToString(PageSize * i))];
    assert FilterParams(params) == [("offset", NatToString(PageSize * i)), ("limit", NatToString(PageSize))];
    NatToStringRoundTrip(PageSize * i);
    NatToStringRoundTrip(PageSize * (i + 1));
  }
}
