/**
 * The publisher that posts records downstream: slices of at most fifty
 * records, one POST per slice with retries on server errors and network
 * failures, and the slices' answers concatenated in order. What each POST
 * meets is the parameter `outcome`; pauses are recorded in the trace.
 */
module Publisher {
  import opened JsText

  const BatchSize: nat := 50
  const DefaultTimeout: int := 10000
  const DefaultRetries: int := 2
  const RetryDelays: seq<int> := [200, 600]

  /** `RETRY_DELAYS[attempt] || RETRY_DELAYS[RETRY_DELAYS.length - 1]`. */
  function RetryDelay(attempt: nat): int {
    if attempt < |RetryDelays| then RetryDelays[attempt] else RetryDelays[|RetryDelays| - 1]
  }

  /** The caller's options; None for a property left `undefined`. */
  datatype PublishOptions = PublishOptions(
    token: Option<string>,
    strictAuth: Option<bool>,
    timeout: Option<int>,
    retries: Option<int>)

  /** The options each batch runs with, defaults applied. */
  datatype BatchSettings = BatchSettings(token: Option<string>, strictAuth: bool, timeout: int, retries: int)

  function SettingsFor(options: PublishOptions): BatchSettings {
    BatchSettings(
      if options.token.Some? && options.token.value != "" then options.token else None,
      if options.strictAuth.Some? then options.strictAuth.value else false,
      if options.timeout.Some? then options.timeout.value else DefaultTimeout,
      if options.retries.Some? then options.retries.value else DefaultRetries)
  }

  datatype PublishEntry = PublishEntry(id: string, status: int, message: Option<string>)
  datatype PublishResult = PublishResult(success: bool, results: seq<PublishEntry>)

  /** One POST: the endpoint, the payload `{records}`, the headers and the time-out if one is set. */
  datatype PostRequest<R> = PostRequest(url: string, records: seq<R>, headers: map<string, string>, timeout: Option<int>)

  function Headers(settings: BatchSettings): (h: map<string, string>) {
    var base := map["Content-Type" := "application/json", "User-Agent" := "NDL-MCP-Pipeline/1.0.0"];
    if settings.token.Some? then base["Authorization" := "Bearer " + settings.token.value] else base
  }

  function RequestFor<R>(apiUrl: string, batch: seq<R>, settings: BatchSettings): PostRequest<R> {
    PostRequest(apiUrl + "/api/v1/publish", batch, Headers(settings),
                if settings.timeout != 0 then Some(settings.timeout) else None)
  }

  /**
   * What one `axios.post` meets. Every status comes back as a response;
   * the body is read as a publish result and its optional `error` text.
   */
  datatype PostOutcome =
    | Responded(status: int, body: PublishResult, bodyError: Option<string>)
    | AxiosFailure(response: Option<int>, message: string)   // response: its status, if any
    | OtherFailure(message: string)                          // not an axios error

  /** How the catch block leaves an attempt. */
  datatype Step =
    | Return(result: PublishResult)
    | Throw(message: string)
    | Retry(lastMessage: string, exhausted: string)   // exhausted: the error thrown when no retry is left

  function ExhaustedMessage(retries: int, message: string): string {
    "MCP publish failed after " + IntToString(retries) + " retries: " + message
  }

  function StatusMessage(status: int, bodyError: Option<string>, fallback: string): string {
    "MCP publish failed with status " + IntToString(status) + ": "
      + (if bodyError.Some? && bodyError.value != "" then bodyError.value else fallback)
  }

  /** The error thrown on the final attempt: wrapped when the message tells of a 5xx status. */
  function FinalError(retries: int, message: string): string {
    if Includes(message, "failed with status 5") then ExhaustedMessage(retries, message) else message
  }

  /** One attempt's outcome, classified as the try and catch blocks do. */
  function Classify(o: PostOutcome, settings: BatchSettings): Step {
    match o
    case Responded(status, body, bodyError) =>
      if status < 400 then Return(body)
      else if status == 401 then
        if settings.strictAuth then Throw("MCP publish failed with status 401")
        else Return(PublishResult(true, []))
      else if status < 500 then Throw(StatusMessage(status, bodyError, "Client error"))
      else
        var m := StatusMessage(status, bodyError, "Server error");
        if Includes(m, "failed with status 4") then Throw(m)
        else Retry(m, FinalError(settings.retries, m))
    case AxiosFailure(response, m) =>
      if response.Some? && 400 <= response.value < 500 then Throw(m)
      else if response.None? then Retry(m, ExhaustedMessage(settings.retries, m))
      else Retry(m, FinalError(settings.retries, m))
    case OtherFailure(m) =>
      if Includes(m, "failed with status 4") then Throw(m)
      else Retry(m, FinalError(settings.retries, m))
  }

  datatype Event<R> = Post(batch: nat, attempt: nat, request: PostRequest<R>) | Sleep(ms: int)

  /**
   * The attempt loop of batch `b` from `attempt` on: the result or the
   * message of the error thrown, and the requests and pauses on the way.
   */
  function Attempts<R>(b: nat, request: PostRequest<R>, settings: BatchSettings,
                       outcome: (nat, nat) -> PostOutcome, attempt: nat)
    : (Result<PublishResult, string>, seq<Event<R>>)
    decreases settings.retries + 1 - attempt
  {
    if attempt > settings.retries then
      (Err(ExhaustedMessage(settings.retries, "undefined")), [])
    else
      var post := [Post(b, attempt, request)];
      match Classify(outcome(b, attempt), settings)
      case Return(r) => (Ok(r), post)
      case Throw(m) => (Err(m), post)
      case Retry(_, exhausted) =>
        if attempt < settings.retries then
          var rest := Attempts(b, request, settings, outcome, attempt + 1);
          (rest.0, post + [Sleep(RetryDelay(attempt))] + rest.1)
        else (Err(exhausted), post)
  }

  /** `publishBatch` for batch number `b`. */
  function BatchSpec<R>(b: nat, batch: seq<R>, apiUrl: string, settings: BatchSettings,
                        outcome: (nat, nat) -> PostOutcome)
    : (Result<PublishResult, string>, seq<Event<R>>)
  {
    Attempts(b, RequestFor(apiUrl, batch, settings), settings, outcome, 0)
  }

  /** `publishBatch`: the attempt loop. */
  method PublishBatch<R>(b: nat, batch: seq<R>, apiUrl: string, settings: BatchSettings,
                         outcome: (nat, nat) -> PostOutcome)
    returns (result: Result<PublishResult, string>, trace: seq<Event<R>>)
    ensures (result, trace) == BatchSpec(b, batch, apiUrl, settings, outcome)
  {
    var request := RequestFor(apiUrl, batch, settings);
    var lastMessage := "undefined";
    trace := [];
    var attempt: nat := 0;
    assert [] + Attempts(b, request, settings, outcome, 0).1 == Attempts(b, request, settings, outcome, 0).1;
    while attempt <= settings.retries
      invariant attempt <= settings.retries + 1 || attempt == 0
      invariant Resume(b, request, settings, outcome, trace, attempt) == BatchSpec(b, batch, apiUrl, settings, outcome)
      decreases settings.retries + 1 - attempt
    {
      var step := Classify(outcome(b, attempt), settings);
      ResumeStep(b, request, settings, outcome, trace, attempt);
      trace := trace + [Post(b, attempt, request)];
      match step {
        case Return(r) =>
          result := Ok(r);
          return;
        case Throw(m) =>
          result := Err(m);
          return;
        case Retry(m, exhausted) =>
          lastMessage := m;
          if attempt < settings.retries {
            trace := trace + [Sleep(RetryDelay(attempt))];
          } else {
            result := Err(exhausted);
            return;
          }
      }
      attempt := attempt + 1;
    }
    ResumeExhausted(b, request, settings, outcome, trace, attempt);
    result := Err(ExhaustedMessage(settings.retries, "undefined"));
  }

  /** The outcome of a batch whose earlier attempts left `trace`, from `attempt` on. */
  ghost function Resume<R>(b: nat, request: PostRequest<R>, settings: BatchSettings,
                           outcome: (nat, nat) -> PostOutcome, trace: seq<Event<R>>, attempt: nat)
    : (Result<PublishResult, string>, seq<Event<R>>)
  {
    var rest := Attempts(b, request, settings, outcome, attempt);
    (rest.0, trace + rest.1)
  }

  /** One attempt of the loop, case by case. */
  lemma ResumeStep<R>(b: nat, request: PostRequest<R>, settings: BatchSettings,
                      outcome: (nat, nat) -> PostOutcome, trace: seq<Event<R>>, attempt: nat)
    requires attempt <= settings.retries
    ensures var step := Classify(outcome(b, attempt), settings);
      var here := Resume(b, request, settings, outcome, trace, attempt);
      var posted := trace + [Post(b, attempt, request)];
      && (step.Return? ==> here == (Ok(step.result), posted))
      && (step.Throw? ==> here == (Err(step.message), posted))
      && (step.Retry? && attempt == settings.retries ==> here == (Err(step.exhausted), posted))
      && (step.Retry? && attempt < settings.retries ==>
            here == Resume(b, request, settings, outcome, posted + [Sleep(RetryDelay(attempt))], attempt + 1))
  {
    var post := [Post(b, attempt, request)];
    var step := Classify(outcome(b, attempt), settings);
    if step.Retry? && attempt < settings.retries {
      var next := Attempts(b, request, settings, outcome, attempt + 1);
      assert Attempts(b, request, settings, outcome, attempt).1 == post + [Sleep(RetryDelay(attempt))] + next.1;
      assert trace + (post + [Sleep(RetryDelay(attempt))] + next.1) == trace + post + [Sleep(RetryDelay(attempt))] + next.1;
    }
  }

  lemma ResumeExhausted<R>(b: nat, request: PostRequest<R>, settings: BatchSettings,
                           outcome: (nat, nat) -> PostOutcome, trace: seq<Event<R>>, attempt: nat)
    requires attempt > settings.retries
    ensures Resume(b, request, settings, outcome, trace, attempt) == (Err(ExhaustedMessage(settings.retries, "undefined")), trace)
  {
    assert trace + [] == trace;
  }

  // ----------------------------------------------------------------- batches

  function Min(a: int, b: int): int {
    if a <= b then a else b
  }

  /** Consecutive slices of `BatchSize` records, the last one shorter. */
  function Batches<R>(records: seq<R>): seq<seq<R>>
    decreases |records|
  {
    if |records| == 0 then []
    else
      var k := Min(BatchSize, |records|);
      [records[..k]] + Batches(records[k..])
  }

  function Flatten<R>(ss: seq<seq<R>>): seq<R> {
    if |ss| == 0 then [] else ss[0] + Flatten(ss[1..])
  }

  /**
   * The slices cover the input in order, each holds 1 to 50 records, and
   * every slice but the last holds exactly 50.
   */
  lemma {:induction false} BatchesPartition<R>(records: seq<R>)
    ensures Flatten(Batches(records)) == records
    ensures forall i :: 0 <= i < |Batches(records)| ==> 1 <= |Batches(records)[i]| <= BatchSize
    ensures forall i :: 0 <= i < |Batches(records)| - 1 ==> |Batches(records)[i]| == BatchSize
    ensures |Batches(records)| == (|records| + BatchSize - 1) / BatchSize
    decreases |records|
  {
    if |records| > 0 {
      var k := Min(BatchSize, |records|);
      BatchesPartition(records[k..]);
      assert records == records[..k] + records[k..];
      var bs := Batches(records);
      assert bs == [records[..k]] + Batches(records[k..]);
      assert bs[1..] == Batches(records[k..]);
      if k < BatchSize {
        assert records[k..] == [];
      }
    }
  }

  /** The batch-splitting loop. */
  method SplitIntoBatches<R>(records: seq<R>) returns (batches: seq<seq<R>>)
    ensures batches == Batches(records)
  {
    batches := [];
    var i := 0;
    while i < |records|
      invariant 0 <= i <= |records|
      invariant batches + Batches(records[i..]) == Batches(records)
      decreases |records| - i
    {
      var j := Min(i + BatchSize, |records|);
      assert records[i..][..j - i] == records[i..j];
      assert records[i..][j - i..] == records[j..];
      batches := batches + [records[i..j]];
      i := j;
    }
    assert batches + [] == batches;
  }

  /** The accumulators in front of the remaining batches' outcome. */
  function Prepend<R>(success: bool, results: seq<PublishEntry>, trace: seq<Event<R>>,
                      rest: (Result<PublishResult, string>, seq<Event<R>>))
    : (Result<PublishResult, string>, seq<Event<R>>)
  {
    match rest.0
    case Err(e) => (Err(e), trace + rest.1)
    case Ok(r) => (Ok(PublishResult(success && r.success, results + r.results)), trace + rest.1)
  }

  /** Batches `k` onwards: the first throwing batch aborts the rest. */
  function Aggregate<R>(batches: seq<seq<R>>, k: nat, apiUrl: string, settings: BatchSettings,
                        outcome: (nat, nat) -> PostOutcome)
    : (Result<PublishResult, string>, seq<Event<R>>)
    requires k <= |batches|
    decreases |batches| - k
  {
    if k == |batches| then (Ok(PublishResult(true, [])), [])
    else
      var (r, t) := BatchSpec(k, batches[k], apiUrl, settings, outcome);
      match r
      case Err(e) => (Err(e), t)
      case Ok(res) => Prepend(res.success, res.results, t, Aggregate(batches, k + 1, apiUrl, settings, outcome))
  }

  /** `publishToMCP`. */
  function PublishSpec<R>(records: seq<R>, options: PublishOptions, apiUrl: string,
                          outcome: (nat, nat) -> PostOutcome)
    : (Result<PublishResult, string>, seq<Event<R>>)
  {
    if |records| == 0 then (Ok(PublishResult(true, [])), [])
    else Aggregate(Batches(records), 0, apiUrl, SettingsFor(options), outcome)
  }

  lemma PrependAssoc<R>(s1: bool, r1: seq<PublishEntry>, t1: seq<Event<R>>,
                        s2: bool, r2: seq<PublishEntry>, t2: seq<Event<R>>,
                        rest: (Result<PublishResult, string>, seq<Event<R>>))
    ensures Prepend(s1, r1, t1, Prepend(s2, r2, t2, rest)) == Prepend(s1 && s2, r1 + r2, t1 + t2, rest)
  {
    assert t1 + (t2 + rest.1) == (t1 + t2) + rest.1;
    if rest.0.Ok? {
      assert r1 + (r2 + rest.0.value.results) == (r1 + r2) + rest.0.value.results;
    }
  }

  /** `publishToMCP`: the batch loop with its two accumulators. */
  method PublishToMcp<R>(records: seq<R>, options: PublishOptions, apiUrl: string,
                         outcome: (nat, nat) -> PostOutcome)
    returns (result: Result<PublishResult, string>, trace: seq<Event<R>>)
    ensures (result, trace) == PublishSpec(records, options, apiUrl, outcome)
  {
    if |records| == 0 {
      return Ok(PublishResult(true, [])), [];
    }
    var settings := SettingsFor(options);
    var batches := SplitIntoBatches(records);
    result, trace := PublishBatches(batches, apiUrl, settings, outcome);
  }

  /** The loop over the batches, stopping at the first that throws. */
  method PublishBatches<R>(batches: seq<seq<R>>, apiUrl: string, settings: BatchSettings,
                           outcome: (nat, nat) -> PostOutcome)
    returns (result: Result<PublishResult, string>, trace: seq<Event<R>>)
    ensures (result, trace) == Aggregate(batches, 0, apiUrl, settings, outcome)
  {
    ghost var spec := Aggregate(batches, 0, apiUrl, settings, outcome);
    var allResults: seq<PublishEntry> := [];
    var overallSuccess := true;
    trace := [];
    PrependNothing(spec);
    var k := 0;
    while k < |batches|
      invariant 0 <= k <= |batches|
      invariant Prepend(overallSuccess, allResults, trace, Aggregate(batches, k, apiUrl, settings, outcome)) == spec
    {
      var r, t := PublishBatch(k, batches[k], apiUrl, settings, outcome);
      AggregateStep(batches, k, apiUrl, settings, outcome, overallSuccess, allResults, trace, r, t);
      if r.Err? {
        return Err(r.error), trace + t;
      }
      allResults := allResults + r.value.results;
      overallSuccess := overallSuccess && r.value.success;
      trace := trace + t;
      k := k + 1;
    }
    PrependOntoEnd(overallSuccess, allResults, trace);
    result := Ok(PublishResult(overallSuccess, allResults));
  }

  lemma PrependNothing<R>(rest: (Result<PublishResult, string>, seq<Event<R>>))
    ensures Prepend(true, [], [], rest) == rest
  {
    assert [] + rest.1 == rest.1;
    if rest.0.Ok? {
      assert [] + rest.0.value.results == rest.0.value.results;
    }
  }

  lemma PrependOntoEnd<R>(success: bool, results: seq<PublishEntry>, trace: seq<Event<R>>)
    ensures Prepend(success, results, trace, (Ok(PublishResult(true, [])), [])) == (Ok(PublishResult(success, results)), trace)
  {
    assert results + [] == results;
    assert trace + [] == trace;
  }

  /** One turn of the batch loop, against the outcome of the remaining batches. */
  lemma AggregateStep<R>(batches: seq<seq<R>>, k: nat, apiUrl: string, settings: BatchSettings,
                         outcome: (nat, nat) -> PostOutcome, success: bool, results: seq<PublishEntry>,
                         trace: seq<Event<R>>, r: Result<PublishResult, string>, t: seq<Event<R>>)
    requires k < |batches|
    requires (r, t) == BatchSpec(k, batches[k], apiUrl, settings, outcome)
    ensures var here := Prepend(success, results, trace, Aggregate(batches, k, apiUrl, settings, outcome));
      (r.Err? ==> here == (Err(r.error), trace + t))
      && (r.Ok? ==> here == Prepend(success && r.value.success, results + r.value.results, trace + t,
                                   Aggregate(batches, k + 1, apiUrl, settings, outcome)))
  {
    if r.Ok? {
      PrependAssoc(success, results, trace, r.value.success, r.value.results, t,
                   Aggregate(batches, k + 1, apiUrl, settings, outcome));
    }
  }

  // -------------------------------------------------------------- properties

  /** An empty input succeeds with no results and sends nothing. */
  lemma EmptyInputSendsNothing<R>(options: PublishOptions, apiUrl: string, outcome: (nat, nat) -> PostOutcome)
    ensures PublishSpec<R>([], options, apiUrl, outcome) == (Ok(PublishResult(true, [])), [])
  {
  }

  /** The concatenated results of batches `k` onwards, while all of them answer. */
  function ResultsFrom<R>(batches: seq<seq<R>>, k: nat, apiUrl: string, settings: BatchSettings,
                          outcome: (nat, nat) -> PostOutcome): seq<PublishEntry>
    requires k <= |batches|
    decreases |batches| - k
  {
    if k == |batches| then []
    else
      var r := BatchSpec(k, batches[k], apiUrl, settings, outcome).0;
      (if r.Ok? then r.value.results else []) + ResultsFrom(batches, k + 1, apiUrl, settings, outcome)
  }

  /**
   * When no batch throws, the results are the batches' results in batch
   * order and the overall success is the conjunction of theirs.
   */
  lemma {:induction false} AggregateOk<R>(batches: seq<seq<R>>, k: nat, apiUrl: string, settings: BatchSettings,
                                          outcome: (nat, nat) -> PostOutcome)
    requires k <= |batches|
    requires forall j :: k <= j < |batches| ==> BatchSpec(j, batches[j], apiUrl, settings, outcome).0.Ok?
    ensures var r := Aggregate(batches, k, apiUrl, settings, outcome).0;
      && r.Ok?
      && r.value.results == ResultsFrom(batches, k, apiUrl, settings, outcome)
      && (r.value.success <==> forall j :: k <= j < |batches| ==> BatchSpec(j, batches[j], apiUrl, settings, outcome).0.value.success)
    decreases |batches| - k
  {
    if k < |batches| {
      AggregateOk(batches, k + 1, apiUrl, settings, outcome);
      var first := BatchSpec(k, batches[k], apiUrl, settings, outcome);
      var rest := Aggregate(batches, k + 1, apiUrl, settings, outcome);
      assert first.0.Ok?;
      assert Aggregate(batches, k, apiUrl, settings, outcome)
          == Prepend(first.0.value.success, first.0.value.results, first.1, rest);
      assert (forall j :: k <= j < |batches| ==> BatchSpec(j, batches[j], apiUrl, settings, outcome).0.value.success)
         <==> first.0.value.success
              && forall j :: k + 1 <= j < |batches| ==> BatchSpec(j, batches[j], apiUrl, settings, outcome).0.value.success;
    }
  }

  /**
   * The first batch that throws ends the call with its error, and no later
   * batch is sent.
   */
  lemma {:induction false} AggregateAborts<R>(batches: seq<seq<R>>, k: nat, j: nat, apiUrl: string,
                                              settings: BatchSettings, outcome: (nat, nat) -> PostOutcome)
    requires k <= j < |batches|
    requires forall i :: k <= i < j ==> BatchSpec(i, batches[i], apiUrl, settings, outcome).0.Ok?
    requires BatchSpec(j, batches[j], apiUrl, settings, outcome).0.Err?
    ensures Aggregate(batches, k, apiUrl, settings, outcome).0 == BatchSpec(j, batches[j], apiUrl, settings, outcome).0
    ensures forall e :: e in Aggregate(batches, k, apiUrl, settings, outcome).1 && e.Post? ==> e.batch <= j
    decreases j - k
  {
    if k < j {
      AggregateAborts(batches, k + 1, j, apiUrl, settings, outcome);
      BatchPostsOwnNumber(k, batches[k], apiUrl, settings, outcome, 0);
      var here := BatchSpec(k, batches[k], apiUrl, settings, outcome);
      var rest := Aggregate(batches, k + 1, apiUrl, settings, outcome);
      assert here.0.Ok? && rest.0.Err?;
      assert Aggregate(batches, k, apiUrl, settings, outcome)
          == (Err(rest.0.error), here.1 + rest.1);
    } else {
      BatchPostsOwnNumber(j, batches[j], apiUrl, settings, outcome, 0);
    }
  }

  lemma {:induction false} BatchPostsOwnNumber<R>(b: nat, batch: seq<R>, apiUrl: string, settings: BatchSettings,
                                                  outcome: (nat, nat) -> PostOutcome, attempt: nat)
    ensures forall e :: e in Attempts(b, RequestFor(apiUrl, batch, settings), settings, outcome, attempt).1 && e.Post?
              ==> e.batch == b && e.request.records == batch
    decreases settings.retries + 1 - attempt
  {
    if attempt <= settings.retries && attempt < settings.retries {
      BatchPostsOwnNumber(b, batch, apiUrl, settings, outcome, attempt + 1);
    }
  }

  /** A status below 400 returns the body untouched, whatever its record-level statuses say. */
  lemma BelowFourHundredPassesThrough<R>(b: nat, batch: seq<R>, apiUrl: string, settings: BatchSettings,
                                         outcome: (nat, nat) -> PostOutcome)
    requires settings.retries >= 0
    requires outcome(b, 0).Responded? && outcome(b, 0).status < 400
    ensures BatchSpec(b, batch, apiUrl, settings, outcome)
         == (Ok(outcome(b, 0).body), [Post(b, 0, RequestFor(apiUrl, batch, settings))])
  {
  }

  /** A 401 throws without retry under strict authentication and is an empty success otherwise. */
  lemma Unauthorized<R>(b: nat, batch: seq<R>, apiUrl: string, settings: BatchSettings,
                        outcome: (nat, nat) -> PostOutcome)
    requires settings.retries >= 0
    requires outcome(b, 0).Responded? && outcome(b, 0).status == 401
    ensures BatchSpec(b, batch, apiUrl, settings, outcome).1 == [Post(b, 0, RequestFor(apiUrl, batch, settings))]
    ensures settings.strictAuth ==> BatchSpec(b, batch, apiUrl, settings, outcome).0 == Err("MCP publish failed with status 401")
    ensures !settings.strictAuth ==> BatchSpec(b, batch, apiUrl, settings, outcome).0 == Ok(PublishResult(true, []))
  {
  }

  /** Any other 4xx response throws its status message at once. */
  lemma ClientErrorNotRetried<R>(b: nat, batch: seq<R>, apiUrl: string, settings: BatchSettings,
                                 outcome: (nat, nat) -> PostOutcome)
    requires settings.retries >= 0
    requires outcome(b, 0).Responded? && 400 <= outcome(b, 0).status < 500 && outcome(b, 0).status != 401
    ensures BatchSpec(b, batch, apiUrl, settings, outcome)
         == (Err(StatusMessage(outcome(b, 0).status, outcome(b, 0).bodyError, "Client error")),
             [Post(b, 0, RequestFor(apiUrl, batch, settings))])
  {
  }

  /** Attempts `from` to `n - 1` of batch `b`, each but the last followed by its pause. */
  function Schedule<R>(b: nat, request: PostRequest<R>, from: nat, n: nat): seq<Event<R>>
    decreases n - from
  {
    if from >= n then []
    else if from == n - 1 then [Post(b, from, request)]
    else [Post(b, from, request), Sleep(RetryDelay(from))] + Schedule(b, request, from + 1, n)
  }

  predicate Retryable(o: PostOutcome, settings: BatchSettings) {
    Classify(o, settings).Retry?
  }

  /**
   * A batch whose every attempt meets a retryable failure is posted
   * `retries + 1` times with the 200, 600, 600, ... ms pauses between, and
   * fails with the final attempt's error.
   */
  lemma {:induction false} ExhaustsRetries<R>(b: nat, request: PostRequest<R>, settings: BatchSettings,
                                              outcome: (nat, nat) -> PostOutcome, from: nat)
    requires from <= settings.retries
    requires forall a :: from <= a <= settings.retries ==> Retryable(outcome(b, a), settings)
    ensures var last := Classify(outcome(b, settings.retries), settings);
      && last.Retry?
      && Attempts(b, request, settings, outcome, from)
         == (Err(last.exhausted), Schedule(b, request, from, settings.retries + 1))
    decreases settings.retries - from
  {
    var step := Classify(outcome(b, from), settings);
    assert step.Retry?;
    var post := [Post(b, from, request)];
    if from < settings.retries {
      ExhaustsRetries(b, request, settings, outcome, from + 1);
      var rest := Attempts(b, request, settings, outcome, from + 1);
      assert Attempts(b, request, settings, outcome, from) == (rest.0, post + [Sleep(RetryDelay(from))] + rest.1);
      assert post + [Sleep(RetryDelay(from))] + rest.1 == [Post(b, from, request), Sleep(RetryDelay(from))] + rest.1;
      assert Schedule(b, request, from, settings.retries + 1)
          == [Post(b, from, request), Sleep(RetryDelay(from))] + Schedule(b, request, from + 1, settings.retries + 1);
    } else {
      assert Attempts(b, request, settings, outcome, from) == (Err(step.exhausted), post);
      assert Schedule(b, request, from, settings.retries + 1) == post;
    }
  }

  /** A network failure without a response on every attempt ends in "failed after N retries". */
  lemma NetworkFailureExhausts<R>(b: nat, batch: seq<R>, apiUrl: string, settings: BatchSettings,
                                  outcome: (nat, nat) -> PostOutcome)
    requires settings.retries >= 0
    requires forall a :: 0 <= a <= settings.retries ==> outcome(b, a).AxiosFailure? && outcome(b, a).response.None?
    ensures BatchSpec(b, batch, apiUrl, settings, outcome).0
         == Err(ExhaustedMessage(settings.retries, outcome(b, settings.retries).message))
    ensures |BatchSpec(b, batch, apiUrl, settings, outcome).1| == 2 * settings.retries + 1
  {
    var request := RequestFor(apiUrl, batch, settings);
    ExhaustsRetries(b, request, settings, outcome, 0);
    ScheduleLength(b, request, 0, settings.retries + 1);
  }

  lemma {:induction false} ScheduleLength<R>(b: nat, request: PostRequest<R>, from: nat, n: nat)
    requires from < n
    ensures |Schedule(b, request, from, n)| == 2 * (n - from) - 1
    decreases n - from
  {
    if from < n - 1 {
      ScheduleLength(b, request, from + 1, n);
    }
  }

  /** With the default two retries the pauses are 200 and 600 ms; later pauses stay at 600. */
  lemma DefaultPauses<R>(b: nat, request: PostRequest<R>)
    ensures Schedule(b, request, 0, 3) == [Post(b, 0, request), Sleep(200), Post(b, 1, request), Sleep(600), Post(b, 2, request)]
    ensures forall a :: a >= 1 ==> RetryDelay(a) == 600
  {
  }

  /** A token, when it is not empty, adds `Authorization: Bearer <token>`; no token, no header. */
  lemma BearerHeader(options: PublishOptions)
    ensures var h := Headers(SettingsFor(options));
      && h["Content-Type"] == "application/json"
      && (options.token.Some? && options.token.value != "" ==> h["Authorization"] == "Bearer " + options.token.value)
      && (options.token.None? || options.token.value == "" ==> "Authorization" !in h)
  {
  }
}
