/**
 * The client of the National Diet Library SRU endpoint: one GET per
 * attempt, retrying server errors and network failures with growing pauses,
 * and giving up at once on client errors, time-outs and anything unknown.
 * What each attempt meets is the parameter `outcome`; pauses are recorded in
 * the returned trace instead of being slept.
 */
module NdlConnector {
  import opened JsText

  const RetryDelays: seq<int> := [200, 600, 1800]

  /** `RETRY_DELAYS[attempt]`; past the table `setTimeout` gets `undefined`, which Node runs as 1 ms. */
  function RetryDelay(attempt: nat): int {
    if attempt < |RetryDelays| then RetryDelays[attempt] else 1
  }

  /** The settings read from the environment. */
  datatype ConnectorConfig = ConnectorConfig(
    baseUrl: string,        // NDL_BASE_URL
    recordSchema: string,   // NDL_RECORD_SCHEMA, 'dcndl' by default
    timeoutMs: int,         // HTTP_TIMEOUT_MS, at least 1000, 15000 by default
    httpRetry: nat)         // HTTP_RETRY, 0 to 5, 3 by default

  const DefaultConfig := ConnectorConfig("https://ndlsearch.ndl.go.jp/api/sru", "dcndl", 15000, 3)

  datatype SruParams = SruParams(operation: string, query: string, recordSchema: string, maximumRecords: int)

  /** The request every attempt sends. */
  datatype SruRequest = SruRequest(url: string, params: SruParams, timeoutMs: int, headers: map<string, string>)

  const RequestHeaders: map<string, string> :=
    map["User-Agent" := "NDL-MCP-Pipeline/1.0.0", "Accept" := "application/xml"]

  function RequestFor(config: ConnectorConfig, cql: string, maximumRecords: int): SruRequest {
    SruRequest(config.baseUrl, SruParams("searchRetrieve", cql, config.recordSchema, maximumRecords),
               config.timeoutMs, RequestHeaders)
  }

  /** What one `axios.get` meets. */
  datatype HttpOutcome =
    | Received(status: int, body: string, headers: map<string, string>)
    | AxiosFailure(response: Option<int>, code: string, message: string)   // response: its status, if any
    | OtherFailure(message: string)                                        // not an axios error

  datatype NdlSearchResult = NdlSearchResult(rawXml: string, httpStatus: int, headers: map<string, string>)

  datatype ConnectorError =
    | ClientError(status: int)
    | TimedOut(timeoutMs: int)
    | RetriesExhausted(retries: nat, lastMessage: string)
    | Rethrown(message: string)

  /** The message of the error `searchNDL` throws. */
  function ErrorMessage(e: ConnectorError): string {
    match e
    case ClientError(status) => "NDL SRU request failed with status " + IntToString(status)
    case TimedOut(ms) => "NDL SRU request timeout after " + IntToString(ms) + "ms"
    case RetriesExhausted(n, m) => "NDL SRU request failed after " + NatToString(n) + " retries: " + m
    case Rethrown(m) => m
  }

  datatype Event = Get(attempt: nat, request: SruRequest) | Sleep(ms: int)

  predicate IsClientError(o: HttpOutcome) {
    o.AxiosFailure? && o.response.Some? && 400 <= o.response.value < 500
  }

  predicate IsTimeout(o: HttpOutcome) {
    o.AxiosFailure? && (o.code == "ECONNABORTED" || Includes(ToLower(o.message), "timeout"))
  }

  /** A server error or a failure without a response, neither of them a time-out. */
  predicate IsRetryable(o: HttpOutcome) {
    o.AxiosFailure? && !IsClientError(o) && !IsTimeout(o)
    && (o.response.None? || o.response.value >= 500)
  }

  /** The result of an attempt that ends the loop. */
  function Settle(o: HttpOutcome, config: ConnectorConfig): Result<NdlSearchResult, ConnectorError>
    requires !IsRetryable(o)
  {
    match o
    case Received(status, body, headers) => Ok(NdlSearchResult(body, status, headers))
    case OtherFailure(m) => Err(Rethrown(m))
    case AxiosFailure(response, _, m) =>
      if IsClientError(o) then Err(ClientError(response.value))
      else if IsTimeout(o) then Err(TimedOut(config.timeoutMs))
      else Err(Rethrown(m))
  }

  /**
   * The loop from `attempt` on, `lastMessage` being the message of the
   * error caught last: the result, and the requests and pauses on the way.
   */
  function Attempts(config: ConnectorConfig, request: SruRequest, outcome: nat -> HttpOutcome,
                    attempt: nat, lastMessage: string): (Result<NdlSearchResult, ConnectorError>, seq<Event>)
    decreases config.httpRetry + 1 - attempt
  {
    if attempt > config.httpRetry then (Err(RetriesExhausted(config.httpRetry, lastMessage)), [])
    else
      var o := outcome(attempt);
      if !IsRetryable(o) then (Settle(o, config), [Get(attempt, request)])
      else
        var pause := if attempt < config.httpRetry then [Sleep(RetryDelay(attempt))] else [];
        var rest := Attempts(config, request, outcome, attempt + 1, o.message);
        (rest.0, [Get(attempt, request)] + pause + rest.1)
  }

  /** `searchNDL(validatedQuery)`: the whole exchange. */
  function SearchSpec(config: ConnectorConfig, cql: string, maximumRecords: int, outcome: nat -> HttpOutcome)
    : (Result<NdlSearchResult, ConnectorError>, seq<Event>)
  {
    Attempts(config, RequestFor(config, cql, maximumRecords), outcome, 0, "undefined")
  }

  /** `searchNDL(validatedQuery)`. */
  method SearchNdl(config: ConnectorConfig, cql: string, maximumRecords: int, outcome: nat -> HttpOutcome)
    returns (result: Result<NdlSearchResult, ConnectorError>, trace: seq<Event>)
    ensures (result, trace) == SearchSpec(config, cql, maximumRecords, outcome)
  {
    var request := RequestFor(config, cql, maximumRecords);
    ghost var spec := SearchSpec(config, cql, maximumRecords, outcome);
    var lastMessage := "undefined";
    trace := [];
    var attempt: nat := 0;
    while attempt <= config.httpRetry
      invariant attempt <= config.httpRetry + 1
      invariant trace + Attempts(config, request, outcome, attempt, lastMessage).1 == spec.1
      invariant Attempts(config, request, outcome, attempt, lastMessage).0 == spec.0
      decreases config.httpRetry + 1 - attempt
    {
      var o := outcome(attempt);
      ghost var oldLast := lastMessage;
      trace := trace + [Get(attempt, request)];
      if !IsRetryable(o) {
        assert Attempts(config, request, outcome, attempt, lastMessage).1 == [Get(attempt, request)];
        result := Settle(o, config);
        return;
      }
      lastMessage := o.message;
      if attempt < config.httpRetry {
        trace := trace + [Sleep(RetryDelay(attempt))];
      }
      assert Attempts(config, request, outcome, attempt, oldLast).1
          == [Get(attempt, request)] + (if attempt < config.httpRetry then [Sleep(RetryDelay(attempt))] else [])
             + Attempts(config, request, outcome, attempt + 1, lastMessage).1;
      attempt := attempt + 1;
    }
    assert trace + [] == trace;
    result := Err(RetriesExhausted(config.httpRetry, lastMessage));
  }

  // ---------------------------------------------------------------------
  // Properties

  /** Attempts `from` to `n - 1`, each but the last followed by its pause. */
  function Schedule(request: SruRequest, from: nat, n: nat): seq<Event>
    decreases n - from
  {
    if from >= n then []
    else [Get(from, request)] + (if from + 1 < n then [Sleep(RetryDelay(from))] else [])
         + Schedule(request, from + 1, n)
  }

  lemma {:induction false} AttemptsShape(config: ConnectorConfig, request: SruRequest, outcome: nat -> HttpOutcome,
                                         attempt: nat, lastMessage: string)
    requires attempt <= config.httpRetry
    ensures var (r, t) := Attempts(config, request, outcome, attempt, lastMessage);
      exists n :: attempt < n <= config.httpRetry + 1
        && t == Schedule(request, attempt, n)
        && (forall k :: attempt <= k < n - 1 ==> IsRetryable(outcome(k)))
        && (if IsRetryable(outcome(n - 1))
            then n == config.httpRetry + 1 && r == Err(RetriesExhausted(config.httpRetry, outcome(n - 1).message))
            else r == Settle(outcome(n - 1), config))
    decreases config.httpRetry - attempt
  {
    var o := outcome(attempt);
    if !IsRetryable(o) {
      assert Schedule(request, attempt, attempt + 1) == [Get(attempt, request)];
    } else if attempt == config.httpRetry {
      assert Schedule(request, attempt, attempt + 1) == [Get(attempt, request)];
    } else {
      AttemptsShape(config, request, outcome, attempt + 1, o.message);
      var (r, t) := Attempts(config, request, outcome, attempt + 1, o.message);
      var n :| attempt + 1 < n <= config.httpRetry + 1
        && t == Schedule(request, attempt + 1, n)
        && (forall k :: attempt + 1 <= k < n - 1 ==> IsRetryable(outcome(k)))
        && (if IsRetryable(outcome(n - 1))
            then n == config.httpRetry + 1 && r == Err(RetriesExhausted(config.httpRetry, outcome(n - 1).message))
            else r == Settle(outcome(n - 1), config));
      assert Schedule(request, attempt, n)
          == [Get(attempt, request)] + [Sleep(RetryDelay(attempt))] + Schedule(request, attempt + 1, n);
    }
  }

  /**
   * The exchange is attempts 0 to n-1 (at most `HTTP_RETRY + 1` of them)
   * separated by the pauses 200, 600, 1800 ms: every attempt but the last
   * met a server error or a network failure; the last attempt decides the
   * result, except that a retryable failure on the final permitted attempt
   * ends in "failed after N retries" with that failure's message.
   */
  lemma RetrySchedule(config: ConnectorConfig, cql: string, maximumRecords: int, outcome: nat -> HttpOutcome)
    ensures var (r, t) := SearchSpec(config, cql, maximumRecords, outcome);
      var request := RequestFor(config, cql, maximumRecords);
      exists n :: 1 <= n <= config.httpRetry + 1
        && t == Schedule(request, 0, n)
        && (forall k :: 0 <= k < n - 1 ==> IsRetryable(outcome(k)))
        && (if IsRetryable(outcome(n - 1))
            then n == config.httpRetry + 1 && r == Err(RetriesExhausted(config.httpRetry, outcome(n - 1).message))
            else r == Settle(outcome(n - 1), config))
  {
    AttemptsShape(config, RequestFor(config, cql, maximumRecords), outcome, 0, "undefined");
  }

  /** A client error (4xx) on the first attempt is final: one request, no retry. */
  lemma ClientErrorNotRetried(config: ConnectorConfig, cql: string, maximumRecords: int, outcome: nat -> HttpOutcome)
    requires IsClientError(outcome(0))
    ensures var (r, t) := SearchSpec(config, cql, maximumRecords, outcome);
      r == Err(ClientError(outcome(0).response.value))
      && t == [Get(0, RequestFor(config, cql, maximumRecords))]
      && ErrorMessage(r.error) == "NDL SRU request failed with status " + IntToString(outcome(0).response.value)
  {
  }

  /** Every request carries the validated CQL, the configured schema and the record count. */
  lemma RequestsCarryQuery(config: ConnectorConfig, cql: string, maximumRecords: int, outcome: nat -> HttpOutcome, i: nat)
    requires i < |SearchSpec(config, cql, maximumRecords, outcome).1|
    requires SearchSpec(config, cql, maximumRecords, outcome).1[i].Get?
    ensures var p := SearchSpec(config, cql, maximumRecords, outcome).1[i].request.params;
      p.operation == "searchRetrieve" && p.query == cql
      && p.recordSchema == config.recordSchema && p.maximumRecords == maximumRecords
  {
    RetrySchedule(config, cql, maximumRecords, outcome);
    var request := RequestFor(config, cql, maximumRecords);
    var n :| 1 <= n <= config.httpRetry + 1 && SearchSpec(config, cql, maximumRecords, outcome).1 == Schedule(request, 0, n);
    ScheduleRequests(request, 0, n);
  }

  lemma {:induction false} ScheduleRequests(request: SruRequest, from: nat, n: nat)
    ensures forall i :: 0 <= i < |Schedule(request, from, n)| && Schedule(request, from, n)[i].Get?
              ==> Schedule(request, from, n)[i].request == request
    decreases n - from
  {
    if from < n {
      ScheduleRequests(request, from + 1, n);
    }
  }

  /** With the default three retries, the pauses are 200, 600 and 1800 ms. */
  lemma DefaultPauses(request: SruRequest)
    ensures Schedule(request, 0, 4)
         == [Get(0, request), Sleep(200), Get(1, request), Sleep(600),
             Get(2, request), Sleep(1800), Get(3, request)]
  {
  }
}
