/** The pure decisions of internal/worker/worker.go: retry or not, and the result
    record built from an HTTP outcome. */
module Worker {
  import opened Contracts

  const MAX_ATTEMPTS := 20

  datatype HttpOutcome =
    | CallFailed(error: string)
    | Response(statusCode: int, headers: seq<HeaderField>, body: Bytes)

  predicate SafeToRepeat(req: HttpRequest)
  {
    req.httpMethod == "GET" || req.httpMethod == "HEAD" || req.httpMethod == "OPTIONS" || req.retry.idempotent
  }

  /** Number of HTTP calls a request may ever cause. */
  function Budget(req: HttpRequest): (n: nat)
    ensures 1 <= n
    ensures req.httpMethod !in {"GET", "HEAD", "OPTIONS"} && !req.retry.idempotent ==> n == 1
    ensures req.httpMethod in {"GET", "HEAD", "OPTIONS"} || req.retry.idempotent ==>
              req.retry.maxAttempts <= n && (n == 1 || n == req.retry.maxAttempts)
    ensures req.retry.maxAttempts <= MAX_ATTEMPTS ==> n <= MAX_ATTEMPTS
  {
    if SafeToRepeat(req) && req.retry.maxAttempts > 0 then req.retry.maxAttempts else 1
  }

  /** The caller asked for a repeat after this outcome. */
  predicate RetryRequested(policy: RetryPolicy, outcome: HttpOutcome)
  {
    match outcome
    case CallFailed(_) => policy.retryNetworkFail
    case Response(code, _, _) => code in policy.retryStatuses
  }

  predicate CanRetry(req: HttpRequest, attempt: int, outcome: HttpOutcome)
  {
    attempt < Budget(req) && RetryRequested(req.retry, outcome)
  }

  /** canRetry as the source computes it: early exits, then a scan of the statuses. */
  method DecideRetry(req: HttpRequest, attempt: int, outcome: HttpOutcome) returns (retry: bool)
    requires attempt >= 1
    ensures retry == CanRetry(req, attempt, outcome)
    ensures retry <==>
              && attempt < req.retry.maxAttempts
              && (req.httpMethod in {"GET", "HEAD", "OPTIONS"} || req.retry.idempotent)
              && match outcome
                 case CallFailed(_) => req.retry.retryNetworkFail
                 case Response(code, _, _) => code in req.retry.retryStatuses
  {
    var limit := req.retry.maxAttempts;
    if limit <= 0 {
      limit := 1;
    }
    if attempt >= limit {
      return false;
    }
    if !SafeToRepeat(req) {
      return false;
    }
    if outcome.CallFailed? {
      return req.retry.retryNetworkFail;
    }
    var statuses := req.retry.retryStatuses;
    for i := 0 to |statuses|
      invariant outcome.statusCode !in statuses[..i]
    {
      if statuses[i] == outcome.statusCode {
        return true;
      }
    }
    assert statuses[..|statuses|] == statuses;
    return false;
  }

  /** A number in decimal notation. */
  function Decimal(n: int): string
    decreases if n < 0 then 1 - n else n
  {
    if n < 0 then "-" + Decimal(-n)
    else if n < 10 then ["0123456789"[n]]
    else Decimal(n / 10) + ["0123456789"[n % 10]]
  }

  /** What is kept of an outcome that is to be repeated. */
  function RetryReason(outcome: HttpOutcome): string
  {
    match outcome
    case CallFailed(error) => error
    case Response(code, _, _) => "HTTP " + Decimal(code)
  }

  /** The record a worker builds when it will not retry. */
  function ResultOfCall(req: HttpRequest, proxy: ProxyId, attempt: int, outcome: HttpOutcome,
                        completedAt: int): HttpResult
  {
    match outcome
    case CallFailed(error) =>
      HttpResult(ResultOf(req.requestId), req.requestId, proxy, OutcomeUnknown, 0, [], [],
                 "http_outcome_unknown", error, attempt, completedAt)
    case Response(code, headers, body) =>
      HttpResult(ResultOf(req.requestId), req.requestId, proxy, HttpCompleted, code, headers, body,
                 "", "", attempt, completedAt)
  }
}
