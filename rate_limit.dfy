/**
 * The pure helpers of index.js that decide whether a failed request is
 * retried and how long `connect` waits before the next attempt.
 *
 * The clock is a parameter: `now` is the value `Date.now()` returns inside
 * `rateLimiting`, in milliseconds.
 */
module RateLimit {
  import opened Wrappers
  import opened JsNumber

  /** Fifteen minutes, in milliseconds: Twitter's rate-limit window. */
  const RATE_LIMIT_WINDOW: int := 15 * 60 * 1000

  /** The shortest wait between attempts outside a rate limit. */
  const MIN_BACKOFF: int := 1000

  /** The HTTP statuses after which a request is retried. */
  const RETRIABLE_STATUSES: seq<int> := [429, 420, 504, 503, 502, 500]

  const REMAINING_HEADER: string := "x-rate-limit-remaining"
  const RESET_HEADER: string := "x-rate-limit-reset"

  /** An HTTP response attached to a request error; `headers` is absent when the response has none. */
  datatype Response = Response(status: int, headers: Option<map<string, string>>)

  /**
   * What `connect` inspects of a failed attempt: the error code, the
   * `isTimeout` flag the liveness timer sets, and the response, if any.
   */
  datatype RequestError = RequestError(code: Option<string>, isTimeout: bool, response: Option<Response>)

  /**
   * `isTimedout`: a request timeout of the HTTP client (`ECONNABORTED`), or
   * the liveness timer firing (the `isTimeout` flag); no other error is one.
   */
  predicate IsTimedout(e: RequestError): (timedOut: bool)
    ensures e.code == Some("ECONNABORTED") ==> timedOut
    ensures e.isTimeout ==> timedOut
    ensures timedOut ==> e.code == Some("ECONNABORTED") || e.isTimeout
  {
    e.code == Some("ECONNABORTED") || e.isTimeout
  }

  /**
   * `retriableStatus`: the status is one of the listed ones, that is 420,
   * 429, and the 5xx server and gateway errors other than 501.
   */
  predicate RetriableStatus(resp: Response): (retried: bool)
    ensures retried <==>
      resp.status == 420 || resp.status == 429 || resp.status == 500 || (502 <= resp.status <= 504)
  {
    resp.status in RETRIABLE_STATUSES
  }

  /**
   * The test `connect` applies to a failure that is not a cancellation:
   * every timeout is retried, whatever the response; any other failure only
   * with a response whose status is retriable.
   */
  predicate Retriable(e: RequestError)
  {
    IsTimedout(e) || (e.response.Some? && RetriableStatus(e.response.value))
  }

  /**
   * How `connect` classifies a failure: a timeout is always retried; any
   * other failure exactly when it has a response with a retriable status;
   * a failure without a response exactly when it is a timeout.
   */
  lemma RetriableClassification(e: RequestError)
    ensures IsTimedout(e) ==> Retriable(e)
    ensures !IsTimedout(e) ==> (Retriable(e) <==> e.response.Some? && RetriableStatus(e.response.value))
    ensures e.response.None? ==> (Retriable(e) <==> IsTimedout(e))
  {
  }

  /** A header read as a number; a missing header reads as `parseInt(undefined)`. */
  function HeaderNumber(headers: map<string, string>, name: string): Num
  {
    ParseInt(if name in headers then headers[name] else "undefined")
  }

  /** The number of requests left in the window: 0 when unreadable, -1 without headers. */
  function Remaining(resp: Option<Response>): int
  {
    if resp.Some? && resp.value.headers.Some? then
      DefaultNaN(HeaderNumber(resp.value.headers.value, REMAINING_HEADER), 0)
    else -1
  }

  /**
   * When the window resets, in milliseconds: the reset header (seconds)
   * times 1000, or one window from now when it is absent or unreadable.
   */
  function ResetTime(resp: Option<Response>, now: int): int
  {
    var fallback := now + RATE_LIMIT_WINDOW;
    if resp.Some? && resp.value.headers.Some? then
      match HeaderNumber(resp.value.headers.value, RESET_HEADER)
      case Int(seconds) => seconds * 1000
      case NaN => fallback
    else fallback
  }

  /** The branch of `rateLimiting` that waits for the window to reset. */
  predicate RateLimited(resp: Option<Response>)
  {
    Remaining(resp) == 0 || (resp.Some? && (resp.value.status == 429 || resp.value.status == 420))
  }

  function Min(a: int, b: int): int { if a <= b then a else b }

  function Max(a: int, b: int): int { if a >= b then a else b }

  /**
   * `rateLimiting(resp, last_retry)`: when rate limited, the time until the
   * reset, capped at one window; otherwise the time since the last attempt,
   * capped at one window and at least one second.
   */
  function RateLimiting(resp: Option<Response>, lastRetry: int, now: int): int
  {
    if RateLimited(resp) then Min(ResetTime(resp, now) - now, RATE_LIMIT_WINDOW)
    else Max(Min(RATE_LIMIT_WINDOW, now - lastRetry), MIN_BACKOFF)
  }

  /** Without headers the remaining count is -1 and the reset one window away. */
  lemma NoHeadersDefaults(resp: Option<Response>, now: int)
    requires resp.None? || resp.value.headers.None?
    ensures Remaining(resp) == -1
    ensures ResetTime(resp, now) == now + RATE_LIMIT_WINDOW
  {
  }

  /** With headers but no remaining header, the remaining count reads as 0, so the response is rate limited. */
  lemma MissingRemainingReadsZero(status: int, headers: map<string, string>)
    requires REMAINING_HEADER !in headers
    ensures Remaining(Some(Response(status, Some(headers)))) == 0
    ensures RateLimited(Some(Response(status, Some(headers))))
  {
    ParseIntOfUndefined();
  }

  /** With headers but no reset header, the reset lies one window from now. */
  lemma MissingResetDefaults(status: int, headers: map<string, string>, now: int)
    requires RESET_HEADER !in headers
    ensures ResetTime(Some(Response(status, Some(headers))), now) == now + RATE_LIMIT_WINDOW
  {
    ParseIntOfUndefined();
  }

  /**
   * A response with headers but neither rate-limit header, such as a 503
   * with an empty header map, waits the full window: the missing remaining
   * count reads as 0.
   */
  lemma MissingHeadersWaitFullWindow(status: int, headers: map<string, string>, lastRetry: int, now: int)
    requires REMAINING_HEADER !in headers && RESET_HEADER !in headers
    ensures RateLimiting(Some(Response(status, Some(headers))), lastRetry, now) == RATE_LIMIT_WINDOW
  {
    MissingRemainingReadsZero(status, headers);
    MissingResetDefaults(status, headers, now);
  }

  /** A reset header that does not start with a number also puts the reset one window from now. */
  lemma NonNumericResetDefaults(status: int, headers: map<string, string>, now: int)
    requires RESET_HEADER in headers
    requires var t := TrimStart(headers[RESET_HEADER]);
      t == [] || (t[0] != '-' && t[0] != '+' && !IsDecimalDigit(t[0]))
    ensures ResetTime(Some(Response(status, Some(headers))), now) == now + RATE_LIMIT_WINDOW
  {
    ParseIntOfNonNumeric(headers[RESET_HEADER]);
  }

  /** A remaining header that does not start with a number reads as 0, which is rate limited. */
  lemma NonNumericRemainingReadsZero(status: int, headers: map<string, string>)
    requires REMAINING_HEADER in headers
    requires var t := TrimStart(headers[REMAINING_HEADER]);
      t == [] || (t[0] != '-' && t[0] != '+' && !IsDecimalDigit(t[0]))
    ensures Remaining(Some(Response(status, Some(headers)))) == 0
    ensures RateLimited(Some(Response(status, Some(headers))))
  {
    ParseIntOfNonNumeric(headers[REMAINING_HEADER]);
  }

  /** A decimal header is read as its value. */
  lemma DecimalHeaders(status: int, remaining: nat, reset: nat, now: int)
    ensures var resp := Some(Response(status, Some(map[REMAINING_HEADER := DecimalString(remaining), RESET_HEADER := DecimalString(reset)])));
      Remaining(resp) == remaining && ResetTime(resp, now) == reset * 1000
  {
    var headers := map[REMAINING_HEADER := DecimalString(remaining), RESET_HEADER := DecimalString(reset)];
    assert REMAINING_HEADER != RESET_HEADER;
    assert headers[REMAINING_HEADER] == DecimalString(remaining);
    ParseIntOfDecimal(remaining);
    ParseIntOfDecimal(reset);
  }

  /** When rate limited, the wait is the time to the reset, and never more than one window. */
  lemma RateLimitedWait(resp: Option<Response>, lastRetry: int, now: int)
    requires RateLimited(resp)
    ensures RateLimiting(resp, lastRetry, now) <= RATE_LIMIT_WINDOW
    ensures ResetTime(resp, now) - now <= RATE_LIMIT_WINDOW ==> RateLimiting(resp, lastRetry, now) == ResetTime(resp, now) - now
    ensures ResetTime(resp, now) - now >= RATE_LIMIT_WINDOW ==> RateLimiting(resp, lastRetry, now) == RATE_LIMIT_WINDOW
    ensures ResetTime(resp, now) < now ==> RateLimiting(resp, lastRetry, now) < 0
  {
  }

  /**
   * A 429 whose reset lies five minutes ahead waits exactly five minutes,
   * whatever the last attempt.
   */
  lemma TooManyRequestsWaitsForReset(reset: nat, lastRetry: int, now: int)
    requires now == reset * 1000 - 5 * 60 * 1000
    ensures RateLimiting(Some(Response(429, Some(map[REMAINING_HEADER := "0", RESET_HEADER := DecimalString(reset)]))), lastRetry, now) == 300000
  {
    var headers := map[REMAINING_HEADER := "0", RESET_HEADER := DecimalString(reset)];
    assert REMAINING_HEADER != RESET_HEADER;
    assert headers[RESET_HEADER] == DecimalString(reset);
    ParseIntOfDecimal(reset);
  }

  /** A reset already in the past gives a negative wait: the wait is not clamped at zero. */
  lemma PastResetWaitIsNegative(reset: nat, lastRetry: int, now: int)
    requires reset * 1000 < now
    ensures RateLimiting(Some(Response(429, Some(map[RESET_HEADER := DecimalString(reset)]))), lastRetry, now) < 0
  {
    var headers := map[RESET_HEADER := DecimalString(reset)];
    assert headers[RESET_HEADER] == DecimalString(reset);
    ParseIntOfDecimal(reset);
  }

  /**
   * Outside a rate limit, the wait lies between one second and one window,
   * equals the time since the last attempt when that is in range, and grows
   * with it.
   */
  lemma SpacingWait(resp: Option<Response>, lastRetry: int, now: int)
    requires !RateLimited(resp)
    ensures MIN_BACKOFF <= RateLimiting(resp, lastRetry, now) <= RATE_LIMIT_WINDOW
    ensures MIN_BACKOFF <= now - lastRetry <= RATE_LIMIT_WINDOW ==> RateLimiting(resp, lastRetry, now) == now - lastRetry
    ensures forall earlier :: earlier <= lastRetry ==> RateLimiting(resp, lastRetry, now) <= RateLimiting(resp, earlier, now)
  {
  }

  /** A failure without a response (a timeout, say) is never rate limited. */
  lemma NoResponseIsSpaced(lastRetry: int, now: int)
    ensures !RateLimited(None)
    ensures MIN_BACKOFF <= RateLimiting(None, lastRetry, now) <= RATE_LIMIT_WINDOW
  {
    SpacingWait(None, lastRetry, now);
  }
}
