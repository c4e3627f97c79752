/**
 * The Rydde connector (integrations/connectors/rydde/connector.ts): a
 * per-minute request limiter held in two mutable fields, and the result a
 * submission returns. The remote call is a stub in the source, so a
 * submission's outcome depends only on validation and on whether the `try`
 * block raised.
 */
module RyddeConnector {
  import opened Wrappers
  import opened IntegrationTypes
  import JsNumber
  import JsText
  import RyddeTransformer

  const OneMinute := 60 * 1000

  /** The constructor's defaults; `api_key` and `api_url` have none. */
  const Defaults := IntegrationConfig(None, "", 30000, 3, 1000, Some(60))

  /** The limiter's two fields. */
  datatype Limiter = Limiter(requestCount: int, lastRequestTime: int)

  /** The limiter after one call, and the clock when the call returns. */
  datatype LimitStep = LimitStep(after: Limiter, clock: nat)

  /**
   * One call of `enforceRateLimit` at time `now` under `limit`. A window older
   * than a minute is restarted at `now`; a full window is waited out, and the
   * clock then reads `lateness` past the window's end.
   */
  function RateLimitStep(limit: Option<int>, s: Limiter, now: nat, lateness: nat): (r: LimitStep)
    ensures r.clock >= now
    ensures !JsNumber.IntTruthy(limit) ==> r == LimitStep(s, now)
  {
    if !JsNumber.IntTruthy(limit) then LimitStep(s, now)
    else
      var s1 := if now - s.lastRequestTime > OneMinute then Limiter(0, now) else s;
      if s1.requestCount >= limit.value then
        var resumed := now + (OneMinute - (now - s1.lastRequestTime)) + lateness;
        LimitStep(Limiter(1, resumed), resumed)
      else
        LimitStep(Limiter(s1.requestCount + 1, s1.lastRequestTime), now)
  }

  /** The result of `submitCleanup` once the limiter has let the call through at `clock`. */
  function SubmitOutcome(input: CleanupData, clock: nat, retryDelayMs: int, suffix: string, fault: Option<string>): (r: SubmissionResult)
    ensures r.success <==> fault.None? && RyddeTransformer.Validate(RyddeTransformer.Transform(input))
  {
    if fault.Some? then ExceptionFailure(fault.value, clock, retryDelayMs)
    else
      var d := RyddeTransformer.Transform(input);
      if !RyddeTransformer.Validate(d) then ValidationFailure(RyddeTransformer.GetValidationErrors(d))
      else StubSuccess(StubId("rydde", clock, suffix), "RYD-")
  }

  /** The canned answer of `getSubmissionStatus`; `timestamp` is `new Date().toISOString()`. */
  datatype StatusResponse = StatusResponse(
    success: bool,
    external_id: string,
    status: string,
    processed_at: string,
    confirmation_number: string,
    statusCode: int)

  function SubmissionStatus(externalId: string, timestamp: string): (r: StatusResponse)
    ensures r.success && r.status == "confirmed" && r.external_id == externalId
    ensures r.confirmation_number == "CONF-" + JsText.ToUpper(externalId)
  {
    StatusResponse(true, externalId, "confirmed", timestamp, "CONF-" + JsText.ToUpper(externalId), 200)
  }

  class RyddeConnector {
    const config: IntegrationConfig
    var lastRequestTime: int
    var requestCount: int

    /** The limiter invariant: with a positive limit, the count never exceeds it. */
    ghost predicate Valid()
      reads this
    {
      config.rate_limit_per_minute.Some? && config.rate_limit_per_minute.value >= 1 ==>
        0 <= requestCount <= config.rate_limit_per_minute.value
    }

    constructor(supplied: SuppliedConfig)
      ensures config == WithDefaults(Defaults, supplied)
      ensures lastRequestTime == 0 && requestCount == 0
      ensures Valid()
    {
      config := WithDefaults(Defaults, supplied);
      lastRequestTime := 0;
      requestCount := 0;
    }

    /** `authenticate`: succeeds exactly when an API key is configured. */
    function Authenticate(): (ok: bool)
      ensures ok <==> Present(config.api_key)
    {
      config.api_key.Some? && config.api_key.value != ""
    }

    /**
     * `enforceRateLimit` at time `now`. The `setTimeout` wait is not performed:
     * the returned clock is the time at which the call resumes.
     */
    method EnforceRateLimit(now: nat, lateness: nat) returns (clock: nat)
      requires Valid()
      modifies this
      ensures Valid()
      ensures var step := RateLimitStep(config.rate_limit_per_minute, old(Limiter(requestCount, lastRequestTime)), now, lateness);
        Limiter(requestCount, lastRequestTime) == step.after && clock == step.clock
    {
      clock := now;
      if config.rate_limit_per_minute.None? || config.rate_limit_per_minute.value == 0 {
        return;
      }
      var limit := config.rate_limit_per_minute.value;
      if now - lastRequestTime > OneMinute {
        requestCount := 0;
        lastRequestTime := now;
      }
      if requestCount >= limit {
        var waitTime := OneMinute - (now - lastRequestTime);
        clock := now + waitTime + lateness;
        requestCount := 0;
        lastRequestTime := clock;
      }
      requestCount := requestCount + 1;
    }

    /** `submitCleanup`: limit the rate, then transform, validate and answer. */
    method SubmitCleanup(input: CleanupData, occasion: Occasion) returns (r: SubmissionResult)
      requires Valid()
      modifies this
      ensures Valid()
      ensures var step := RateLimitStep(config.rate_limit_per_minute, old(Limiter(requestCount, lastRequestTime)), occasion.now, occasion.lateness);
        && Limiter(requestCount, lastRequestTime) == step.after
        && r == SubmitOutcome(input, step.clock, config.retry_delay_ms, occasion.suffix, occasion.fault)
    {
      var clock := EnforceRateLimit(occasion.now, occasion.lateness);
      r := SubmitOutcome(input, clock, config.retry_delay_ms, occasion.suffix, occasion.fault);
    }
  }

  /** With a positive limit and a count within it, a call leaves the count between 1 and the limit. */
  lemma RateLimitBounds(limit: int, s: Limiter, now: nat, lateness: nat)
    requires limit >= 1 && 0 <= s.requestCount <= limit
    ensures 1 <= RateLimitStep(Some(limit), s, now, lateness).after.requestCount <= limit
  {
  }

  /** A window older than a minute restarts at `now`, and this call is its first request. */
  lemma RateLimitReset(limit: int, s: Limiter, now: nat, lateness: nat)
    requires limit >= 1 && now - s.lastRequestTime > OneMinute
    ensures RateLimitStep(Some(limit), s, now, lateness) == LimitStep(Limiter(1, now), now)
  {
  }

  /** A full window is waited out to its end; the next window then starts with this request. */
  lemma RateLimitWait(limit: int, s: Limiter, now: nat, lateness: nat)
    requires limit != 0 && now - s.lastRequestTime <= OneMinute && s.requestCount >= limit
    ensures var resumed := s.lastRequestTime + OneMinute + lateness;
      RateLimitStep(Some(limit), s, now, lateness) == LimitStep(Limiter(1, resumed), resumed)
  {
  }

  /** A window that is neither stale nor full just counts the request. */
  lemma RateLimitCounts(limit: int, s: Limiter, now: nat, lateness: nat)
    requires limit != 0 && now - s.lastRequestTime <= OneMinute && s.requestCount < limit
    ensures RateLimitStep(Some(limit), s, now, lateness) ==
      LimitStep(Limiter(s.requestCount + 1, s.lastRequestTime), now)
  {
  }

  /** Without a limit (absent or 0) neither field changes. */
  lemma RateLimitOff(limit: Option<int>, s: Limiter, now: nat, lateness: nat)
    requires limit.None? || limit.value == 0
    ensures RateLimitStep(limit, s, now, lateness) == LimitStep(s, now)
  {
  }

  /** The three outcomes of a submission and the retry advice each carries. */
  lemma SubmitOutcomes(input: CleanupData, clock: nat, retryDelayMs: int, suffix: string, fault: Option<string>)
    ensures var r := SubmitOutcome(input, clock, retryDelayMs, suffix, fault);
      var d := RyddeTransformer.Transform(input);
      && (fault.Some? ==>
            r.retry_recommended == Some(true) && r.next_retry_at == Some(clock + retryDelayMs) &&
            r.error == Some("Submission failed: " + fault.value))
      && (fault.None? && !RyddeTransformer.Validate(d) ==>
            r.retry_recommended == Some(false) && r.next_retry_at.None? &&
            r.error == Some("Data validation failed: " + JsText.Join(RyddeTransformer.GetValidationErrors(d), ", ")) &&
            RyddeTransformer.GetValidationErrors(d) != [])
      && (r.success ==>
            r.external_id == Some(StubId("rydde", clock, suffix)) &&
            r.reference_number == Some("RYD-" + JsText.ToUpper(r.external_id.value)) &&
            r.error.None?)
  {
  }

  /** The defaults give way to every key the caller supplies; the rate limit stays 60 a minute when none is given. */
  lemma ConfigDefaults(supplied: SuppliedConfig)
    ensures var c := WithDefaults(Defaults, supplied);
      && c.retry_delay_ms == supplied.retry_delay_ms
      && c.timeout_ms == supplied.timeout_ms
      && (supplied.rate_limit_per_minute.None? ==> c.rate_limit_per_minute == Some(60))
      && (supplied.rate_limit_per_minute.Some? ==> c.rate_limit_per_minute == supplied.rate_limit_per_minute)
  {
  }
}
