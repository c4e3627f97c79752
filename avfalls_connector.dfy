/**
 * The Avfallsdeklarering connector
 * (integrations/connectors/avfallsdeklarering/connector.ts): an
 * authentication token that, once obtained, is kept for every later
 * submission, and the result a submission returns.
 */
module AvfallsConnector {
  import opened Wrappers
  import opened IntegrationTypes
  import JsText
  import AvfallsTransformer

  /** The constructor's defaults; `api_key`, `api_url` and the rate limit have none. */
  const Defaults := IntegrationConfig(None, "", 45000, 3, 3000, None)

  /** The token `authenticate` stores: `stub_token_<Date.now()>`. */
  function StubToken(now: nat): (t: string)
    ensures t != ""
  {
    "stub_token_" + JsText.NatToString(now)
  }

  /** A submission's result and the token held afterwards. */
  datatype Submission = Submission(result: SubmissionResult, token: Option<string>)

  /**
   * `submitWasteDeclaration` with `apiKey` configured and `token` held before
   * the call. Authentication is attempted only when no token is held; a failed
   * attempt stops the submission with a retryable error.
   */
  function SubmitOutcome(apiKey: Option<string>, token: Option<string>, input: CleanupData,
                         retryDelayMs: int, occasion: Occasion, numText: real -> string): (s: Submission)
    ensures token.Some? ==> s.token == token
    ensures s.token.None? <==> token.None? && !Present(apiKey)
  {
    if token.None? && !Present(apiKey) then
      Submission(SubmissionResult(false, None, None, Some("Authentication failed"), Some(true), None), None)
    else
      var held := if token.Some? then token else Some(StubToken(occasion.now));
      var result :=
        if occasion.fault.Some? then ExceptionFailure(occasion.fault.value, occasion.now, retryDelayMs)
        else
          var d := AvfallsTransformer.Transform(input, numText);
          if !AvfallsTransformer.Validate(d) then ValidationFailure(AvfallsTransformer.GetValidationErrors(d))
          else StubSuccess(StubId("avfall", occasion.now, occasion.suffix), "AVF-");
      Submission(result, held)
  }

  class AvfallsdeklaringConnector {
    const config: IntegrationConfig
    var authToken: Option<string>

    constructor(supplied: SuppliedConfig)
      ensures config == WithDefaults(Defaults, supplied)
      ensures authToken.None?
    {
      config := WithDefaults(Defaults, supplied);
      authToken := None;
    }

    /** `authenticate` at time `now`: stores a token exactly when an API key is configured. */
    method Authenticate(now: nat) returns (ok: bool)
      modifies this
      ensures ok <==> Present(config.api_key)
      ensures ok ==> authToken == Some(StubToken(now))
      ensures !ok ==> authToken == old(authToken)
    {
      if config.api_key.None? || config.api_key.value == "" {
        return false;
      }
      authToken := Some(StubToken(now));
      return true;
    }

    /** `submitWasteDeclaration`: authenticate if needed, then transform, validate and answer. */
    method SubmitWasteDeclaration(input: CleanupData, occasion: Occasion, numText: real -> string)
      returns (r: SubmissionResult)
      modifies this
      ensures var s := SubmitOutcome(config.api_key, old(authToken), input, config.retry_delay_ms, occasion, numText);
        r == s.result && authToken == s.token
    {
      if authToken.None? {
        var ok := Authenticate(occasion.now);
        if !ok {
          return SubmissionResult(false, None, None, Some("Authentication failed"), Some(true), None);
        }
      }
      if occasion.fault.Some? {
        return ExceptionFailure(occasion.fault.value, occasion.now, config.retry_delay_ms);
      }
      var d := AvfallsTransformer.Transform(input, numText);
      if !AvfallsTransformer.Validate(d) {
        return ValidationFailure(AvfallsTransformer.GetValidationErrors(d));
      }
      r := StubSuccess(StubId("avfall", occasion.now, occasion.suffix), "AVF-");
    }
  }

  /** The four outcomes of a submission and the retry advice each carries. */
  lemma SubmitOutcomes(apiKey: Option<string>, token: Option<string>, input: CleanupData,
                       retryDelayMs: int, occasion: Occasion, numText: real -> string)
    ensures var r := SubmitOutcome(apiKey, token, input, retryDelayMs, occasion, numText).result;
      var d := AvfallsTransformer.Transform(input, numText);
      && (token.None? && !Present(apiKey) ==>
            !r.success && r.error == Some("Authentication failed") && r.retry_recommended == Some(true))
      && ((token.Some? || Present(apiKey)) && occasion.fault.Some? ==>
            !r.success && r.retry_recommended == Some(true) &&
            r.next_retry_at == Some(occasion.now + retryDelayMs))
      && ((token.Some? || Present(apiKey)) && occasion.fault.None? && !AvfallsTransformer.Validate(d) ==>
            !r.success && r.retry_recommended == Some(false) &&
            r.error == Some("Data validation failed: " + JsText.Join(AvfallsTransformer.GetValidationErrors(d), ", ")))
      && (r.success <==> (token.Some? || Present(apiKey)) && occasion.fault.None? && AvfallsTransformer.Validate(d))
      && (r.success ==> r.reference_number == Some("AVF-" + JsText.ToUpper(r.external_id.value)))
  {
  }

  /**
   * Once a token is held it is never cleared or replaced, whatever the later
   * submissions bring: over any run of submissions the token stays the first one obtained.
   */
  lemma {:induction false} TokenLatch(apiKey: Option<string>, token: string, inputs: seq<CleanupData>,
                                      retryDelayMs: int, occasions: seq<Occasion>, numText: real -> string)
    requires |occasions| == |inputs|
    ensures Replay(apiKey, Some(token), inputs, retryDelayMs, occasions, numText) == Some(token)
  {
    if inputs != [] {
      TokenLatch(apiKey, token, inputs[1..], retryDelayMs, occasions[1..], numText);
    }
  }

  /** The token held after a run of submissions, one per input and occasion. */
  function Replay(apiKey: Option<string>, token: Option<string>, inputs: seq<CleanupData>,
                  retryDelayMs: int, occasions: seq<Occasion>, numText: real -> string): (t: Option<string>)
    requires |occasions| == |inputs|
    decreases |inputs|
  {
    if inputs == [] then token
    else Replay(apiKey, SubmitOutcome(apiKey, token, inputs[0], retryDelayMs, occasions[0], numText).token,
                inputs[1..], retryDelayMs, occasions[1..], numText)
  }
}
