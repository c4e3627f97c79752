/**
 * The Statistics Norway PxWeb connector (integrations/connectors/pxweb/connector.ts).
 * It holds no mutable state: its configuration is fixed when it is built, and
 * a submission's result depends only on validation and on whether the `try`
 * block raised.
 */
module PxWebConnector {
  import opened Wrappers
  import opened IntegrationTypes
  import JsText
  import SsbTransformer

  /** The constructor's defaults; `api_key`, `api_url` and the rate limit have none. */
  const Defaults := IntegrationConfig(None, "", 30000, 3, 2000, None)

  datatype PxWebConnector = PxWebConnector(config: IntegrationConfig)
  {
    /** The PxWeb interface is public: authentication always succeeds. */
    function Authenticate(): (ok: bool)
      ensures ok
    {
      true
    }

    /**
     * `submitEnvironmentalData`; `date` is the calendar date of the cleanup as
     * `new Date(...)` reads it.
     */
    function SubmitEnvironmentalData(input: CleanupData, date: SsbTransformer.CalendarDate, occasion: Occasion): (r: SubmissionResult)
      ensures r.success <==> occasion.fault.None? && SsbTransformer.Validate(SsbTransformer.Transform(input, date))
    {
      if occasion.fault.Some? then ExceptionFailure(occasion.fault.value, occasion.now, config.retry_delay_ms)
      else
        var d := SsbTransformer.Transform(input, date);
        if !SsbTransformer.Validate(d) then ValidationFailure(SsbTransformer.GetValidationErrors(d))
        else StubSuccess(StubId("ssb", occasion.now, occasion.suffix), "SSB-ENV-")
    }
  }

  /** `new PxWebConnector(config)`: the supplied keys over the defaults. */
  function Create(supplied: SuppliedConfig): (c: PxWebConnector)
    ensures c.config.retry_delay_ms == supplied.retry_delay_ms
    ensures c.config.api_url == supplied.api_url
    ensures supplied.api_key.None? ==> c.config.api_key.None?
  {
    PxWebConnector(WithDefaults(Defaults, supplied))
  }

  /** The three outcomes of a submission and the retry advice each carries. */
  lemma SubmitOutcomes(c: PxWebConnector, input: CleanupData, date: SsbTransformer.CalendarDate, occasion: Occasion)
    ensures var r := c.SubmitEnvironmentalData(input, date, occasion);
      var d := SsbTransformer.Transform(input, date);
      && (occasion.fault.Some? ==>
            r.retry_recommended == Some(true) &&
            r.next_retry_at == Some(occasion.now + c.config.retry_delay_ms) &&
            r.error == Some("Submission failed: " + occasion.fault.value))
      && (occasion.fault.None? && !SsbTransformer.Validate(d) ==>
            !r.success && r.retry_recommended == Some(false) &&
            r.error == Some("Data validation failed: " + JsText.Join(SsbTransformer.GetValidationErrors(d), ", ")))
      && (r.success ==>
            r.external_id == Some(StubId("ssb", occasion.now, occasion.suffix)) &&
            r.reference_number == Some("SSB-ENV-" + JsText.ToUpper(r.external_id.value)))
  {
    var r := c.SubmitEnvironmentalData(input, date, occasion);
    if occasion.fault.Some? {
      assert r == ExceptionFailure(occasion.fault.value, occasion.now, c.config.retry_delay_ms);
    } else {
      var d := SsbTransformer.Transform(input, date);
      if !SsbTransformer.Validate(d) {
        assert r == ValidationFailure(SsbTransformer.GetValidationErrors(d));
      } else {
        assert r == StubSuccess(StubId("ssb", occasion.now, occasion.suffix), "SSB-ENV-");
      }
    }
  }
}
