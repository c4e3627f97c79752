/**
 * The integration manager (integrations/integration-manager.ts): it builds a
 * connector for each outside system whose settings are present in the
 * environment, fans one cleanup out to every configured connector in a fixed
 * order, and tallies successes and errors.
 */
module IntegrationManager {
  import opened Wrappers
  import opened IntegrationTypes
  import RyddeConnector
  import PxWebConnector
  import AvfallsConnector
  import SsbTransformer

  /** The environment variables the manager reads; `None` is an unset variable. */
  datatype Env = Env(
    ryddeApiKey: Option<string>,
    ryddeApiUrl: Option<string>,
    ssbApiUrl: Option<string>,
    avfallsApiKey: Option<string>,
    avfallsApiUrl: Option<string>)

  datatype IntegrationResults = IntegrationResults(
    rydde: Option<SubmissionResult>,
    ssb: Option<SubmissionResult>,
    avfallsdeklarering: Option<SubmissionResult>,
    errors: seq<string>,
    totalSubmitted: int)

  /** What the environment supplies to each of the three submissions of one fan-out. */
  datatype Occasions = Occasions(rydde: Occasion, ssb: Occasion, avfalls: Occasion)

  /** The position of a system in the fan-out order. */
  function Rank(name: string): (k: int)
    ensures name == "rydde" ==> k == 0
    ensures name == "ssb" ==> k == 1
    ensures name == "avfallsdeklarering" ==> k == 2
  {
    if name == "rydde" then 0 else if name == "ssb" then 1 else 2
  }

  /** A template string renders an absent error as "undefined". */
  function ErrorText(e: Option<string>): (t: string)
    ensures e.Some? ==> t == e.value
  {
    if e.Some? then e.value else "undefined"
  }

  /** The results after one configured connector has answered `r`. */
  function Record(results: IntegrationResults, system: string, r: SubmissionResult): (next: IntegrationResults)
    ensures r.success ==> next.totalSubmitted == results.totalSubmitted + 1 && next.errors == results.errors
    ensures !r.success ==> (next.totalSubmitted == results.totalSubmitted &&
      next.errors == results.errors + [system + ": " + ErrorText(r.error)])
  {
    if r.success then results.(totalSubmitted := results.totalSubmitted + 1)
    else results.(errors := results.errors + [system + ": " + ErrorText(r.error)])
  }

  /** The results of a fan-out in which each connector answered as given (`None`: not configured). */
  function Aggregate(rydde: Option<SubmissionResult>, ssb: Option<SubmissionResult>,
                     avfalls: Option<SubmissionResult>): (results: IntegrationResults)
    ensures results.rydde == rydde && results.ssb == ssb && results.avfallsdeklarering == avfalls
  {
    var r0 := IntegrationResults(None, None, None, [], 0);
    var r1 := if rydde.Some? then Record(r0.(rydde := rydde), "Rydde", rydde.value) else r0;
    var r2 := if ssb.Some? then Record(r1.(ssb := ssb), "SSB", ssb.value) else r1;
    if avfalls.Some? then Record(r2.(avfallsdeklarering := avfalls), "Avfallsdeklarering", avfalls.value) else r2
  }

  /** Aggregate, step by step: the results after each connector in turn. */
  lemma AggregateSteps(rydde: Option<SubmissionResult>, ssb: Option<SubmissionResult>, avfalls: Option<SubmissionResult>,
                       r1: IntegrationResults, r2: IntegrationResults, r3: IntegrationResults)
    requires r1 == if rydde.Some? then Record(IntegrationResults(rydde, None, None, [], 0), "Rydde", rydde.value)
                   else IntegrationResults(None, None, None, [], 0)
    requires r2 == if ssb.Some? then Record(r1.(ssb := ssb), "SSB", ssb.value) else r1
    requires r3 == if avfalls.Some? then Record(r2.(avfallsdeklarering := avfalls), "Avfallsdeklarering", avfalls.value) else r2
    ensures r3 == Aggregate(rydde, ssb, avfalls)
  {
  }

  function Successes(r: Option<SubmissionResult>): (n: nat)
    ensures n <= 1
  {
    if r.Some? && r.value.success then 1 else 0
  }

  function Failures(r: Option<SubmissionResult>): (n: nat)
    ensures n == 1 <==> r.Some? && !r.value.success
  {
    if r.Some? && !r.value.success then 1 else 0
  }

  function Configured(r: Option<SubmissionResult>): (n: nat)
    ensures n == 1 <==> r.Some?
  {
    if r.Some? then 1 else 0
  }

  /**
   * Every configured connector adds exactly one success or one error, so the
   * two tallies together count the configured connectors.
   */
  lemma AggregateCounts(rydde: Option<SubmissionResult>, ssb: Option<SubmissionResult>, avfalls: Option<SubmissionResult>)
    ensures var results := Aggregate(rydde, ssb, avfalls);
      && results.totalSubmitted == Successes(rydde) + Successes(ssb) + Successes(avfalls)
      && |results.errors| == Failures(rydde) + Failures(ssb) + Failures(avfalls)
      && results.totalSubmitted + |results.errors| == Configured(rydde) + Configured(ssb) + Configured(avfalls)
  {
  }

  /** Errors carry their system's name and come in the order Rydde, SSB, Avfallsdeklarering. */
  lemma AggregateErrorOrder(rydde: Option<SubmissionResult>, ssb: Option<SubmissionResult>, avfalls: Option<SubmissionResult>)
    ensures var errors := Aggregate(rydde, ssb, avfalls).errors;
      && (Failures(rydde) == 1 ==> errors[0] == "Rydde: " + ErrorText(rydde.value.error))
      && (Failures(ssb) == 1 ==> errors[Failures(rydde)] == "SSB: " + ErrorText(ssb.value.error))
      && (Failures(avfalls) == 1 ==>
            errors[Failures(rydde) + Failures(ssb)] == "Avfallsdeklarering: " + ErrorText(avfalls.value.error))
  {
    assert "Rydde" + ": " == "Rydde: " && "SSB" + ": " == "SSB: ";
    assert "Avfallsdeklarering" + ": " == "Avfallsdeklarering: ";
    var r0 := IntegrationResults(None, None, None, [], 0);
    var r1 := if rydde.Some? then Record(r0.(rydde := rydde), "Rydde", rydde.value) else r0;
    var r2 := if ssb.Some? then Record(r1.(ssb := ssb), "SSB", ssb.value) else r1;
    assert |r1.errors| == Failures(rydde);
    assert |r2.errors| == Failures(rydde) + Failures(ssb) && r2.errors[..|r1.errors|] == r1.errors;
  }

  class IntegrationManager {
    var ryddeConnector: RyddeConnector.RyddeConnector?
    var pxwebConnector: Option<PxWebConnector.PxWebConnector>
    var avfallsConnector: AvfallsConnector.AvfallsdeklaringConnector?

    ghost predicate Valid()
      reads this, ryddeConnector
    {
      ryddeConnector != null ==> ryddeConnector.Valid()
    }

    /** Whether the connector of the named system was built. */
    predicate IsConfigured(name: string)
      reads this
    {
      || (name == "rydde" && ryddeConnector != null)
      || (name == "ssb" && pxwebConnector.Some?)
      || (name == "avfallsdeklarering" && avfallsConnector != null)
    }

    /** `initializeConnectors`: a connector exists exactly when all its variables are set. */
    constructor(env: Env)
      ensures Valid()
      ensures ryddeConnector != null <==> Present(env.ryddeApiKey) && Present(env.ryddeApiUrl)
      ensures pxwebConnector.Some? <==> Present(env.ssbApiUrl)
      ensures avfallsConnector != null <==> Present(env.avfallsApiKey) && Present(env.avfallsApiUrl)
      ensures ryddeConnector != null ==> (fresh(ryddeConnector) &&
        ryddeConnector.config == IntegrationConfig(env.ryddeApiKey, env.ryddeApiUrl.value, 30000, 3, 1000, Some(60)) &&
        ryddeConnector.requestCount == 0 && ryddeConnector.lastRequestTime == 0)
      ensures pxwebConnector.Some? ==>
        pxwebConnector.value.config == IntegrationConfig(None, env.ssbApiUrl.value, 30000, 3, 2000, None)
      ensures avfallsConnector != null ==> (fresh(avfallsConnector) &&
        avfallsConnector.config == IntegrationConfig(env.avfallsApiKey, env.avfallsApiUrl.value, 45000, 3, 3000, None) &&
        avfallsConnector.authToken.None?)
    {
      var rydde: RyddeConnector.RyddeConnector? := null;
      if Present(env.ryddeApiKey) && Present(env.ryddeApiUrl) {
        rydde := new RyddeConnector.RyddeConnector(
          SuppliedConfig(env.ryddeApiKey, env.ryddeApiUrl.value, 30000, 3, 1000, Some(60)));
      }
      var pxweb: Option<PxWebConnector.PxWebConnector> := None;
      if Present(env.ssbApiUrl) {
        pxweb := Some(PxWebConnector.Create(SuppliedConfig(None, env.ssbApiUrl.value, 30000, 3, 2000, None)));
      }
      var avfalls: AvfallsConnector.AvfallsdeklaringConnector? := null;
      if Present(env.avfallsApiKey) && Present(env.avfallsApiUrl) {
        avfalls := new AvfallsConnector.AvfallsdeklaringConnector(
          SuppliedConfig(env.avfallsApiKey, env.avfallsApiUrl.value, 45000, 3, 3000, None));
      }
      ryddeConnector := rydde;
      pxwebConnector := pxweb;
      avfallsConnector := avfalls;
    }

    /** The Rydde leg of `submitToAllSystems`: submit when configured and record the answer. */
    method SubmitRydde(input: CleanupData, occasion: Occasion, before: IntegrationResults)
      returns (after: IntegrationResults, answer: Option<SubmissionResult>)
      requires Valid()
      modifies ryddeConnector
      ensures Valid()
      ensures ryddeConnector == null ==> answer.None? && after == before
      ensures ryddeConnector != null ==>
        var step := RyddeConnector.RateLimitStep(ryddeConnector.config.rate_limit_per_minute,
          old(RyddeConnector.Limiter(ryddeConnector.requestCount, ryddeConnector.lastRequestTime)),
          occasion.now, occasion.lateness);
        && RyddeConnector.Limiter(ryddeConnector.requestCount, ryddeConnector.lastRequestTime) == step.after
        && answer == Some(RyddeConnector.SubmitOutcome(input, step.clock, ryddeConnector.config.retry_delay_ms,
             occasion.suffix, occasion.fault))
        && after == Record(before.(rydde := answer), "Rydde", answer.value)
    {
      after, answer := before, None;
      if ryddeConnector != null {
        var r := ryddeConnector.SubmitCleanup(input, occasion);
        answer := Some(r);
        after := Record(before.(rydde := answer), "Rydde", r);
      }
    }

    /** The Avfallsdeklarering leg of `submitToAllSystems`: submit when configured and record the answer. */
    method SubmitAvfalls(input: CleanupData, occasion: Occasion, numText: real -> string, before: IntegrationResults)
      returns (after: IntegrationResults, answer: Option<SubmissionResult>)
      modifies avfallsConnector
      ensures avfallsConnector == null ==> answer.None? && after == before
      ensures avfallsConnector != null ==>
        var s := AvfallsConnector.SubmitOutcome(avfallsConnector.config.api_key, old(avfallsConnector.authToken),
          input, avfallsConnector.config.retry_delay_ms, occasion, numText);
        && avfallsConnector.authToken == s.token
        && answer == Some(s.result)
        && after == Record(before.(avfallsdeklarering := answer), "Avfallsdeklarering", answer.value)
    {
      after, answer := before, None;
      if avfallsConnector != null {
        var r := avfallsConnector.SubmitWasteDeclaration(input, occasion, numText);
        answer := Some(r);
        after := Record(before.(avfallsdeklarering := answer), "Avfallsdeklarering", r);
      }
    }

    /**
     * `submitToAllSystems`: Rydde, then SSB, then Avfallsdeklarering, each only
     * when configured. `ssbDate` is the cleanup date as the SSB record reads it.
     */
    method SubmitToAllSystems(input: CleanupData, ssbDate: SsbTransformer.CalendarDate, occasions: Occasions,
                              numText: real -> string) returns (results: IntegrationResults)
      requires Valid()
      modifies ryddeConnector, avfallsConnector
      ensures Valid()
      ensures results == Aggregate(
        if ryddeConnector == null then None
        else Some(RyddeConnector.SubmitOutcome(input,
          RyddeConnector.RateLimitStep(ryddeConnector.config.rate_limit_per_minute,
            old(RyddeConnector.Limiter(ryddeConnector.requestCount, ryddeConnector.lastRequestTime)),
            occasions.rydde.now, occasions.rydde.lateness).clock,
          ryddeConnector.config.retry_delay_ms, occasions.rydde.suffix, occasions.rydde.fault)),
        if pxwebConnector.None? then None
        else Some(pxwebConnector.value.SubmitEnvironmentalData(input, ssbDate, occasions.ssb)),
        if avfallsConnector == null then None
        else Some(AvfallsConnector.SubmitOutcome(avfallsConnector.config.api_key, old(avfallsConnector.authToken),
          input, avfallsConnector.config.retry_delay_ms, occasions.avfalls, numText).result))
      ensures ryddeConnector != null ==>
        RyddeConnector.Limiter(ryddeConnector.requestCount, ryddeConnector.lastRequestTime) ==
        RyddeConnector.RateLimitStep(ryddeConnector.config.rate_limit_per_minute,
          old(RyddeConnector.Limiter(ryddeConnector.requestCount, ryddeConnector.lastRequestTime)),
          occasions.rydde.now, occasions.rydde.lateness).after
      ensures avfallsConnector != null ==> (avfallsConnector.authToken ==
        AvfallsConnector.SubmitOutcome(avfallsConnector.config.api_key, old(avfallsConnector.authToken),
          input, avfallsConnector.config.retry_delay_ms, occasions.avfalls, numText).token)
    {
      var start := IntegrationResults(None, None, None, [], 0);
      var afterRydde, rydde := SubmitRydde(input, occasions.rydde, start);
      var afterSsb, ssb := afterRydde, None;
      if pxwebConnector.Some? {
        var r := pxwebConnector.value.SubmitEnvironmentalData(input, ssbDate, occasions.ssb);
        ssb := Some(r);
        afterSsb := Record(afterRydde.(ssb := ssb), "SSB", r);
      }
      var avfalls;
      results, avfalls := SubmitAvfalls(input, occasions.avfalls, numText, afterSsb);
      AggregateSteps(rydde, ssb, avfalls, afterRydde, afterSsb, results);
    }

    /**
     * `checkSystemHealth`: one entry per configured connector. The connectors'
     * health checks are stubs that always report success.
     */
    method CheckSystemHealth() returns (health: map<string, bool>)
      ensures forall name :: name in health <==> IsConfigured(name)
      ensures forall name :: name in health ==> health[name]
    {
      health := map[];
      if ryddeConnector != null {
        health := health["rydde" := true];
      }
      if pxwebConnector.Some? {
        health := health["ssb" := true];
      }
      if avfallsConnector != null {
        health := health["avfallsdeklarering" := true];
      }
    }

    /** `getAvailableConnectors`: the configured systems, once each, in the fan-out order. */
    method GetAvailableConnectors() returns (available: seq<string>)
      ensures forall name :: name in available <==> IsConfigured(name)
      ensures forall i, j :: 0 <= i < j < |available| ==> Rank(available[i]) < Rank(available[j])
    {
      available := [];
      if ryddeConnector != null {
        available := available + ["rydde"];
      }
      if pxwebConnector.Some? {
        available := available + ["ssb"];
      }
      if avfallsConnector != null {
        available := available + ["avfallsdeklarering"];
      }
    }
  }
}
