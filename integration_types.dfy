/**
 * The shapes shared by the three outbound connectors: the internal cleanup
 * record, a waste category, a submission result and a connector configuration
 * (integrations/types/common.ts).
 */
module IntegrationTypes {
  import opened Wrappers
  import JsText

  datatype Coordinates = Coordinates(lat: real, lng: real)

  datatype CleanupLocation = CleanupLocation(
    name: string,
    coordinates: Option<Coordinates>,
    municipality: Option<string>,
    county: Option<string>)

  datatype CleanupInfo = CleanupInfo(
    date: string,
    duration_minutes: Option<int>,
    participants: int,
    organization: Option<string>)

  datatype WasteCategory = WasteCategory(
    wasteType: string,
    subtype: Option<string>,
    weight_kg: Option<real>,
    volume_liters: Option<real>,
    count: Option<int>,
    description: Option<string>)

  datatype WasteSummary = WasteSummary(
    total_weight_kg: Option<real>,
    total_volume_liters: Option<real>,
    categories: seq<WasteCategory>)

  datatype Photos = Photos(
    before: Option<seq<string>>,
    after: Option<seq<string>>,
    waste: Option<seq<string>>)

  /** One cleanup event as the application records it. */
  datatype CleanupData = CleanupData(
    id: string,
    location: CleanupLocation,
    cleanup: CleanupInfo,
    waste: WasteSummary,
    photos: Option<Photos>)

  /** What a connector reports back; `next_retry_at` is in milliseconds since the epoch. */
  datatype SubmissionResult = SubmissionResult(
    success: bool,
    external_id: Option<string>,
    reference_number: Option<string>,
    error: Option<string>,
    retry_recommended: Option<bool>,
    next_retry_at: Option<int>)

  datatype IntegrationConfig = IntegrationConfig(
    api_key: Option<string>,
    api_url: string,
    timeout_ms: int,
    max_retries: int,
    retry_delay_ms: int,
    rate_limit_per_minute: Option<int>)

  /**
   * The keys a caller passes to a connector's constructor; `None` is a key that
   * is not given. `api_url` and the three numbers are required by the type.
   */
  datatype SuppliedConfig = SuppliedConfig(
    api_key: Option<string>,
    api_url: string,
    timeout_ms: int,
    max_retries: int,
    retry_delay_ms: int,
    rate_limit_per_minute: Option<int>)

  /**
   * What the environment supplies to one submission: `Date.now()` on entry,
   * how late a timer fires past its delay, the random suffix of a stub id, and
   * the exception (if any) raised inside the `try` block after any rate
   * limiting and authentication.
   */
  datatype Occasion = Occasion(now: nat, lateness: nat, suffix: string, fault: Option<string>)

  /** A configuration key or environment variable is truthy: present and not empty. */
  predicate Present(s: Option<string>) {
    s.Some? && s.value != ""
  }

  /**
   * `{ ...defaults, ...supplied }`: every key the caller gives replaces the
   * default; a key it leaves out keeps the default.
   */
  function WithDefaults(defaults: IntegrationConfig, supplied: SuppliedConfig): (c: IntegrationConfig)
    ensures c.api_url == supplied.api_url
    ensures c.timeout_ms == supplied.timeout_ms && c.max_retries == supplied.max_retries
    ensures c.retry_delay_ms == supplied.retry_delay_ms
    ensures c.api_key == if supplied.api_key.Some? then supplied.api_key else defaults.api_key
    ensures c.rate_limit_per_minute ==
      if supplied.rate_limit_per_minute.Some? then supplied.rate_limit_per_minute else defaults.rate_limit_per_minute
  {
    IntegrationConfig(
      if supplied.api_key.Some? then supplied.api_key else defaults.api_key,
      supplied.api_url,
      supplied.timeout_ms,
      supplied.max_retries,
      supplied.retry_delay_ms,
      if supplied.rate_limit_per_minute.Some? then supplied.rate_limit_per_minute else defaults.rate_limit_per_minute)
  }

  /** The failure every connector returns when its transformed record fails validation. */
  function ValidationFailure(errors: seq<string>): (r: SubmissionResult)
  {
    SubmissionResult(false, None, None, Some("Data validation failed: " + JsText.Join(errors, ", ")), Some(false), None)
  }

  /** The failure every connector returns when its `try` block raises `fault` at time `now`. */
  function ExceptionFailure(fault: string, now: int, retryDelayMs: int): (r: SubmissionResult)
  {
    SubmissionResult(false, None, None, Some("Submission failed: " + fault), Some(true), Some(now + retryDelayMs))
  }

  /** A successful stub submission under `external_id`, with `prefix` + upper-cased id as reference. */
  function StubSuccess(externalId: string, prefix: string): (r: SubmissionResult)
  {
    SubmissionResult(true, Some(externalId), Some(prefix + JsText.ToUpper(externalId)), None, None, None)
  }

  /** The stub external id `<system>_<Date.now()>_<random suffix>`. */
  function StubId(system: string, now: nat, suffix: string): (id: string)
  {
    system + "_" + JsText.NatToString(now) + "_" + suffix
  }
}
