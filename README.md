# Skjærgårdshelt — a verified model of its core

Skjærgårdshelt is a Norwegian web application in which volunteers post photos
of litter they have picked up along the coast, estimate its weight, earn
points and levels, and in which the collected cleanup reports are forwarded to
three public registers: the Rydde cleanup register, Statistics Norway's PxWeb
interface (SSB) and the Avfallsdeklarering waste-declaration service.

This project models the logic of that core in Dafny and proves what the code
promises about it:

- **Integrations** (`integrations/`): the three transformers that turn a
  cleanup record into each register's format and validate it
  (`AvfallsTransformer`, `SsbTransformer`, `RyddeTransformer`); the three
  connectors (`RyddeConnector` with its per-minute rate limiter,
  `AvfallsConnector` with its authentication token, `PxWebConnector`); the
  `IntegrationManager` that builds the configured connectors and fans a
  report out to them; the shared configuration defaults (`IntegrationTypes`).
- **Libraries** (`lib/`): the weight-estimation endpoint (`EstimateWeight`),
  the offline queue with its sync passes (`OfflineSync`), the cleanup-report
  row and its three register formats (`DataCollection`), image validation,
  resizing and upload naming (`ImageUtils`), and the e-mail check of
  `lib/supabase.ts` (`EmailCheck`).
- **Pages and components**: sign-up and sign-in (`Auth`), the create-post page
  (`CreatePage`), the inline weight estimator (`InlineEstimator`), the
  estimate page (`EstimatePage`), the leaderboard (`Leaderboard`), the profile
  page (`Profile`), the admin data-collection dashboard (`AdminDashboard`) and
  the post card (`PostCard`).
- Two helper modules give JavaScript's semantics where the model needs them:
  `JsNumber` (`Math.round`, `Math.floor`, `n || d` on numbers, sums) and
  `JsText` (`trim`, case mapping, `includes`, `split(c)[0]`,
  `split(c).pop()`); `Wrappers` holds `Option`.

Objects whose fields the source updates become classes with `modifies`
clauses: the Rydde connector's limiter, the Avfallsdeklarering connector's
token, the integration manager, the offline-sync service (its two localStorage
lists and the IndexedDB blob store), the create form, the estimate form and the
post card's like state. Loops become methods with invariants (the admin
dashboard's grouping of activity rows, the sync passes); the resize
computation is a method that reassigns its two results in nested branches. Everything else is functions over datatypes.

JavaScript numbers are `real` (weights, volumes) or `int` (counts,
milliseconds); `undefined`/`null` is `Option.None`; `x || d` is written out
(`OrElse`, `IntOrElse`, `StrOrElse`) so that 0 and "" fall back like in the
source. The clock (`Date.now()`), random suffixes, the rendering of a number as
text (`numText`), the backend's answers (Supabase inserts and uploads, the
auth service), and faults raised inside connectors' `try` blocks are parameters.

## Model

| member | source | states |
|---|---|---|
| IntegrationTypes.WithDefaults | integrations/connectors/rydde/connector.ts:13-22 | a connector's configuration is its defaults overridden by every key the caller supplies |
| RyddeConnector.ConfigDefaults | integrations/connectors/rydde/connector.ts:13-22 | supplied keys win; the rate limit stays 60 a minute when none is supplied |
| AvfallsTransformer.EalCode | integrations/connectors/avfallsdeklarering/transformer.ts:91-106 | the table's EAL code for a known waste type, "20 03 99" otherwise |
| AvfallsTransformer.FractionName | integrations/connectors/avfallsdeklarering/transformer.ts:108-122 | the table's fraction name for a known type, "Blandet avfall" otherwise |
| AvfallsTransformer.TransformWasteFractions | integrations/connectors/avfallsdeklarering/transformer.ts:80-89 | one fraction per category, in the same order |
| AvfallsTransformer.GetValidationErrors | integrations/connectors/avfallsdeklarering/transformer.ts:54-78 | no errors exactly when the record is valid; one message per failed check, with the message named for each check |
| AvfallsTransformer.Transform | integrations/connectors/avfallsdeklarering/transformer.ts:5-42 | the declaration for one cleanup: the organisation or the default entity, a one-day period, the municipality or place name, the fractions, the photos and the benefit note (its properties are the lemmas below) |
| AvfallsTransformer.Validate | integrations/connectors/avfallsdeklarering/transformer.ts:44-52 | the five checks of `validate`: entity name, start date, municipality, at least one fraction, a weight that is not negative |
| AvfallsTransformer.TreatmentMethodOf | integrations/connectors/avfallsdeklarering/transformer.ts:124-132 | "recycling" for the four recyclable types, otherwise "unknown" (TreatmentIff states it both ways) |
| AvfallsTransformer.ContaminationLevelOf | integrations/connectors/avfallsdeklarering/transformer.ts:134-143 | heavily contaminated for fishing gear and cigarette butts, otherwise lightly (ContaminationIff states it both ways) |
| AvfallsTransformer.CollectionPhotos | integrations/connectors/avfallsdeklarering/transformer.ts:35 | `photos?.after \|\| photos?.waste`: the after list whenever present, even empty, else the waste list |
| AvfallsTransformer.TransformShape | integrations/connectors/avfallsdeklarering/transformer.ts:5-42 | non-empty reporting entity, a one-day collection period, fractions aligned with the categories |
| AvfallsTransformer.FractionQuantities | integrations/connectors/avfallsdeklarering/transformer.ts:80-89 | weight defaults to 0; cubic metres are litres / 1000 and only present when litres are |
| AvfallsTransformer.UnknownTypeFallback | integrations/connectors/avfallsdeklarering/transformer.ts:91-143 | an unknown type is "20 03 99", mixed waste, treatment unknown, lightly contaminated |
| AvfallsTransformer.TreatmentIff | integrations/connectors/avfallsdeklarering/transformer.ts:124-132 | recycling exactly for the four recyclable types; energy recovery and disposal never chosen |
| AvfallsTransformer.ContaminationIff | integrations/connectors/avfallsdeklarering/transformer.ts:134-143 | heavily contaminated exactly for fishing gear and cigarette butts; never clean |
| AvfallsTransformer.EalCodesInTable | integrations/connectors/avfallsdeklarering/transformer.ts:91-106 | every EAL code produced is one of the six codes of the table |
| AvfallsTransformer.ValidTransformIff | integrations/connectors/avfallsdeklarering/transformer.ts:44-52 | a transformed cleanup is valid iff its place name and date are non-empty, it has a category and its weight is not negative |
| SsbTransformer.Quarter | integrations/connectors/pxweb/transformer.ts:11 | `Math.ceil(month / 3)` (QuarterRange gives its range) |
| SsbTransformer.QuarterRange | integrations/connectors/pxweb/transformer.ts:10-12 | months 1..12 map to quarters 1..4, three months each |
| SsbTransformer.CategoryCode | integrations/connectors/pxweb/transformer.ts:95-109 | the table's code for a known type, "ANNET_01" otherwise |
| SsbTransformer.CategoryName | integrations/connectors/pxweb/transformer.ts:111-125 | the table's name for a known type, "Annet avfall" otherwise |
| SsbTransformer.Weights | integrations/connectors/pxweb/transformer.ts:127-132 | each category's weight with a missing or zero weight read as 0 |
| SsbTransformer.TransformWasteCategories | integrations/connectors/pxweb/transformer.ts:73-81 | one statistics category per input category, in order |
| SsbTransformer.GetValidationErrors | integrations/connectors/pxweb/transformer.ts:47-71 | no errors exactly when valid; one named message per failed check |
| SsbTransformer.CalculatePercentage | integrations/connectors/pxweb/transformer.ts:127-132 | a category's rounded share of the summed `weight_kg \|\| 0`, and 0 for a zero sum (PercentageBounds bounds it) |
| SsbTransformer.PercentageBounds | integrations/connectors/pxweb/transformer.ts:127-132 | with non-negative weights every share is 0..100 percent, and 0 when the total is 0 |
| SsbTransformer.Transform | integrations/connectors/pxweb/transformer.ts:5-35 | the statistics record for one cleanup (TransformShape states its fields) |
| SsbTransformer.Validate | integrations/connectors/pxweb/transformer.ts:37-45 | the five checks of `validate`: year, municipality, date, at least one participant, at least one category |
| SsbTransformer.TransformShape | integrations/connectors/pxweb/transformer.ts:5-35 | year, month and quarter (Quarter of the month) come from the calendar date of the cleanup date, which the model takes as a parameter; municipality falls back to the place name; date, participants and organisation type are carried over; one category per input category; method "estimated" at 75% confidence |
| SsbTransformer.UnknownTypeFallback | integrations/connectors/pxweb/transformer.ts:95-125 | unknown types go to the "other waste" category |
| SsbTransformer.MapOrganizationType | integrations/connectors/pxweb/transformer.ts:83-93 | the first matching substring test decides; no name means an individual |
| SsbTransformer.OrganizationPrecedence | integrations/connectors/pxweb/transformer.ts:83-93 | each kind is chosen exactly when its test matches and no earlier test does: school, government, business, association, then individual |
| SsbTransformer.GovernmentWithoutSchool | integrations/connectors/pxweb/transformer.ts:87-88 | a name with "kommune" or "stat" and no school word is government |
| SsbTransformer.AbsentOrganizationIsIndividual | integrations/connectors/pxweb/transformer.ts:83-93 | no organisation or an empty name is an individual |
| SsbTransformer.SchoolWinsOverMunicipality | integrations/connectors/pxweb/transformer.ts:83-93 | a name containing "skole" is a school whatever else it contains |
| SsbTransformer.SubstringAsMatches | integrations/connectors/pxweb/transformer.ts:83-93 | the business test is a bare substring test for "as" |
| SsbTransformer.YouthClubIsBusiness | integrations/connectors/pxweb/transformer.ts:83-93 | so "Barnas Ungdomslag" is classed as a business |
| SsbTransformer.ValidTransformIff | integrations/connectors/pxweb/transformer.ts:37-45 | a transformed cleanup is valid exactly under the stated conditions on the input |
| RyddeTransformer.MapWasteType | integrations/connectors/rydde/transformer.ts:79-94 | the table's Rydde category for a known type, "other" otherwise |
| RyddeTransformer.TransformWasteCategories | integrations/connectors/rydde/transformer.ts:68-77 | one Rydde waste type per category, in order |
| RyddeTransformer.GetValidationErrors | integrations/connectors/rydde/transformer.ts:46-66 | no errors exactly when valid; one named message per failed check |
| RyddeTransformer.DurationHours | integrations/connectors/rydde/transformer.ts:19 | the minutes over 60, rounded, for a truthy minute count (DurationRounding states it) |
| RyddeTransformer.DurationRounding | integrations/connectors/rydde/transformer.ts:19 | no duration for absent or zero minutes, else the nearest hour with halves rounding up |
| RyddeTransformer.Transform | integrations/connectors/rydde/transformer.ts:5-34 | the register record for one cleanup (TransformShape states its fields) |
| RyddeTransformer.Validate | integrations/connectors/rydde/transformer.ts:36-44 | the four checks of `validate`: place name, date, at least one participant, at least one waste type |
| RyddeTransformer.TransformShape | integrations/connectors/rydde/transformer.ts:5-34 | coordinates keep their values under the register's names; an absent point stays absent |
| RyddeTransformer.UnknownTypeIsOther | integrations/connectors/rydde/transformer.ts:79-94 | unknown types are "other" |
| RyddeTransformer.PlasticNotInjective | integrations/connectors/rydde/transformer.ts:79-94 | bottles and bags both become "plastic" |
| RyddeTransformer.ValidTransformIff | integrations/connectors/rydde/transformer.ts:36-44 | a transformed cleanup is valid exactly under the stated conditions on the input |
| RyddeConnector.RateLimitStep | integrations/connectors/rydde/connector.ts:144-165 | the limiter never moves the clock backwards and does nothing without a limit |
| RyddeConnector.RateLimitBounds | integrations/connectors/rydde/connector.ts:144-165 | with a positive limit the request count stays between 1 and the limit |
| RyddeConnector.RateLimitReset | integrations/connectors/rydde/connector.ts:151-154 | a window older than a minute restarts at now with count 1 |
| RyddeConnector.RateLimitWait | integrations/connectors/rydde/connector.ts:157-164 | a full window is waited out to its end and the next window starts with this request |
| RyddeConnector.RateLimitCounts | integrations/connectors/rydde/connector.ts:144-165 | a live window that is not full just counts the request |
| RyddeConnector.RateLimitOff | integrations/connectors/rydde/connector.ts:144-147 | an absent or zero limit changes nothing |
| RyddeConnector.SubmitOutcome | integrations/connectors/rydde/connector.ts:74-117 | success exactly when no fault occurs and the transformed record validates |
| RyddeConnector.SubmitOutcomes | integrations/connectors/rydde/connector.ts:74-117 | validation failures are not retryable, faults are retryable after the configured delay, success carries the stub id |
| RyddeConnector.SubmissionStatus | integrations/connectors/rydde/connector.ts:119-142 | always confirmed, with confirmation number "CONF-" and the upper-cased id |
| RyddeConnector.RyddeConnector.constructor | integrations/connectors/rydde/connector.ts:13-22 | configuration is the defaults under the supplied keys; an empty limiter |
| RyddeConnector.RyddeConnector.Authenticate | integrations/connectors/rydde/connector.ts:57-72 | succeeds exactly when an API key is configured |
| RyddeConnector.RyddeConnector.EnforceRateLimit | integrations/connectors/rydde/connector.ts:144-165 | the new limiter state and resume time are those of RateLimitStep; the limiter invariant is kept |
| RyddeConnector.RyddeConnector.SubmitCleanup | integrations/connectors/rydde/connector.ts:74-117 | rate-limits, then answers SubmitOutcome at the resumed clock |
| AvfallsConnector.StubToken | integrations/connectors/avfallsdeklarering/connector.ts:56-72 | the stored token is never empty |
| AvfallsConnector.SubmitOutcome | integrations/connectors/avfallsdeklarering/connector.ts:74-123 | a held token is kept; no token afterwards exactly when none was held and no API key is configured |
| AvfallsConnector.AvfallsdeklaringConnector.constructor | integrations/connectors/avfallsdeklarering/connector.ts:12-18 | configuration from the defaults; no token yet |
| AvfallsConnector.AvfallsdeklaringConnector.Authenticate | integrations/connectors/avfallsdeklarering/connector.ts:56-72 | succeeds and stores a token exactly when an API key is configured, else leaves the token |
| AvfallsConnector.AvfallsdeklaringConnector.SubmitWasteDeclaration | integrations/connectors/avfallsdeklarering/connector.ts:74-123 | the new token and the result are those of SubmitOutcome |
| AvfallsConnector.SubmitOutcomes | integrations/connectors/avfallsdeklarering/connector.ts:74-123 | authentication failure and faults are retryable, validation failure is not, success carries the stub id |
| AvfallsConnector.TokenLatch | integrations/connectors/avfallsdeklarering/connector.ts:77 | once held, the token survives any run of submissions unchanged |
| PxWebConnector.PxWebConnector.Authenticate | integrations/connectors/pxweb/connector.ts:54-58 | always succeeds |
| PxWebConnector.PxWebConnector.SubmitEnvironmentalData | integrations/connectors/pxweb/connector.ts:60-100 | success exactly when no fault occurs and the transformed record validates |
| PxWebConnector.Create | integrations/connectors/pxweb/connector.ts:11-18 | the supplied keys over the defaults |
| PxWebConnector.SubmitOutcomes | integrations/connectors/pxweb/connector.ts:60-100 | validation failures not retryable, faults retryable, success carries the stub id |
| IntegrationManager.Rank | integrations/integration-manager.ts:58-116 | the fan-out order Rydde, SSB, Avfallsdeklarering |
| IntegrationManager.Record | integrations/integration-manager.ts:58-116 | a success adds one submission; a failure adds one error naming the system |
| IntegrationManager.Aggregate | integrations/integration-manager.ts:58-116 | the results hold each configured connector's answer |
| IntegrationManager.AggregateCounts | integrations/integration-manager.ts:58-116 | submissions plus errors equal the number of configured connectors |
| IntegrationManager.AggregateErrorOrder | integrations/integration-manager.ts:58-116 | errors carry their system's name, in fan-out order |
| IntegrationManager.IntegrationManager.constructor | integrations/integration-manager.ts:23-56 | a connector exists exactly when all its environment variables are set |
| IntegrationManager.AggregateSteps | integrations/integration-manager.ts:58-116 | recording the three answers one after another gives Aggregate |
| IntegrationManager.IntegrationManager.SubmitRydde | integrations/integration-manager.ts:64-78 | without a connector nothing changes; with one, the limiter advances as the rate limit says and the answer is recorded |
| IntegrationManager.IntegrationManager.SubmitAvfalls | integrations/integration-manager.ts:96-110 | without a connector nothing changes; with one, the token and answer are those of SubmitOutcome and the answer is recorded |
| IntegrationManager.IntegrationManager.SubmitToAllSystems | integrations/integration-manager.ts:58-116 | the results are Aggregate of each configured connector's answer; connector state advances as each submission says |
| IntegrationManager.IntegrationManager.CheckSystemHealth | integrations/integration-manager.ts:118-134 | one entry per configured connector, each healthy |
| IntegrationManager.IntegrationManager.GetAvailableConnectors | integrations/integration-manager.ts:136-144 | exactly the configured systems, once each, in fan-out order |
| EstimateWeight.ReferenceWeight | app/api/estimateWeight/route.ts:84-92 | the table's weight for a known reference object, 0.1 otherwise |
| EstimateWeight.RoundToHundredths | app/api/estimateWeight/route.ts:114 | a whole number of hundredths, within half a hundredth of the raw weight |
| EstimateWeight.ClampConfidence | app/api/estimateWeight/route.ts:115 | always within 20..95 and unchanged inside that range |
| EstimateWeight.RawEstimate | app/api/estimateWeight/route.ts:27-111 | the weight and confidence each method's branch computes, or the branch's bad request (the formula lemmas below state each branch) |
| EstimateWeight.Post | app/api/estimateWeight/route.ts:27-115 | estimates have confidence 20..95; a bad request exactly when a branch rejects the request |
| EstimateWeight.InvalidMethod | app/api/estimateWeight/route.ts:109-110 | "Invalid estimation method" exactly for a method other than bag, volume and photo |
| EstimateWeight.BagNotFound | app/api/estimateWeight/route.ts:31-41 | a bag estimate fails exactly when the given size has no row |
| EstimateWeight.BagFormula | app/api/estimateWeight/route.ts:31-62 | bag weight × count × 0.7, scaled by the density ratio to mixed trash when known |
| EstimateWeight.VolumeFormula | app/api/estimateWeight/route.ts:64-79 | length × width × height in cubic metres × the density in kg/m³ × 0.6, with mixed trash's density when unknown or zero |
| EstimateWeight.PhotoFormula | app/api/estimateWeight/route.ts:81-107 | ten reference weights read as litres at 50% packing, confidence 40 |
| EstimateWeight.MissingInputs | app/api/estimateWeight/route.ts:27-28 | a known method with a missing input estimates 0 kg at 50% |
| EstimateWeight.ClampIsIdentity | app/api/estimateWeight/route.ts:115 | every branch's confidence is already within the clamp |
| OfflineSync.Eligible | lib/offline-sync.ts:116 | a record is tried when it is unsynced and has fewer than three tries |
| OfflineSync.Step | lib/offline-sync.ts:121-146 | one more record: skipped, synced, or with one more try and an error line |
| OfflineSync.Pass | lib/offline-sync.ts:114-197 | a pass keeps the queue's length; synced plus errors equals attempts |
| OfflineSync.PassRecords | lib/offline-sync.ts:114-197 | skipped records are unchanged; tried records become synced or gain one retry |
| OfflineSync.PassCounts | lib/offline-sync.ts:114-197 | a pass tries exactly the eligible records, and its synced count is the number newly synced |
| OfflineSync.PassKeepsRetryBound | lib/offline-sync.ts:31 | no retry count rises above three |
| OfflineSync.PassSkipsFinished | lib/offline-sync.ts:118-120 | synced and exhausted records are never tried again |
| OfflineSync.Unsynced | lib/offline-sync.ts:327-333 | the filter keeps at most the records it had |
| OfflineSync.UnsyncedIdempotent | lib/offline-sync.ts:327-333 | clearing twice is clearing once |
| OfflineSync.UnsyncedMembers | lib/offline-sync.ts:327-333 | the kept records are exactly the unsynced ones |
| OfflineSync.ClearKeepsPending | lib/offline-sync.ts:318-333 | clearing does not change the pending count |
| OfflineSync.ExhaustedStillPending | lib/offline-sync.ts:318-322 | a record out of retries still counts as pending |
| OfflineSync.SavedImagesAsWritten | lib/offline-sync.ts:66-77 | the list written by saveImageOffline as written: two entries longer |
| OfflineSync.DuplicateImageMetadata | lib/offline-sync.ts:66-77 | as written, one saved image raises the pending count by two; the corrected list by one |
| OfflineSync.SavedImages | lib/offline-sync.ts:57-83 | the old list plus the new untried image, once (corrected; see Findings) |
| OfflineSync.ImageAttempt | lib/offline-sync.ts:159-197 | an image without a stored blob fails with the blob-not-found message; otherwise the upload decides |
| OfflineSync.OfflineSyncService.constructor | lib/offline-sync.ts:36-83 | empty lists and an empty blob store |
| OfflineSync.OfflineSyncService.SavePostOffline | lib/offline-sync.ts:36-52 | the post is appended untried; nothing else changes |
| OfflineSync.OfflineSyncService.SaveImageOffline | lib/offline-sync.ts:57-83 | a failed IndexedDB write changes nothing; otherwise the blob is stored and the list is SavedImages (corrected; see Findings) |
| OfflineSync.RunPass | lib/offline-sync.ts:114-197 | the sync loop's records, synced count and errors are those of one Pass |
| OfflineSync.OfflineSyncService.SyncOfflinePosts | lib/offline-sync.ts:114-154 | the new list, synced count and errors are those of one Pass |
| OfflineSync.OfflineSyncService.SyncOfflineImages | lib/offline-sync.ts:159-197 | the new list, synced count and errors are those of one Pass with ImageAttempt |
| OfflineSync.OfflineSyncService.SyncOfflineData | lib/offline-sync.ts:88-109 | images first, then posts; counts add up and image errors precede post errors |
| OfflineSync.OfflineSyncService.PendingSyncCount | lib/offline-sync.ts:318-322 | the number of unsynced posts and images |
| OfflineSync.OfflineSyncService.ClearSyncedData | lib/offline-sync.ts:327-333 | both lists keep only their unsynced records, in order |
| DataCollection.StoreCategory | lib/data-collection.ts:59-66 | one category as stored, its amounts defaulting to 0 (StoredCategoryDefaults states it) |
| DataCollection.StoreCategories | lib/data-collection.ts:59-66 | one stored category per category, in order |
| DataCollection.PointText | lib/data-collection.ts:75 | `POINT(<lng> <lat>)`, or null without coordinates (PointRoundTrip and AbsentPoint state it) |
| DataCollection.ParsePoint | lib/data-collection.ts:75 | what it reads back reassembles the point text |
| DataCollection.PointRoundTrip | lib/data-collection.ts:75 | the point text reads back as longitude then latitude |
| DataCollection.AbsentPoint | lib/data-collection.ts:75 | no coordinates give no point |
| DataCollection.StoredCategoryDefaults | lib/data-collection.ts:59-66 | type, subtype and unit kept; missing amounts stored as 0 |
| DataCollection.VolunteerDefault | lib/data-collection.ts:78 | at least one volunteer; the same count in the Rydde and SSB formats |
| DataCollection.PrepareReport | lib/data-collection.ts:68-95 | the row inserted into the report queue (the lemmas around it state its fields) |
| DataCollection.PhotoDefaults | lib/data-collection.ts:87-89 | absent photo lists are stored empty, present ones as given |
| DataCollection.FormatForRydde | lib/data-collection.ts:200-219 | the Rydde payload (VolunteerDefault and RyddeFormatCategories state it) |
| DataCollection.FormatForSsb | lib/data-collection.ts:224-232 | the SSB payload (VolunteerDefault and SsbDatePart state it) |
| DataCollection.FormatForMiljodirektoratet | lib/data-collection.ts:237-250 | the environment agency payload (MiljoFormatTypes states it) |
| DataCollection.SsbDatePart | lib/data-collection.ts:224-232 | the SSB date is the date part of the ISO text before "T" |
| DataCollection.RyddeFormatCategories | lib/data-collection.ts:200-219 | the Rydde format keeps the categories in order, weights defaulting to 0 |
| DataCollection.MiljoFormatTypes | lib/data-collection.ts:237-250 | the agency format lists the types in order and a coastal area |
| ImageUtils.ValidateImageFile | lib/image-utils.ts:115-128 | no message exactly for an allowed type of at most 10 MiB |
| ImageUtils.ValidateImageFileIff | lib/image-utils.ts:115-128 | valid iff allowed type and size within 10 MiB; the type message wins |
| ImageUtils.ResizeDimensions | lib/image-utils.ts:31-43 | keeps the aspect ratio, never enlarges, leaves small pictures alone, fits a square bound |
| ImageUtils.UploadFileName | lib/image-utils.ts:133-134 | the user id, a "/", the timestamp, a "." and the extension |
| ImageUtils.UploadKeepsExtension | lib/image-utils.ts:133-134 | the path keeps the text after the file name's last "." |
| EmailCheck.IsValidEmail | lib/supabase.ts:216-219 | no white space, a local part before a single "@", a domain with an inner dot |
| EmailCheck.ValidAtSplit | lib/supabase.ts:216-219 | split at the first "@", an address passes exactly when the local part is non-empty, there is no white space, and the domain has no "@" and an inner dot |
| EmailCheck.CheckedMatches | lib/supabase.ts:217 | every accepted address matches the regular expression |
| EmailCheck.MatchesChecked | lib/supabase.ts:217 | every matching address is accepted |
| EmailCheck.IsValidEmailIff | lib/supabase.ts:216-219 | the check accepts exactly what the regular expression matches |
| EmailCheck.ValidHasOneAt | lib/supabase.ts:217 | a valid address has exactly one "@", not at the start |
| EmailCheck.AcceptsOrdinary | lib/supabase.ts:217 | an ordinary address is accepted |
| EmailCheck.RejectsTrailingDot | lib/supabase.ts:217 | a domain whose only dot is its last character is rejected, whatever the local part |
| EmailCheck.RejectsLeadingDot | lib/supabase.ts:217 | a domain whose only dot is its first character is rejected, whatever the local part |
| EmailCheck.RejectsEmptyLocal | lib/supabase.ts:217 | an address starting with its "@" is rejected |
| EmailCheck.RejectsWhitespace | lib/supabase.ts:217 | white space in the address is rejected |
| Auth.CleanEmail | contexts/auth-context.tsx:55 | trimmed and lower-cased: no longer, no white space at either end |
| Auth.CleanEmailIdempotent | contexts/auth-context.tsx:55 | cleaning twice is cleaning once |
| Auth.SignUpGuard | contexts/auth-context.tsx:46-52 | passes exactly when all fields are non-empty and the password has at least 6 characters |
| Auth.SignUpRequestFor | contexts/auth-context.tsx:55-63 | cleaned e-mail; trimmed user name as both user name and full name |
| Auth.Settle | contexts/auth-context.tsx:75-78 | an error means no user |
| Auth.SignUp | contexts/auth-context.tsx:41-79 | a guard failure is the answer; otherwise the backend's settled reply |
| Auth.SignIn | contexts/auth-context.tsx:81-104 | the backend's settled reply to the cleaned e-mail |
| Auth.GuardPrecedesBackend | contexts/auth-context.tsx:46-52 | a failed guard decides the answer whatever the backend says |
| Auth.ShortPasswordAfterEmptiness | contexts/auth-context.tsx:46-52 | the password message only when no field is empty |
| Auth.SignInNormalises | contexts/auth-context.tsx:86 | an address and its cleaned form sign in alike |
| Auth.BlankUsernamePasses | contexts/auth-context.tsx:46-63 | a user name of spaces passes and reaches the backend empty |
| CreatePage.Points | app/create/page.tsx:232 | 5..50 points; 5 without a weight |
| CreatePage.PointsBetweenCaps | app/create/page.tsx:232 | between the caps, two points per whole half-kilo |
| CreatePage.PointsMonotone | app/create/page.tsx:232 | a heavier post never earns fewer points |
| CreatePage.FinalWeight | app/create/page.tsx:190 | the estimator's weight when used, else the manual one; 0 gives none |
| CreatePage.WasteCategories | app/create/page.tsx:202-206 | one category per chosen type, in order, each with an equal share |
| CreatePage.SplitAddsUp | app/create/page.tsx:202-206 | the stored shares add up to the post's weight, or 0 |
| CreatePage.Remove | app/create/page.tsx:451-453 | the list without the type; an absent type leaves it as it is |
| CreatePage.RemoveAppend | app/create/page.tsx:451-453 | removing from a joined list removes from each part, so the kept types stay in order with their repeats |
| CreatePage.Toggled | app/create/page.tsx:451-453 | a chosen type is removed; a type not chosen is appended at the end |
| CreatePage.ToggleTwice | app/create/page.tsx:451-453 | choosing then un-choosing a type restores the list |
| CreatePage.ToggleDistinct | app/create/page.tsx:451-453 | toggling keeps the list free of repeats |
| CreatePage.CreateForm.constructor | app/create/page.tsx:451-453 | an empty form |
| CreatePage.CreateForm.ToggleWasteType | app/create/page.tsx:451-453 | the new list is Toggled of the old; nothing else changes |
| CreatePage.CreateForm.CanSubmit | app/create/page.tsx:660 | the submit button is enabled: an image, a caption, a place, a chosen type, and not submitting |
| CreatePage.ToggleAndSubmit | app/create/page.tsx:660 | a first type enables submit on a complete form; removing the only type disables it |
| CreatePage.OnlineRow | app/create/page.tsx:232 | the row carries the post's id, image and weight, and the points of that weight |
| CreatePage.Offline | app/create/page.tsx:269-282 | the queued post and its image under "img_" id named "<id>.webp" |
| CreatePage.OnlineOfflineSamePoints | app/create/page.tsx:232-274 | online and offline a post earns the same points |
| CreatePage.OfflineImageNaming | app/create/page.tsx:280-282 | the image's id and file name differ from the post's id |
| CreatePage.OfflineImageExtension | app/create/page.tsx:280-282 | the image name's extension is "webp" |
| InlineEstimator.CollapseWhitespace | components/inline-weight-estimator.tsx:63 | every maximal run of white space becomes one "_" (CollapseShape, CollapsePrefix and CollapseJoins state it) |
| InlineEstimator.CollapseShape | components/inline-weight-estimator.tsx:63 | the replaced text has no white space, is no longer than the input, and text without white space is unchanged |
| InlineEstimator.CollapsePrefix | components/inline-weight-estimator.tsx:63 | a leading run without white space is kept as it is |
| InlineEstimator.CollapseJoins | components/inline-weight-estimator.tsx:63 | a gap between two words becomes a single "_" |
| InlineEstimator.WasteTypeFor | components/inline-weight-estimator.tsx:63 | the first chosen type normalised, or "mixed_trash" |
| InlineEstimator.WasteTypeSample | components/inline-weight-estimator.tsx:63 | "Plastic Bottles" first gives "plastic_bottles" |
| InlineEstimator.RequestBody | components/inline-weight-estimator.tsx:65-71 | each method's fields are sent exactly for that method |
| InlineEstimator.BagCountInput | components/inline-weight-estimator.tsx:167 | an unparsable or zero count becomes 1 |
| InlineEstimator.EstimateEnabled | components/inline-weight-estimator.tsx:238-240 | the estimate button is enabled: not loading, and the bag size or reference object chosen when the method needs it |
| InlineEstimator.EnabledBagReachesLookup | components/inline-weight-estimator.tsx:238-240 | an enabled bag estimate reaches the size lookup and fails only for an unknown size |
| InlineEstimator.EnabledPhotoUsesFormula | components/inline-weight-estimator.tsx:238-240 | an enabled photo estimate uses the photo formula at 40% |
| InlineEstimator.DefaultBagSize | components/inline-weight-estimator.tsx:48-53 | the first row's size, if any |
| InlineEstimator.DefaultIsLightest | components/inline-weight-estimator.tsx:48-53 | on rows sorted by weight the default is a lightest bag |
| InlineEstimator.UseThisWeight | components/inline-weight-estimator.tsx:90-94 | reports the current estimate's weight and confidence, with the method, exactly when there is one |
| EstimatePage.Matches | app/estimate/page.tsx:76-80 | the lower-cased name or code contains the lower-cased term |
| EstimatePage.FilterCategories | app/estimate/page.tsx:76-80 | exactly the matching categories, never more than the input |
| EstimatePage.FilterAppend | app/estimate/page.tsx:76-80 | filtering a joined list filters each part, so the kept categories stay in order with their repeats |
| EstimatePage.EmptySearchKeepsAll | app/estimate/page.tsx:76-80 | an empty search keeps every category |
| EstimatePage.SearchIgnoresCase | app/estimate/page.tsx:76-80 | the search ignores the term's case |
| EstimatePage.Find | app/estimate/page.tsx:82 | the first category with the code, or none when no category has it |
| EstimatePage.OverrideInput | app/estimate/page.tsx:358 | an unparsable or zero entry clears the override |
| EstimatePage.PickupRowFor | app/estimate/page.tsx:115-143 | a truthy override wins; only the method's own fields are set |
| EstimatePage.EstimateForm.constructor | app/estimate/page.tsx:115-143 | an empty form with the page's defaults |
| EstimatePage.EstimateForm.EstimateRequest | app/estimate/page.tsx:82-96 | a request exactly when a listed category is selected, carrying the form's fields |
| EstimatePage.EstimateForm.CanSave | app/estimate/page.tsx:115 | `saveEstimation` passes its guard: a user, a result and a listed category |
| EstimatePage.EstimateForm.SaveEstimation | app/estimate/page.tsx:115-143 | guard failure changes nothing; a saved estimate clears result, override and selection |
| Leaderboard.TotalWeight | app/leaderboard/page.tsx:67 | the sum of `estimated_weight \|\| 0` over the posts (TotalWeightAppend and TotalWeightBounds state it) |
| Leaderboard.TotalWeightAppend | app/leaderboard/page.tsx:67 | a post adds its weight, or nothing |
| Leaderboard.TotalWeightBounds | app/leaderboard/page.tsx:67 | non-negative weights give a total at least each post's weight |
| Leaderboard.Process | app/leaderboard/page.tsx:59-68 | a profile's row keeps id, points and level, counts its posts and sums their weights |
| Leaderboard.ProcessAll | app/leaderboard/page.tsx:59-68 | one row per profile, in order |
| Leaderboard.Insert | app/leaderboard/page.tsx:78-87 | the rows plus one, as a multiset |
| Leaderboard.InsertSorted | app/leaderboard/page.tsx:78-87 | inserting into a sorted list keeps it sorted |
| Leaderboard.SortedCons | app/leaderboard/page.tsx:78-87 | a row whose key is at least the first key of a sorted list can go in front |
| Leaderboard.SortBy | app/leaderboard/page.tsx:78-87 | as many rows as it was given |
| Leaderboard.SortByCorrect | app/leaderboard/page.tsx:78-87 | sorted by the tab's key, largest first, and a permutation |
| Leaderboard.SortedUsers | app/leaderboard/page.tsx:78-87 | the points tab keeps the server's order |
| Leaderboard.SortedUsersCorrect | app/leaderboard/page.tsx:78-87 | weight and post tabs sorted largest first; every tab holds exactly the fetched rows |
| Leaderboard.RankOf | app/leaderboard/page.tsx:133 | the 1-based index of the user's first row, or 0 exactly when absent |
| Leaderboard.RankIconOf | app/leaderboard/page.tsx:89-100 | icons for places 1 to 3, the number otherwise |
| Leaderboard.LevelInfoOf | app/leaderboard/page.tsx:102-111 | the level's name and colour, level 1's otherwise |
| Leaderboard.LevelNamesDistinct | app/leaderboard/page.tsx:102-111 | distinct levels have distinct names |
| Leaderboard.IsCurrentUserAsWritten | app/leaderboard/page.tsx:267-269 | always true: the row is compared with itself |
| Leaderboard.EveryRowHighlighted | app/leaderboard/page.tsx:267-269 | as written, every row is highlighted for anyone |
| Leaderboard.IsCurrentUser | app/leaderboard/page.tsx:267-269 | a row is highlighted exactly when it is the signed-in user's |
| Leaderboard.HighlightMatchesRank | app/leaderboard/page.tsx:133-269 | with distinct ids exactly the row at the user's rank is highlighted |
| Leaderboard.ViewRow | app/leaderboard/page.tsx:89-269 | rank icon of place i+1, the level badge and the corrected highlight |
| Profile.LevelInfoOf | app/profile/page.tsx:114-123 | the level's entry, level 1's otherwise |
| Profile.LevelLadder | app/profile/page.tsx:114-123 | thresholds rise with the level; the top level has none; names agree with the leaderboard |
| Profile.Progress | app/profile/page.tsx:210-222 | a width exactly when there is a next level: the points' percentage of it, at most 100 |
| Profile.ProgressDefined | app/profile/page.tsx:210-222 | every level's bar is well defined |
| Profile.Weights | app/profile/page.tsx:125-127 | each post's weight, in order |
| Profile.TotalWeight | app/profile/page.tsx:125-127 | the leaderboard's sum over the posts' weights |
| Profile.TotalWeightDelete | app/profile/page.tsx:101-127 | deleting a post never raises the total |
| Profile.UniqueLocations | app/profile/page.tsx:129-132 | counts each truthy location once |
| Profile.UniqueLocationsIsSetSize | app/profile/page.tsx:129-132 | the count is the size of the set of truthy locations |
| Profile.AveragePoints | app/profile/page.tsx:299 | points per post rounded half up, 0 without posts |
| Profile.DeletePost | app/profile/page.tsx:101-103 | exactly the posts without that id, never more than before |
| Profile.DeleteAppend | app/profile/page.tsx:101-103 | deleting from a joined list deletes from each part, so the kept posts stay in order with their repeats |
| Profile.DeleteAbsent | app/profile/page.tsx:101-103 | deleting an absent id changes nothing |
| Profile.DeleteIdempotent | app/profile/page.tsx:101-103 | deleting twice is deleting once |
| AdminDashboard.Occurrences | app/admin/data-collection/page.tsx:74-84 | the number of rows of a type, zero exactly when the type does not occur |
| AdminDashboard.GroupedEntries | app/admin/data-collection/page.tsx:74-84 | the entries of a finished grouping have distinct types, cover exactly the rows' types, count each exactly, and sum to the number of rows |
| AdminDashboard.GroupActivities | app/admin/data-collection/page.tsx:74-84 | one entry per distinct type with its exact count; the counts sum to the number of rows |
| AdminDashboard.Totals | app/admin/data-collection/page.tsx:74-84 | the shown counts sum to the grouped rows |
| AdminDashboard.ReportWeights | app/admin/data-collection/page.tsx:120 | each report's weight, missing as 0 |
| AdminDashboard.ReportVolunteers | app/admin/data-collection/page.tsx:121 | each report's volunteers, missing as 0 |
| AdminDashboard.Summarize | app/admin/data-collection/page.tsx:119-121 | the number of reports and the sums of weight and volunteers |
| AdminDashboard.SummarizeAppend | app/admin/data-collection/page.tsx:119-121 | a new report adds its own weight and volunteers |
| AdminDashboard.BadgesOf | app/admin/data-collection/page.tsx:218-229 | the first three types, then "+k more" exactly when there are more |
| AdminDashboard.AveragePerCleanup | app/admin/data-collection/page.tsx:264 | a finite average exactly when there are cleanups |
| PostCard.InitialLikes | components/post-card.tsx:38-39 | liked exactly when a like is the user's; the count is all likes |
| PostCard.Clicked | components/post-card.tsx:65-89 | a click flips the like and moves the count by one |
| PostCard.ClickKeepsOthers | components/post-card.tsx:65-89 | clicks never change others' likes; two clicks restore the state |
| PostCard.InitialOthers | components/post-card.tsx:38-39 | the count never falls below the others' likes |
| PostCard.PostCard.constructor | components/post-card.tsx:38-39 | the state is InitialLikes |
| PostCard.PostCard.HandleLike | components/post-card.tsx:65-89 | without a user nothing changes; with one the state is Clicked, whatever the backend replies, since its reply is not read |
| PostCard.DeleteProceeds | components/post-card.tsx:91-92 | only a signed-in owner with a callback who confirms deletes |
| PostCard.BylineOf | components/post-card.tsx:60-63 | "Anonym bruker" without a user name, the user name without a full name, level 1 without a level |
| PostCard.BylineLevel | components/post-card.tsx:109-118 | the badge is the leaderboard's level table |
| PostCard.ShareTitle | components/post-card.tsx:124 | the title ends with the user name |
| PostCard.ShareDescription | components/post-card.tsx:125 | the shared text: the user name, the weight or 0, " fra <place>" when there is one, then the tags |
| PostCard.ShareDescriptionLocation | components/post-card.tsx:125 | a location adds " fra <location>" before the tags |
| PostCard.ShareWeightDefault | components/post-card.tsx:125 | a missing weight is shared as 0 |

## Left out

- Network, fetch, Supabase, localStorage, IndexedDB, timers and React rendering are not modelled as such; their answers are parameters or state fields.
- JavaScript prototype keys in lookup tables (`mapping["constructor"]`) are not modelled; the tables are maps.
- Case mapping covers ASCII and Latin-1 letters only; full Unicode case mapping is not modelled.
- NaN, infinities and IEEE rounding are not modelled: numbers are exact reals and integers.
- String lengths count characters, not UTF-16 code units.
- Number-to-text rendering (`String(n)`, `toFixed`) is a parameter `numText`; the leaderboard's `getTabValue` formatting is not modelled.
- Dates: `toISOString`, `toLocaleDateString` and `new Date(...)` are parameters (the ISO text and the calendar date).
- The integration manager's `catch` blocks around the connector calls are not modelled: the connectors catch their own faults, so those blocks cannot be reached.
- Connector `healthCheck`, `getDeclarationStatus` and `queryStatistics` are stubs that always succeed; the manager's health map is modelled as all true.
- RyddeConnector.EnforceRateLimit: the `setTimeout` wait is not performed; the clock is ideal and `lateness` stands for the delay past the window's end.
- Faults inside the connectors' `try` blocks are modelled only after rate limiting and authentication, as a `fault` parameter.
- createCleanupReport's inserts, logUserActivity, getLocationIntelligence, getReportsForSubmission and markReportSubmitted are I/O without logic beyond the row, which is modelled.
- The offline queue's localStorage quota errors, JSON parse errors and syncOfflineData's outer `catch` are not modelled.
- The image blob of an offline post is not modelled, only its metadata and whether it is stored.
- ImageUtils.ResizeDimensions: the canvas drawing and JPEG encoding of `compressImage` are left out; the maxima are required to be non-negative.
- Profile.Progress requires a positive next-level threshold, which every level of the table has.
- Leaderboard.SortBy: it is a stable sort; stability is not stated as a lemma.
- AdminDashboard.GroupActivities: `Object.entries` lists integer-like keys first in numeric order; the model lists all keys in first-seen order.
- PostCard.PostCard.HandleLike: an exception thrown by the client library itself (rather than an error it returns) would reach the `catch` and leave the state as it was; that path is not modelled.
- PostCard.PostCard.HandleLike: clicks are modelled one after another. In the source a click while the previous request is still pending reads the stale `isLiked` and repeats that branch, so two quick clicks on an unliked post insert twice and raise the count by 2; ClickKeepsOthers's "two clicks restore the state" holds only for clicks that do not overlap.
- EstimateWeight.Post: the request body arrives already parsed as an `EstimationRequest`; the 500 "Internal server error" answer for a body that does not parse (or any other thrown error) is not modelled.
- The estimate page's fetch errors, the create page's wiring of the estimator callbacks, and signOut are not modelled.

## Findings

| source | as written | input that shows it | evidently intended | confidence | as-written member | corrected member |
|---|---|---|---|---|---|---|
| lib/offline-sync.ts:66-77 | saveImageOffline pushes the image's metadata onto the list, then pushes it again before writing | saving one image to an empty list gives two entries with the same id | the metadata is added once | high, not executed | OfflineSync.SavedImagesAsWritten | OfflineSync.SavedImages |
| app/leaderboard/page.tsx:267-269 | the highlight test `user.id === user?.id` compares the row variable with itself, since `user` shadows the signed-in user | any list with any signed-in user: every row is highlighted | highlight only the signed-in user's row | high, not executed | Leaderboard.IsCurrentUserAsWritten | Leaderboard.IsCurrentUser |
