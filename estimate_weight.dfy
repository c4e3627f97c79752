/**
 * The weight-estimation endpoint (app/api/estimateWeight/route.ts): from a
 * bag count, a measured volume or a reference object in a photo, it estimates
 * the weight of collected waste and a confidence percentage. The two database
 * tables it reads are given as lookups.
 */
module EstimateWeight {
  import opened Wrappers
  import JsNumber

  /** The JSON body (its `method` key is `estimationMethod` here); absent keys are `None`. */
  datatype EstimationRequest = EstimationRequest(
    estimationMethod: string,
    wasteType: string,
    bagSize: Option<string>,
    bagCount: Option<real>,
    volumeLength: Option<real>,
    volumeWidth: Option<real>,
    volumeHeight: Option<real>,
    photoUrl: Option<string>,
    referenceObject: Option<string>)

  /**
   * The database as the endpoint sees it: the `avg_weight_kg` of the
   * `bag_weights` row for a bag size, and the `density_kg_m3` of the
   * `density_factors` row for a waste type; `None` when there is no such row.
   */
  datatype Tables = Tables(bagWeight: string -> Option<real>, density: string -> Option<real>)

  datatype EstimationResponse =
    | Estimate(weightKg: real, confidencePct: int)
    | BadRequest(error: string)

  /** The density of mixed trash in kg/m³, used when a waste type has none. */
  const MixedTrashDensity := 138.0
  const BagFillRate := 0.7
  const VolumePacking := 0.6
  const PhotoPacking := 0.5
  const DefaultReferenceWeight := 0.1

  /** Typical weights in kg of the objects a photo can be scaled by. */
  const ReferenceWeights: map<string, real> := map[
    "soda_can" := 0.015,
    "water_bottle" := 0.5,
    "shoe" := 0.4,
    "hand" := 0.4,
    "coin" := 0.005]

  function Present(s: Option<string>): bool {
    s.Some? && s.value != ""
  }

  /** `referenceWeights[referenceObject] || 0.1`. */
  function ReferenceWeight(referenceObject: string): (w: real)
    ensures referenceObject in ReferenceWeights ==> w == ReferenceWeights[referenceObject]
    ensures referenceObject !in ReferenceWeights ==> w == DefaultReferenceWeight
  {
    if referenceObject in ReferenceWeights && ReferenceWeights[referenceObject] != 0.0
    then ReferenceWeights[referenceObject] else DefaultReferenceWeight
  }

  /** The weight and confidence a branch computes, before rounding and clamping. */
  function RawEstimate(req: EstimationRequest, tables: Tables): (r: EstimationResponse)
  {
    if req.estimationMethod == "bag" then
      if Present(req.bagSize) && JsNumber.Truthy(req.bagCount) then
        var bag := tables.bagWeight(req.bagSize.value);
        if bag.None? then BadRequest("Bag size not found")
        else
          var density := tables.density(req.wasteType);
          if density.None? then Estimate(bag.value * req.bagCount.value * BagFillRate, 60)
          else Estimate(bag.value * req.bagCount.value * (density.value / MixedTrashDensity) * BagFillRate, 75)
      else Estimate(0.0, 50)
    else if req.estimationMethod == "volume" then
      if JsNumber.Truthy(req.volumeLength) && JsNumber.Truthy(req.volumeWidth) && JsNumber.Truthy(req.volumeHeight) then
        var volumeM3 := req.volumeLength.value * req.volumeWidth.value * req.volumeHeight.value;
        var row := tables.density(req.wasteType);
        var density := JsNumber.OrElse(row, MixedTrashDensity);
        Estimate(volumeM3 * density * VolumePacking, if row.Some? then 70 else 50)
      else Estimate(0.0, 50)
    else if req.estimationMethod == "photo" then
      if Present(req.photoUrl) && Present(req.referenceObject) then
        var estimatedVolume := ReferenceWeight(req.referenceObject.value) * 10.0;
        var density := JsNumber.OrElse(tables.density(req.wasteType), MixedTrashDensity);
        Estimate((estimatedVolume / 1000.0) * density * PhotoPacking, 40)
      else Estimate(0.0, 50)
    else BadRequest("Invalid estimation method")
  }

  /** `Math.round(w * 100) / 100`: the nearest hundredth, halves rounding up. */
  function RoundToHundredths(w: real): (r: real)
    ensures w - 0.005 < r <= w + 0.005
    ensures (r * 100.0).Floor as real == r * 100.0
  {
    JsNumber.Round(w * 100.0) as real / 100.0
  }

  /** `Math.max(20, Math.min(95, c))`. */
  function ClampConfidence(c: int): (r: int)
    ensures 20 <= r <= 95
    ensures 20 <= c <= 95 ==> r == c
  {
    if c > 95 then 95 else if c < 20 then 20 else c
  }

  /** The response of `POST`. */
  function Post(req: EstimationRequest, tables: Tables): (r: EstimationResponse)
    ensures r.Estimate? ==> 20 <= r.confidencePct <= 95
    ensures r.BadRequest? <==> RawEstimate(req, tables).BadRequest?
  {
    match RawEstimate(req, tables)
    case BadRequest(e) => BadRequest(e)
    case Estimate(w, c) => Estimate(RoundToHundredths(w), ClampConfidence(c))
  }

  /** Only the three known methods are served; anything else is a bad request. */
  lemma InvalidMethod(req: EstimationRequest, tables: Tables)
    ensures Post(req, tables) == BadRequest("Invalid estimation method") <==>
      req.estimationMethod != "bag" && req.estimationMethod != "volume" && req.estimationMethod != "photo"
  {
  }

  /** A bag estimate fails exactly when the bag size is given but has no row. */
  lemma BagNotFound(req: EstimationRequest, tables: Tables)
    requires req.estimationMethod == "bag"
    ensures Post(req, tables) == BadRequest("Bag size not found") <==>
      Present(req.bagSize) && JsNumber.Truthy(req.bagCount) && tables.bagWeight(req.bagSize.value).None?
    ensures Post(req, tables).BadRequest? ==> Post(req, tables).error == "Bag size not found"
  {
  }

  /** The bag formulas: 70% fill, scaled by the type's density relative to mixed trash when known. */
  lemma BagFormula(req: EstimationRequest, tables: Tables, avg: real, count: real)
    requires req.estimationMethod == "bag" && Present(req.bagSize) && req.bagCount == Some(count) && count != 0.0
    requires tables.bagWeight(req.bagSize.value) == Some(avg)
    ensures tables.density(req.wasteType).None? ==>
      RawEstimate(req, tables) == Estimate(avg * count * 0.7, 60)
    ensures tables.density(req.wasteType).Some? ==>
      RawEstimate(req, tables) == Estimate(avg * count * (tables.density(req.wasteType).value / 138.0) * 0.7, 75)
  {
  }

  /** The volume formula: 60% packing at the type's density, mixed trash when unknown or zero. */
  lemma VolumeFormula(req: EstimationRequest, tables: Tables, l: real, w: real, h: real)
    requires req.estimationMethod == "volume" && req.volumeLength == Some(l) && req.volumeWidth == Some(w) && req.volumeHeight == Some(h)
    requires l != 0.0 && w != 0.0 && h != 0.0
    ensures var row := tables.density(req.wasteType);
      var d := if row.Some? && row.value != 0.0 then row.value else 138.0;
      RawEstimate(req, tables) == Estimate(l * w * h * d * 0.6, if row.Some? then 70 else 50)
  {
  }

  /** The photo formula: ten times the reference weight, read as litres, at 50% packing. */
  lemma PhotoFormula(req: EstimationRequest, tables: Tables)
    requires req.estimationMethod == "photo" && Present(req.photoUrl) && Present(req.referenceObject)
    ensures var row := tables.density(req.wasteType);
      var d := if row.Some? && row.value != 0.0 then row.value else 138.0;
      RawEstimate(req, tables) == Estimate((ReferenceWeight(req.referenceObject.value) * 10.0 / 1000.0) * d * 0.5, 40)
  {
  }

  /** A known method with an input missing (or zero) estimates nothing, at 50% confidence. */
  lemma MissingInputs(req: EstimationRequest, tables: Tables)
    requires || (req.estimationMethod == "bag" && !(Present(req.bagSize) && JsNumber.Truthy(req.bagCount)))
             || (req.estimationMethod == "volume" &&
                  !(JsNumber.Truthy(req.volumeLength) && JsNumber.Truthy(req.volumeWidth) && JsNumber.Truthy(req.volumeHeight)))
             || (req.estimationMethod == "photo" && !(Present(req.photoUrl) && Present(req.referenceObject)))
    ensures Post(req, tables) == Estimate(0.0, 50)
  {
    assert RoundToHundredths(0.0) == 0.0;
  }

  /** The confidence of every branch is already within the clamp, so clamping never changes it. */
  lemma ClampIsIdentity(req: EstimationRequest, tables: Tables)
    ensures var raw := RawEstimate(req, tables);
      raw.Estimate? ==> (raw.confidencePct in {40, 50, 60, 70, 75} &&
        Post(req, tables).confidencePct == raw.confidencePct &&
        Post(req, tables).weightKg == RoundToHundredths(raw.weightKg))
  {
  }
}
