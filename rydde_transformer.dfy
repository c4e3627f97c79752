/**
 * Mapping of a cleanup record into the event report accepted by the Rydde
 * volunteer-cleanup register (integrations/connectors/rydde/).
 */
module RyddeTransformer {
  import opened Wrappers
  import opened IntegrationTypes
  import JsNumber

  datatype EventType = CoastalCleanup | BeachCleanup | MarineCleanup

  datatype GeoPoint = GeoPoint(latitude: real, longitude: real)

  datatype RyddeLocation = RyddeLocation(
    name: string,
    coordinates: Option<GeoPoint>,
    municipality: Option<string>)

  datatype RyddeEvent = RyddeEvent(
    date: string,
    duration_hours: Option<int>,
    participant_count: int,
    organization_name: Option<string>,
    event_type: EventType)

  datatype RyddeWasteType = RyddeWasteType(
    category: string,
    subcategory: Option<string>,
    weight_kg: Option<real>,
    volume_liters: Option<real>,
    item_count: Option<int>,
    notes: Option<string>)

  datatype WasteCollected = WasteCollected(
    total_weight_kg: Option<real>,
    waste_types: seq<RyddeWasteType>)

  datatype RyddeDocumentation = RyddeDocumentation(
    before_photos: Option<seq<string>>,
    after_photos: Option<seq<string>>,
    waste_photos: Option<seq<string>>)

  datatype RyddeCleanupData = RyddeCleanupData(
    location: RyddeLocation,
    event: RyddeEvent,
    waste_collected: WasteCollected,
    documentation: RyddeDocumentation)

  /** Rydde's category per internal waste type. */
  const Categories: map<string, string> := map[
    "plastic_bottles" := "plastic",
    "plastic_bags" := "plastic",
    "fishing_gear" := "fishing_equipment",
    "cigarette_butts" := "cigarettes",
    "food_packaging" := "packaging",
    "glass_bottles" := "glass",
    "metal_cans" := "metal",
    "paper_cardboard" := "paper",
    "other" := "other"]

  /** `mapping[type] || "other"`. */
  function MapWasteType(wasteType: string): (category: string)
    ensures wasteType !in Categories ==> category == "other"
    ensures wasteType in Categories ==> category == Categories[wasteType]
  {
    if wasteType in Categories && Categories[wasteType] != "" then Categories[wasteType] else "other"
  }

  /** `Math.round(minutes / 60)` for a truthy number of minutes, else undefined. */
  function DurationHours(minutes: Option<int>): (hours: Option<int>)
  {
    if JsNumber.IntTruthy(minutes) then Some(JsNumber.Round(minutes.value as real / 60.0)) else None
  }

  function TransformCategory(category: WasteCategory): (w: RyddeWasteType)
  {
    RyddeWasteType(
      MapWasteType(category.wasteType),
      category.subtype,
      category.weight_kg,
      category.volume_liters,
      category.count,
      category.description)
  }

  /** `categories.map(...)`: one Rydde waste type per category, in order. */
  function TransformWasteCategories(categories: seq<WasteCategory>): (ws: seq<RyddeWasteType>)
    ensures |ws| == |categories|
    ensures forall i :: 0 <= i < |categories| ==> ws[i] == TransformCategory(categories[i])
  {
    seq(|categories|, i requires 0 <= i < |categories| => TransformCategory(categories[i]))
  }

  function Transform(input: CleanupData): (d: RyddeCleanupData)
  {
    RyddeCleanupData(
      RyddeLocation(
        input.location.name,
        if input.location.coordinates.Some?
        then Some(GeoPoint(input.location.coordinates.value.lat, input.location.coordinates.value.lng))
        else None,
        input.location.municipality),
      RyddeEvent(
        input.cleanup.date,
        DurationHours(input.cleanup.duration_minutes),
        input.cleanup.participants,
        input.cleanup.organization,
        CoastalCleanup),
      WasteCollected(input.waste.total_weight_kg, TransformWasteCategories(input.waste.categories)),
      if input.photos.Some?
      then RyddeDocumentation(input.photos.value.before, input.photos.value.after, input.photos.value.waste)
      else RyddeDocumentation(None, None, None))
  }

  predicate Validate(d: RyddeCleanupData) {
    && d.location.name != ""
    && d.event.date != ""
    && !(d.event.participant_count < 1)  // a zero count is falsy and below 1 alike
    && |d.waste_collected.waste_types| != 0
  }

  /** One message per failed check, in the order the checks are written. */
  function GetValidationErrors(d: RyddeCleanupData): (errors: seq<string>)
    ensures errors == [] <==> Validate(d)
    ensures |errors| == (if d.location.name == "" then 1 else 0) +
      (if d.event.date == "" then 1 else 0) +
      (if d.event.participant_count < 1 then 1 else 0) +
      (if |d.waste_collected.waste_types| == 0 then 1 else 0)
    ensures d.location.name == "" ==> "Location name is required" in errors
    ensures d.event.date == "" ==> "Event date is required" in errors
    ensures d.event.participant_count < 1 ==> "At least one participant is required" in errors
    ensures |d.waste_collected.waste_types| == 0 ==> "At least one waste type is required" in errors
  {
    (if d.location.name == "" then ["Location name is required"] else [])
    + (if d.event.date == "" then ["Event date is required"] else [])
    + (if d.event.participant_count < 1 then ["At least one participant is required"] else [])
    + (if |d.waste_collected.waste_types| == 0 then ["At least one waste type is required"] else [])
  }

  /** Zero or absent minutes give no duration; otherwise the nearest whole hour, a half hour rounding up. */
  lemma DurationRounding(minutes: Option<int>)
    ensures DurationHours(minutes).None? <==> minutes.None? || minutes.value == 0
    ensures minutes.Some? && minutes.value != 0 ==>
      var h := DurationHours(minutes).value;
      60 * h - 30 <= minutes.value < 60 * h + 30
  {
    if minutes.Some? && minutes.value != 0 {
      var m := minutes.value;
      var h := JsNumber.Round(m as real / 60.0);
      assert m as real / 60.0 - 0.5 < h as real <= m as real / 60.0 + 0.5;
      assert (m as real / 60.0) * 60.0 == m as real;
    }
  }

  /** Coordinates keep their values under the register's field names, and an absent point stays absent. */
  lemma TransformShape(input: CleanupData)
    ensures var d := Transform(input);
      && (d.location.coordinates.Some? <==> input.location.coordinates.Some?)
      && (input.location.coordinates.Some? ==>
            d.location.coordinates.value.latitude == input.location.coordinates.value.lat &&
            d.location.coordinates.value.longitude == input.location.coordinates.value.lng)
      && d.event.event_type == CoastalCleanup
      && d.event.date == input.cleanup.date
      && |d.waste_collected.waste_types| == |input.waste.categories|
      && (forall i :: 0 <= i < |input.waste.categories| ==>
            d.waste_collected.waste_types[i].category == MapWasteType(input.waste.categories[i].wasteType) &&
            d.waste_collected.waste_types[i].weight_kg == input.waste.categories[i].weight_kg)
  {
  }

  /** Types outside the table are reported as "other". */
  lemma UnknownTypeIsOther(wasteType: string)
    requires wasteType !in Categories
    ensures MapWasteType(wasteType) == "other"
  {
  }

  /** Bottles and bags share the "plastic" category, so the mapping loses which one it was. */
  lemma PlasticNotInjective()
    ensures MapWasteType("plastic_bottles") == MapWasteType("plastic_bags") == "plastic"
  {
  }

  /** A record transformed from a cleanup is valid exactly under these conditions on the input. */
  lemma ValidTransformIff(input: CleanupData)
    ensures Validate(Transform(input)) <==>
      && input.location.name != ""
      && input.cleanup.date != ""
      && input.cleanup.participants >= 1
      && |input.waste.categories| != 0
  {
  }
}
