/**
 * Mapping of a cleanup record into a voluntary waste declaration for the
 * Avfallsdeklarering register (integrations/connectors/avfallsdeklarering/).
 * Waste types are classified by the European List of Waste (Commission
 * Decision 2000/532/EC); packaging codes are those of its chapter 15 01.
 */
module AvfallsTransformer {
  import opened Wrappers
  import opened IntegrationTypes
  import JsNumber
  import JsText

  datatype TreatmentMethod = Recycling | EnergyRecovery | Disposal | Unknown

  datatype ContaminationLevel = Clean | LightlyContaminated | HeavilyContaminated

  datatype ReportingEntity = ReportingEntity(name: string, contact_person: string, contact_email: string)

  datatype CollectionPeriod = CollectionPeriod(start_date: string, end_date: string)

  datatype Declaration = Declaration(
    declaration_type: string,
    reporting_entity: ReportingEntity,
    collection_period: CollectionPeriod)

  datatype GeoPoint = GeoPoint(latitude: real, longitude: real)

  datatype AvfallsLocation = AvfallsLocation(
    municipality_name: string,
    specific_location: string,
    coordinates: Option<GeoPoint>)

  datatype AvfallsFraction = AvfallsFraction(
    eal_code: string,
    fraction_name: string,
    weight_kg: real,
    volume_m3: Option<real>,
    treatment_method: TreatmentMethod,
    contamination_level: ContaminationLevel)

  datatype AvfallsWasteData = AvfallsWasteData(
    collection_method: string,
    total_weight_kg: real,
    waste_fractions: seq<AvfallsFraction>)

  datatype Documentation = Documentation(
    collection_photos: Option<seq<string>>,
    weight_documentation: seq<string>)

  datatype EnvironmentalImpact = EnvironmentalImpact(environmental_benefit_notes: string)

  datatype AvfallsdeklaringData = AvfallsdeklaringData(
    declaration: Declaration,
    location: AvfallsLocation,
    waste_data: AvfallsWasteData,
    documentation: Documentation,
    environmental_impact: EnvironmentalImpact)

  const DefaultEntityName := "Skjærgårdshelt bruker"
  const OtherMunicipalWaste := "20 03 99"
  const MixedWasteName := "Blandet avfall"

  /** List-of-Waste codes per internal waste type. */
  const EalCodes: map<string, string> := map[
    "plastic_bottles" := "15 01 02",
    "plastic_bags" := "15 01 02",
    "fishing_gear" := "02 01 04",
    "cigarette_butts" := "20 03 99",
    "food_packaging" := "15 01 02",
    "glass_bottles" := "15 01 07",
    "metal_cans" := "15 01 04",
    "paper_cardboard" := "15 01 01",
    "other" := "20 03 99"]

  const FractionNames: map<string, string> := map[
    "plastic_bottles" := "Plastflasker og -beholdere",
    "plastic_bags" := "Plastposer og -film",
    "fishing_gear" := "Fiskeutstyr og tau",
    "cigarette_butts" := "Sigarettstumper",
    "food_packaging" := "Matemballasje",
    "glass_bottles" := "Glassflasker og -beholdere",
    "metal_cans" := "Metallbokser og -beholdere",
    "paper_cardboard" := "Papir og kartong",
    "other" := "Blandet avfall"]

  const RecyclableTypes: seq<string> := ["plastic_bottles", "glass_bottles", "metal_cans", "paper_cardboard"]

  const HeavilyContaminatedTypes: seq<string> := ["fishing_gear", "cigarette_butts"]

  /** `mapping[wasteType] || "20 03 99"`. */
  function EalCode(wasteType: string): (code: string)
    ensures wasteType !in EalCodes ==> code == OtherMunicipalWaste
    ensures wasteType in EalCodes ==> code == EalCodes[wasteType]
  {
    if wasteType in EalCodes && EalCodes[wasteType] != "" then EalCodes[wasteType] else OtherMunicipalWaste
  }

  /** `mapping[wasteType] || "Blandet avfall"`. */
  function FractionName(wasteType: string): (name: string)
    ensures wasteType !in FractionNames ==> name == MixedWasteName
    ensures wasteType in FractionNames ==> name == FractionNames[wasteType]
  {
    if wasteType in FractionNames && FractionNames[wasteType] != "" then FractionNames[wasteType] else MixedWasteName
  }

  function TreatmentMethodOf(wasteType: string): (m: TreatmentMethod)
  {
    if wasteType in RecyclableTypes then Recycling else Unknown
  }

  function ContaminationLevelOf(wasteType: string): (l: ContaminationLevel)
  {
    if wasteType in HeavilyContaminatedTypes then HeavilyContaminated else LightlyContaminated
  }

  function TransformFraction(category: WasteCategory): (f: AvfallsFraction)
  {
    AvfallsFraction(
      EalCode(category.wasteType),
      FractionName(category.wasteType),
      JsNumber.OrElse(category.weight_kg, 0.0),
      if JsNumber.Truthy(category.volume_liters) then Some(category.volume_liters.value / 1000.0) else None,
      TreatmentMethodOf(category.wasteType),
      ContaminationLevelOf(category.wasteType))
  }

  /** `categories.map(...)`: one fraction per category, in the same order. */
  function TransformWasteFractions(categories: seq<WasteCategory>): (fs: seq<AvfallsFraction>)
    ensures |fs| == |categories|
    ensures forall i :: 0 <= i < |categories| ==> fs[i] == TransformFraction(categories[i])
  {
    if categories == [] then []
    else [TransformFraction(categories[0])] + TransformWasteFractions(categories[1..])
  }

  /** `input.photos?.after || input.photos?.waste` (an array, even an empty one, is truthy). */
  function CollectionPhotos(photos: Option<Photos>): (r: Option<seq<string>>)
  {
    if photos.None? then None
    else if photos.value.after.Some? then photos.value.after
    else photos.value.waste
  }

  /**
   * The declaration for one cleanup. `numText` is JavaScript's rendering of a
   * number as text, used in the free-text benefit note.
   */
  function Transform(input: CleanupData, numText: real -> string): (d: AvfallsdeklaringData)
  {
    var totalWeight := JsNumber.OrElse(input.waste.total_weight_kg, 0.0);
    AvfallsdeklaringData(
      Declaration(
        "voluntary_collection",
        ReportingEntity(
          JsText.StrOrElse(input.cleanup.organization, DefaultEntityName),
          "Skjærgårdshelt Platform",
          "contact@skjaergardshelt.no"),
        CollectionPeriod(input.cleanup.date, input.cleanup.date)),
      AvfallsLocation(
        JsText.StrOrElse(input.location.municipality, input.location.name),
        input.location.name,
        if input.location.coordinates.Some?
        then Some(GeoPoint(input.location.coordinates.value.lat, input.location.coordinates.value.lng))
        else None),
      AvfallsWasteData("manual_pickup", totalWeight, TransformWasteFractions(input.waste.categories)),
      Documentation(CollectionPhotos(input.photos), []),
      EnvironmentalImpact(
        "Coastal cleanup removing " + numText(totalWeight) + "kg of waste from Norwegian coastline"))
  }

  predicate Validate(d: AvfallsdeklaringData) {
    && d.declaration.reporting_entity.name != ""
    && d.declaration.collection_period.start_date != ""
    && d.location.municipality_name != ""
    && |d.waste_data.waste_fractions| != 0
    && !(d.waste_data.total_weight_kg < 0.0)
  }

  /** One message per failed check, in the order the checks are written. */
  function GetValidationErrors(d: AvfallsdeklaringData): (errors: seq<string>)
    ensures errors == [] <==> Validate(d)
    ensures |errors| == (if d.declaration.reporting_entity.name == "" then 1 else 0) +
      (if d.declaration.collection_period.start_date == "" then 1 else 0) +
      (if d.location.municipality_name == "" then 1 else 0) +
      (if |d.waste_data.waste_fractions| == 0 then 1 else 0) +
      (if d.waste_data.total_weight_kg < 0.0 then 1 else 0)
    ensures d.declaration.reporting_entity.name == "" ==> "Reporting entity name is required" in errors
    ensures d.declaration.collection_period.start_date == "" ==> "Collection start date is required" in errors
    ensures d.location.municipality_name == "" ==> "Municipality name is required" in errors
    ensures |d.waste_data.waste_fractions| == 0 ==> "At least one waste fraction is required" in errors
    ensures d.waste_data.total_weight_kg < 0.0 ==> "Total weight cannot be negative" in errors
  {
    (if d.declaration.reporting_entity.name == "" then ["Reporting entity name is required"] else [])
    + (if d.declaration.collection_period.start_date == "" then ["Collection start date is required"] else [])
    + (if d.location.municipality_name == "" then ["Municipality name is required"] else [])
    + (if |d.waste_data.waste_fractions| == 0 then ["At least one waste fraction is required"] else [])
    + (if d.waste_data.total_weight_kg < 0.0 then ["Total weight cannot be negative"] else [])
  }

  /** Transform's promises: a non-empty reporting entity, a one-day period, the fraction list aligned with the categories. */
  lemma TransformShape(input: CleanupData, numText: real -> string)
    ensures var d := Transform(input, numText);
      && d.declaration.reporting_entity.name != ""
      && (input.cleanup.organization.Some? && input.cleanup.organization.value != ""
          ==> d.declaration.reporting_entity.name == input.cleanup.organization.value)
      && d.declaration.collection_period.start_date == input.cleanup.date
      && d.declaration.collection_period.end_date == input.cleanup.date
      && |d.waste_data.waste_fractions| == |input.waste.categories|
      && (forall i :: 0 <= i < |input.waste.categories| ==>
            d.waste_data.waste_fractions[i].eal_code == EalCode(input.waste.categories[i].wasteType))
  {
  }

  /** A category's weight defaults to 0; its volume is given in cubic metres only when litres are given. */
  lemma FractionQuantities(category: WasteCategory)
    ensures var f := TransformFraction(category);
      && (category.weight_kg.None? ==> f.weight_kg == 0.0)
      && (category.weight_kg.Some? ==> f.weight_kg == category.weight_kg.value)
      && (f.volume_m3.Some? <==> category.volume_liters.Some? && category.volume_liters.value != 0.0)
      && (f.volume_m3.Some? ==> f.volume_m3.value * 1000.0 == category.volume_liters.value)
  {
  }

  /** Types outside the table fall back to "other municipal waste", named mixed waste. */
  lemma UnknownTypeFallback(wasteType: string)
    requires wasteType !in EalCodes
    ensures EalCode(wasteType) == "20 03 99" && FractionName(wasteType) == "Blandet avfall"
    ensures TreatmentMethodOf(wasteType) == Unknown
    ensures ContaminationLevelOf(wasteType) == LightlyContaminated
  {
  }

  /** Only four types are recycled, and energy recovery or disposal is never chosen. */
  lemma TreatmentIff(wasteType: string)
    ensures TreatmentMethodOf(wasteType) == Recycling <==>
      wasteType in {"plastic_bottles", "glass_bottles", "metal_cans", "paper_cardboard"}
    ensures TreatmentMethodOf(wasteType) != EnergyRecovery && TreatmentMethodOf(wasteType) != Disposal
  {
  }

  /** Only fishing gear and cigarette butts are heavily contaminated, and nothing is clean. */
  lemma ContaminationIff(wasteType: string)
    ensures ContaminationLevelOf(wasteType) == HeavilyContaminated <==>
      wasteType in {"fishing_gear", "cigarette_butts"}
    ensures ContaminationLevelOf(wasteType) != Clean
  {
  }

  /** Every known type gets a packaging code of chapter 15 01 or one of the two other codes in the table. */
  lemma EalCodesInTable(wasteType: string)
    ensures EalCode(wasteType) in {"15 01 01", "15 01 02", "15 01 04", "15 01 07", "02 01 04", "20 03 99"}
  {
  }

  /**
   * A transformed record is valid exactly when the municipality-or-place name is
   * non-empty, the date is non-empty, there is a category and the total weight is not negative.
   */
  lemma ValidTransformIff(input: CleanupData, numText: real -> string)
    ensures Validate(Transform(input, numText)) <==>
      && (JsText.StrOrElse(input.location.municipality, input.location.name) != "")
      && input.cleanup.date != ""
      && |input.waste.categories| != 0
      && !(JsNumber.OrElse(input.waste.total_weight_kg, 0.0) < 0.0)
  {
  }
}
