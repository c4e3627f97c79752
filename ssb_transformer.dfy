/**
 * Mapping of a cleanup record into the environmental-statistics record sent to
 * Statistics Norway's PxWeb interface (integrations/connectors/pxweb/).
 */
module SsbTransformer {
  import opened Wrappers
  import opened IntegrationTypes
  import JsNumber
  import JsText

  datatype OrganizationType = Individual | Ngo | School | Business | Government

  datatype ReportingPeriod = ReportingPeriod(year: int, quarter: int, month: int)

  datatype SsbLocation = SsbLocation(municipality_name: string, county_name: Option<string>)

  datatype Activity = Activity(
    activity_type: string,
    activity_date: string,
    participant_count: int,
    organization_type: OrganizationType)

  datatype SsbWasteCategory = SsbWasteCategory(
    category_code: string,
    category_name: string,
    weight_kg: Option<real>,
    volume_liters: Option<real>,
    percentage_of_total: int)

  datatype SsbImpact = SsbImpact(
    waste_removed_kg: real,
    area_type: string,
    waste_categories: seq<SsbWasteCategory>)

  datatype Methodology = Methodology(
    measurement_method: string,
    confidence_level: int,
    data_quality_notes: string)

  datatype SsbEnvironmentalData = SsbEnvironmentalData(
    reporting_period: ReportingPeriod,
    location: SsbLocation,
    activity: Activity,
    environmental_impact: SsbImpact,
    methodology: Methodology)

  /**
   * The calendar fields of `new Date(input.cleanup.date)`: the full year and
   * the month numbered from 1 (`getMonth() + 1`).
   */
  datatype CalendarDate = CalendarDate(year: int, month: int)

  const CategoryCodes: map<string, string> := map[
    "plastic_bottles" := "PLAST_01",
    "plastic_bags" := "PLAST_02",
    "fishing_gear" := "FISK_01",
    "cigarette_butts" := "TOB_01",
    "food_packaging" := "PAKK_01",
    "glass_bottles" := "GLASS_01",
    "metal_cans" := "METALL_01",
    "paper_cardboard" := "PAPIR_01",
    "other" := "ANNET_01"]

  const CategoryNames: map<string, string> := map[
    "plastic_bottles" := "Plastflasker",
    "plastic_bags" := "Plastposer",
    "fishing_gear" := "Fiskeutstyr",
    "cigarette_butts" := "Sigarettstumper",
    "food_packaging" := "Matemballasje",
    "glass_bottles" := "Glassflasker",
    "metal_cans" := "Metallbokser",
    "paper_cardboard" := "Papir og kartong",
    "other" := "Annet avfall"]

  const ConfidenceLevel := 75

  /** `Math.ceil(month / 3)`. */
  function Quarter(month: int): (q: int)
  {
    JsNumber.Ceil(month as real / 3.0)
  }

  /** Months 1..12 fall in quarters 1..4, three months to a quarter. */
  lemma QuarterRange(month: int)
    requires 1 <= month <= 12
    ensures 1 <= Quarter(month) <= 4
    ensures 3 * (Quarter(month) - 1) < month <= 3 * Quarter(month)
  {
  }

  function CategoryCode(wasteType: string): (code: string)
    ensures wasteType !in CategoryCodes ==> code == "ANNET_01"
    ensures wasteType in CategoryCodes ==> code == CategoryCodes[wasteType]
  {
    if wasteType in CategoryCodes && CategoryCodes[wasteType] != "" then CategoryCodes[wasteType] else "ANNET_01"
  }

  function CategoryName(wasteType: string): (name: string)
    ensures wasteType !in CategoryNames ==> name == "Annet avfall"
    ensures wasteType in CategoryNames ==> name == CategoryNames[wasteType]
  {
    if wasteType in CategoryNames && CategoryNames[wasteType] != "" then CategoryNames[wasteType] else "Annet avfall"
  }

  /** The organization kind guessed from its name; the first matching test wins. */
  function MapOrganizationType(organization: Option<string>): (t: OrganizationType)
  {
    if organization.None? || organization.value == "" then Individual
    else
      var org := JsText.ToLower(organization.value);
      if JsText.Contains(org, "skole") || JsText.Contains(org, "school") then School
      else if JsText.Contains(org, "kommune") || JsText.Contains(org, "stat") then Government
      else if JsText.Contains(org, "as") || JsText.Contains(org, "bedrift") then Business
      else if JsText.Contains(org, "forening") || JsText.Contains(org, "lag") then Ngo
      else Individual
  }

  /** The category weights, each `weight_kg || 0`. */
  function Weights(categories: seq<WasteCategory>): (ws: seq<real>)
    ensures |ws| == |categories|
    ensures forall i :: 0 <= i < |categories| ==> ws[i] == JsNumber.OrElse(categories[i].weight_kg, 0.0)
  {
    if categories == [] then []
    else Weights(categories[..|categories| - 1]) + [JsNumber.OrElse(categories[|categories| - 1].weight_kg, 0.0)]
  }

  /** A category's share of the summed weight, in whole percent; 0 when the sum is 0. */
  function CalculatePercentage(category: WasteCategory, all: seq<WasteCategory>): (p: int)
  {
    var total := JsNumber.Sum(Weights(all));
    if total == 0.0 then 0
    else JsNumber.Round(JsNumber.OrElse(category.weight_kg, 0.0) / total * 100.0)
  }

  function TransformCategory(category: WasteCategory, all: seq<WasteCategory>): (c: SsbWasteCategory)
  {
    SsbWasteCategory(
      CategoryCode(category.wasteType),
      CategoryName(category.wasteType),
      category.weight_kg,
      category.volume_liters,
      CalculatePercentage(category, all))
  }

  /** `categories.map(...)`: one statistics category per input category, in order. */
  function TransformWasteCategories(categories: seq<WasteCategory>): (cs: seq<SsbWasteCategory>)
    ensures |cs| == |categories|
    ensures forall i :: 0 <= i < |categories| ==> cs[i] == TransformCategory(categories[i], categories)
  {
    seq(|categories|, i requires 0 <= i < |categories| => TransformCategory(categories[i], categories))
  }

  function Transform(input: CleanupData, date: CalendarDate): (d: SsbEnvironmentalData)
  {
    SsbEnvironmentalData(
      ReportingPeriod(date.year, Quarter(date.month), date.month),
      SsbLocation(JsText.StrOrElse(input.location.municipality, input.location.name), input.location.county),
      Activity("voluntary_cleanup", input.cleanup.date, input.cleanup.participants,
        MapOrganizationType(input.cleanup.organization)),
      SsbImpact(JsNumber.OrElse(input.waste.total_weight_kg, 0.0), "coastal",
        TransformWasteCategories(input.waste.categories)),
      Methodology("estimated", ConfidenceLevel, "Data collected through Skjærgårdshelt citizen reporting platform"))
  }

  predicate Validate(d: SsbEnvironmentalData) {
    && d.reporting_period.year != 0
    && d.location.municipality_name != ""
    && d.activity.activity_date != ""
    && !(d.activity.participant_count < 1)  // a zero count is falsy and below 1 alike
    && |d.environmental_impact.waste_categories| != 0
  }

  /** One message per failed check, in the order the checks are written. */
  function GetValidationErrors(d: SsbEnvironmentalData): (errors: seq<string>)
    ensures errors == [] <==> Validate(d)
    ensures |errors| == (if d.reporting_period.year == 0 then 1 else 0) +
      (if d.location.municipality_name == "" then 1 else 0) +
      (if d.activity.activity_date == "" then 1 else 0) +
      (if d.activity.participant_count < 1 then 1 else 0) +
      (if |d.environmental_impact.waste_categories| == 0 then 1 else 0)
    ensures d.reporting_period.year == 0 ==> "Reporting year is required" in errors
    ensures d.location.municipality_name == "" ==> "Municipality name is required" in errors
    ensures d.activity.activity_date == "" ==> "Activity date is required" in errors
    ensures d.activity.participant_count < 1 ==> "At least one participant is required" in errors
    ensures |d.environmental_impact.waste_categories| == 0 ==> "At least one waste category is required" in errors
  {
    (if d.reporting_period.year == 0 then ["Reporting year is required"] else [])
    + (if d.location.municipality_name == "" then ["Municipality name is required"] else [])
    + (if d.activity.activity_date == "" then ["Activity date is required"] else [])
    + (if d.activity.participant_count < 1 then ["At least one participant is required"] else [])
    + (if |d.environmental_impact.waste_categories| == 0 then ["At least one waste category is required"] else [])
  }

  /** With non-negative weights every share lies between 0 and 100 percent. */
  lemma PercentageBounds(all: seq<WasteCategory>, i: int)
    requires 0 <= i < |all|
    requires forall j :: 0 <= j < |all| ==> JsNumber.OrElse(all[j].weight_kg, 0.0) >= 0.0
    ensures 0 <= CalculatePercentage(all[i], all) <= 100
    ensures JsNumber.Sum(Weights(all)) == 0.0 ==> CalculatePercentage(all[i], all) == 0
  {
    var ws := Weights(all);
    var total := JsNumber.Sum(ws);
    if total != 0.0 {
      JsNumber.SumBounds(ws, i);
      ShareBounds(ws[i], total);
    }
  }

  lemma ShareBounds(w: real, total: real)
    requires 0.0 <= w <= total && total != 0.0
    ensures 0.0 <= w / total * 100.0 <= 100.0
  {
    assert w / total * total == w;
  }

  /** The period, place, activity and methodology fields the transform promises. */
  lemma TransformShape(input: CleanupData, date: CalendarDate)
    ensures var d := Transform(input, date);
      && d.reporting_period.year == date.year
      && d.reporting_period.month == date.month
      && d.reporting_period.quarter == Quarter(date.month)
      && (1 <= date.month <= 12 ==> 1 <= d.reporting_period.quarter <= 4)
      && d.location.county_name == input.location.county
      && d.activity.activity_date == input.cleanup.date
      && d.activity.participant_count == input.cleanup.participants
      && d.activity.organization_type == MapOrganizationType(input.cleanup.organization)
      && d.location.municipality_name == JsText.StrOrElse(input.location.municipality, input.location.name)
      && |d.environmental_impact.waste_categories| == |input.waste.categories|
      && d.methodology.measurement_method == "estimated"
      && d.methodology.confidence_level == 75
  {
    if 1 <= date.month <= 12 {
      QuarterRange(date.month);
    }
  }

  /** Unknown types fall back to the "other waste" category. */
  lemma UnknownTypeFallback(wasteType: string)
    requires wasteType !in CategoryCodes
    ensures CategoryCode(wasteType) == "ANNET_01" && CategoryName(wasteType) == "Annet avfall"
  {
  }

  /** No organization, or an empty name, is an individual. */
  lemma AbsentOrganizationIsIndividual()
    ensures MapOrganizationType(None) == Individual
    ensures MapOrganizationType(Some("")) == Individual
  {
  }

  /** A school name wins over every later test, even when it also names a municipality. */
  lemma SchoolWinsOverMunicipality(name: string)
    requires JsText.Contains(JsText.ToLower(name), "skole")
    ensures MapOrganizationType(Some(name)) == School
  {
  }

  /**
   * The tests in their order of precedence: school, then government, then
   * business, then association; a non-empty name that passes none is an
   * individual.
   */
  lemma OrganizationPrecedence(name: string)
    requires name != ""
    ensures var org := JsText.ToLower(name);
      var school := JsText.Contains(org, "skole") || JsText.Contains(org, "school");
      var government := JsText.Contains(org, "kommune") || JsText.Contains(org, "stat");
      var business := JsText.Contains(org, "as") || JsText.Contains(org, "bedrift");
      var ngo := JsText.Contains(org, "forening") || JsText.Contains(org, "lag");
      var t := MapOrganizationType(Some(name));
      && (t == School <==> school)
      && (t == Government <==> !school && government)
      && (t == Business <==> !school && !government && business)
      && (t == Ngo <==> !school && !government && !business && ngo)
      && (t == Individual <==> !school && !government && !business && !ngo)
  {
  }

  /** A name mentioning a municipality or the state, and no school, is government. */
  lemma GovernmentWithoutSchool(name: string)
    requires var org := JsText.ToLower(name);
      && !JsText.Contains(org, "skole") && !JsText.Contains(org, "school")
      && (JsText.Contains(org, "kommune") || JsText.Contains(org, "stat"))
    ensures MapOrganizationType(Some(name)) == Government
  {
  }

  /**
   * The business test is a plain substring test for "as": a name with no k, c
   * or t that contains those two letters anywhere is classed as a business.
   */
  lemma SubstringAsMatches(name: string)
    requires var org := JsText.ToLower(name); 'k' !in org && 'c' !in org && 't' !in org && JsText.Contains(org, "as")
    ensures MapOrganizationType(Some(name)) == Business
  {
    var org := JsText.ToLower(name);
    JsText.NotContainsMissingChar(org, "skole", 'k');
    JsText.NotContainsMissingChar(org, "school", 'c');
    JsText.NotContainsMissingChar(org, "kommune", 'k');
    JsText.NotContainsMissingChar(org, "stat", 't');
  }

  /** So a youth club ("ungdomslag") whose name has "as" in it is reported as a business. */
  lemma YouthClubIsBusiness()
    ensures MapOrganizationType(Some("Barnas Ungdomslag")) == Business
  {
    var name := "Barnas Ungdomslag";
    var org := JsText.ToLower(name);
    YouthClubLetters();
    assert JsText.OccursAt(org, "as", 4);
    JsText.ContainsIff(org, "as");
    SubstringAsMatches(name);
  }

  /** The letters of that name, lower-cased: "as" at index 4, and no k, c or t. */
  lemma YouthClubLetters()
    ensures var org := JsText.ToLower("Barnas Ungdomslag");
      org[4..6] == "as" && 'k' !in org && 'c' !in org && 't' !in org
  {
    var org := JsText.ToLower("Barnas Ungdomslag");
    assert org[4..6] == "as";
  }

  /** A record transformed from a cleanup is valid exactly under these conditions on the input. */
  lemma ValidTransformIff(input: CleanupData, date: CalendarDate)
    ensures Validate(Transform(input, date)) <==>
      && date.year != 0
      && JsText.StrOrElse(input.location.municipality, input.location.name) != ""
      && input.cleanup.date != ""
      && input.cleanup.participants >= 1
      && |input.waste.categories| != 0
  {
  }
}
