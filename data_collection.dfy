/**
 * The cleanup-report preparation of lib/data-collection.ts: the row queued
 * for official reporting, with category defaults, a well-known-text point for
 * the coordinates (OGC Simple Feature Access Part 1, section 7: longitude
 * before latitude), and the payloads pre-formatted for Rydde, Statistics
 * Norway and the Norwegian Environment Agency (Miljødirektoratet).
 */
module DataCollection {
  import opened Wrappers
  import opened IntegrationTypes
  import JsNumber
  import JsText

  datatype Unit = Kg | Liters | Pieces

  datatype ReportCategory = ReportCategory(
    wasteType: string,
    subtype: Option<string>,
    quantity: Option<real>,
    weight: Option<real>,
    volume: Option<real>,
    unit: Unit)

  /**
   * The report a page hands in. `cleanupDateIso` is `cleanupDate.toISOString()`,
   * the date rendered as ISO 8601 text.
   */
  datatype CleanupReportData = CleanupReportData(
    postId: Option<string>,
    userId: string,
    locationName: Option<string>,
    coordinates: Option<Coordinates>,
    cleanupDateIso: string,
    cleanupDurationMinutes: Option<real>,
    volunteerCount: Option<int>,
    organizationName: Option<string>,
    wasteCategories: seq<ReportCategory>,
    totalWeightKg: Option<real>,
    totalVolumeLiters: Option<real>,
    bagCount: Option<int>,
    weatherConditions: Option<string>,
    tideLevel: Option<string>,
    accessibilityRating: Option<real>,
    beforePhotos: Option<seq<string>>,
    afterPhotos: Option<seq<string>>,
    wastePhotos: Option<seq<string>>)

  datatype StoredCategory = StoredCategory(
    wasteType: string,
    subtype: Option<string>,
    quantity: real,
    weight_kg: real,
    volume_liters: real,
    unit: Unit)

  datatype RyddeCategory = RyddeCategory(wasteType: string, weight_kg: real)

  datatype RyddeFormat = RyddeFormat(
    location_name: Option<string>,
    coordinates: Option<Coordinates>,
    date: string,
    participants: int,
    duration_minutes: Option<real>,
    total_weight_kg: Option<real>,
    categories: seq<RyddeCategory>)

  datatype SsbFormat = SsbFormat(
    activity_date: string,
    location: Option<string>,
    participant_count: int,
    waste_amount_kg: Option<real>,
    activity_type: string)

  datatype MiljoFormat = MiljoFormat(
    location: Option<Coordinates>,
    waste_removed_kg: Option<real>,
    waste_types: seq<string>,
    cleanup_date: string,
    area_cleaned: string,
    accessibility: Option<real>)

  /** The row inserted into `official_reports_queue`. */
  datatype ReportRow = ReportRow(
    post_id: Option<string>,
    user_id: string,
    location_name: Option<string>,
    coordinates: Option<string>,
    cleanup_date: string,
    cleanup_duration_minutes: Option<real>,
    volunteer_count: int,
    organization_name: Option<string>,
    waste_categories: seq<StoredCategory>,
    total_weight_kg: Option<real>,
    total_volume_liters: Option<real>,
    bag_count: Option<int>,
    weather_conditions: Option<string>,
    tide_level: Option<string>,
    accessibility_rating: Option<real>,
    before_photos: seq<string>,
    after_photos: seq<string>,
    waste_photos: seq<string>,
    rydde_format: RyddeFormat,
    ssb_format: SsbFormat,
    miljodirektoratet_format: MiljoFormat)

  /** A category as stored: the three amounts default to 0 through `||`. */
  function StoreCategory(c: ReportCategory): (s: StoredCategory)
  {
    StoredCategory(c.wasteType, c.subtype, JsNumber.OrElse(c.quantity, 0.0),
      JsNumber.OrElse(c.weight, 0.0), JsNumber.OrElse(c.volume, 0.0), c.unit)
  }

  function StoreCategories(cs: seq<ReportCategory>): (ss: seq<StoredCategory>)
    ensures |ss| == |cs|
    ensures forall i :: 0 <= i < |cs| ==> ss[i] == StoreCategory(cs[i])
  {
    seq(|cs|, i requires 0 <= i < |cs| => StoreCategory(cs[i]))
  }

  /**
   * The point as well-known text, longitude first; `numText` is JavaScript's
   * rendering of a number.
   */
  function PointText(c: Option<Coordinates>, numText: real -> string): (t: Option<string>)
  {
    if c.None? then None
    else Some("POINT(" + numText(c.value.lng) + " " + numText(c.value.lat) + ")")
  }

  /** A text that opens with `POINT(`, closes with `)` and holds `x`, a space and `y` between is that point's text. */
  lemma PointFrame(t: string, x: string, y: string)
    requires |t| >= 7 && t[..6] == "POINT(" && t[|t| - 1] == ')'
    requires t[6..|t| - 1] == x + [' '] + y
    ensures t == "POINT(" + x + " " + y + ")"
  {
    JsText.SplitEnds(t, 6);
    assert [t[|t| - 1]] == ")";
    JsText.ConcatAssoc("POINT(" + x, " ", y);
    JsText.ConcatAssoc("POINT(", x, " " + y);
  }

  /** Reads the two coordinates of a well-known-text point back, in the order written. */
  function ParsePoint(t: string): (r: Option<(string, string)>)
    ensures r.Some? ==> t == "POINT(" + r.value.0 + " " + r.value.1 + ")"
  {
    if |t| >= 7 && t[..6] == "POINT(" && t[|t| - 1] == ')' then
      var body := t[6..|t| - 1];
      if ' ' in body then
        var x := JsText.BeforeFirst(body, ' ');
        var y := body[|x| + 1..];
        PointFrame(t, x, y);
        Some((x, y))
      else None
    else None
  }

  function FormatForRydde(data: CleanupReportData): (f: RyddeFormat)
  {
    RyddeFormat(
      data.locationName,
      data.coordinates,
      data.cleanupDateIso,
      JsNumber.IntOrElse(data.volunteerCount, 1),
      data.cleanupDurationMinutes,
      data.totalWeightKg,
      seq(|data.wasteCategories|, i requires 0 <= i < |data.wasteCategories| =>
        RyddeCategory(data.wasteCategories[i].wasteType, JsNumber.OrElse(data.wasteCategories[i].weight, 0.0))))
  }

  function FormatForSsb(data: CleanupReportData): (f: SsbFormat)
  {
    SsbFormat(
      JsText.BeforeFirst(data.cleanupDateIso, 'T'),
      data.locationName,
      JsNumber.IntOrElse(data.volunteerCount, 1),
      data.totalWeightKg,
      "coastal_cleanup")
  }

  function FormatForMiljodirektoratet(data: CleanupReportData): (f: MiljoFormat)
  {
    MiljoFormat(
      data.coordinates,
      data.totalWeightKg,
      seq(|data.wasteCategories|, i requires 0 <= i < |data.wasteCategories| => data.wasteCategories[i].wasteType),
      data.cleanupDateIso,
      "coastal",
      data.accessibilityRating)
  }

  /** The row `createCleanupReport` inserts. */
  function PrepareReport(data: CleanupReportData, numText: real -> string): (row: ReportRow)
  {
    ReportRow(
      data.postId,
      data.userId,
      data.locationName,
      PointText(data.coordinates, numText),
      data.cleanupDateIso,
      data.cleanupDurationMinutes,
      JsNumber.IntOrElse(data.volunteerCount, 1),
      data.organizationName,
      StoreCategories(data.wasteCategories),
      data.totalWeightKg,
      data.totalVolumeLiters,
      data.bagCount,
      data.weatherConditions,
      data.tideLevel,
      data.accessibilityRating,
      if data.beforePhotos.Some? then data.beforePhotos.value else [],
      if data.afterPhotos.Some? then data.afterPhotos.value else [],
      if data.wastePhotos.Some? then data.wastePhotos.value else [],
      FormatForRydde(data),
      FormatForSsb(data),
      FormatForMiljodirektoratet(data))
  }

  /**
   * The point text reads back as longitude then latitude, provided the
   * rendering of the longitude has no space (a JavaScript number never has).
   */
  lemma PointRoundTrip(c: Coordinates, numText: real -> string)
    requires ' ' !in numText(c.lng)
    ensures var t := PointText(Some(c), numText);
      t.Some? && ParsePoint(t.value) == Some((numText(c.lng), numText(c.lat)))
  {
    var lng, lat := numText(c.lng), numText(c.lat);
    var t := "POINT(" + lng + " " + lat + ")";
    var body := lng + " " + lat;
    assert t[..6] == "POINT(" && t[|t| - 1] == ')';
    assert t[6..|t| - 1] == body;
    assert body == lng + [' '] + lat;
    JsText.BeforeFirstSplit(lng, ' ', lat);
    assert body[|lng| + 1..] == lat;
  }

  /** No coordinates, no point. */
  lemma AbsentPoint(numText: real -> string)
    ensures PointText(None, numText).None?
  {
  }

  /**
   * Stored categories keep their type, subtype and unit in order; a missing or
   * zero amount is stored as 0.
   */
  lemma StoredCategoryDefaults(data: CleanupReportData, numText: real -> string, i: int)
    requires 0 <= i < |data.wasteCategories|
    ensures var s := PrepareReport(data, numText).waste_categories;
      var c := data.wasteCategories[i];
      && |s| == |data.wasteCategories|
      && s[i].wasteType == c.wasteType && s[i].subtype == c.subtype && s[i].unit == c.unit
      && (c.weight.None? ==> s[i].weight_kg == 0.0)
      && (c.quantity.None? ==> s[i].quantity == 0.0)
      && (c.volume.None? ==> s[i].volume_liters == 0.0)
  {
  }

  /** At least one volunteer is recorded, in the row and in both formats that carry a count. */
  lemma VolunteerDefault(data: CleanupReportData, numText: real -> string)
    ensures var row := PrepareReport(data, numText);
      && (data.volunteerCount.None? || data.volunteerCount.value == 0 ==> row.volunteer_count == 1)
      && (data.volunteerCount.Some? && data.volunteerCount.value != 0 ==> row.volunteer_count == data.volunteerCount.value)
      && row.rydde_format.participants == row.volunteer_count
      && row.ssb_format.participant_count == row.volunteer_count
  {
  }

  /** Absent photo lists are stored as empty lists, present ones as given. */
  lemma PhotoDefaults(data: CleanupReportData, numText: real -> string)
    ensures var row := PrepareReport(data, numText);
      && (data.beforePhotos.None? ==> row.before_photos == [])
      && (data.afterPhotos.None? ==> row.after_photos == [])
      && (data.wastePhotos.None? ==> row.waste_photos == [])
      && (data.beforePhotos.Some? ==> row.before_photos == data.beforePhotos.value)
      && (data.afterPhotos.Some? ==> row.after_photos == data.afterPhotos.value)
      && (data.wastePhotos.Some? ==> row.waste_photos == data.wastePhotos.value)
  {
  }

  /**
   * The statistics payload's date is the calendar-date part of the ISO text:
   * it holds no "T", and the ISO text is that date, "T", then the time.
   */
  lemma SsbDatePart(data: CleanupReportData)
    ensures var d := FormatForSsb(data).activity_date;
      && 'T' !in d
      && ('T' in data.cleanupDateIso ==> data.cleanupDateIso == d + ['T'] + data.cleanupDateIso[|d| + 1..])
      && FormatForSsb(data).activity_type == "coastal_cleanup"
  {
  }

  /** The Rydde payload keeps the categories in order, with weights defaulting to 0. */
  lemma RyddeFormatCategories(data: CleanupReportData, i: int)
    requires 0 <= i < |data.wasteCategories|
    ensures var cs := FormatForRydde(data).categories;
      && |cs| == |data.wasteCategories|
      && cs[i].wasteType == data.wasteCategories[i].wasteType
      && cs[i].weight_kg == JsNumber.OrElse(data.wasteCategories[i].weight, 0.0)
  {
  }

  /** The environment-agency payload lists the category types in order and describes a coastal area. */
  lemma MiljoFormatTypes(data: CleanupReportData)
    ensures var f := FormatForMiljodirektoratet(data);
      && |f.waste_types| == |data.wasteCategories|
      && (forall i :: 0 <= i < |data.wasteCategories| ==> f.waste_types[i] == data.wasteCategories[i].wasteType)
      && f.area_cleaned == "coastal"
  {
  }
}
