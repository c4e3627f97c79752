/**
 * The weight estimator embedded in the post form
 * (components/inline-weight-estimator.tsx): the waste type it asks about, the
 * request body it sends to the estimation endpoint, when its button is
 * enabled, and its defaults for bag size and bag count.
 */
module InlineEstimator {
  import opened Wrappers
  import JsNumber
  import JsText
  import EstimateWeight

  /** `s.replace(/\s+/g, "_")`: every maximal run of white space becomes one `_`. */
  function CollapseWhitespace(s: string): (r: string)
    decreases |s|
  {
    if s == [] then []
    else if JsText.IsWhitespace(s[0]) then
      var rest := JsText.TrimStart(s);
      assert rest == [] || !JsText.IsWhitespace(rest[0]);
      "_" + CollapseWhitespace(rest)
    else [s[0]] + CollapseWhitespace(s[1..])
  }

  /** A run of white space in the middle of a word becomes a single `_`. */
  lemma CollapseJoins(a: string, gap: string, b: string)
    requires JsText.NoWhitespace(a) && gap != [] && JsText.NoWhitespace(b)
    requires forall i :: 0 <= i < |gap| ==> JsText.IsWhitespace(gap[i])
    requires b == [] || !JsText.IsWhitespace(b[0])
    ensures CollapseWhitespace(a + gap + b) == a + "_" + b
  {
    var t := gap + b;
    JsText.ConcatAssoc(a, gap, b);
    CollapsePrefix(a, t);
    CollapseGap(gap, b);
    JsText.ConcatAssoc(a, "_", b);
  }

  /** A prefix without white space is kept as it is. */
  lemma {:induction false} CollapsePrefix(a: string, t: string)
    requires JsText.NoWhitespace(a)
    ensures CollapseWhitespace(a + t) == a + CollapseWhitespace(t)
    decreases |a|
  {
    if a != [] {
      var c, tail := a[0], a[1..];
      var u := tail + t;
      assert a == [c] + tail;
      JsText.ConcatAssoc([c], tail, t);
      assert JsText.NoWhitespace(tail) by {
        assert forall i :: 0 <= i < |tail| ==> tail[i] == a[i + 1];
      }
      CollapsePrefix(tail, t);
      CollapseKeeps(c, u);
      JsText.ConcatAssoc([c], tail, CollapseWhitespace(t));
      calc {
        CollapseWhitespace(a + t);
        CollapseWhitespace([c] + u);
        [c] + CollapseWhitespace(u);
        [c] + (tail + CollapseWhitespace(t));
      }
    } else {
      assert a + t == t;
    }
  }

  /** What is left has no white space and is no longer than the input; input without white space is kept. */
  lemma {:induction false} CollapseShape(s: string)
    ensures var r := CollapseWhitespace(s);
      JsText.NoWhitespace(r) && |r| <= |s| && (JsText.NoWhitespace(s) ==> r == s)
    decreases |s|
  {
    if s != [] {
      if JsText.IsWhitespace(s[0]) {
        var rest := JsText.TrimStart(s);
        CollapseShape(rest);
        assert CollapseWhitespace(s) == "_" + CollapseWhitespace(rest);
      } else {
        CollapseShape(s[1..]);
        assert CollapseWhitespace(s) == [s[0]] + CollapseWhitespace(s[1..]);
      }
    }
  }

  /** A leading character that is not white space is kept as it is. */
  lemma CollapseKeeps(c: char, t: string)
    requires !JsText.IsWhitespace(c)
    ensures CollapseWhitespace([c] + t) == [c] + CollapseWhitespace(t)
  {
    assert ([c] + t)[1..] == t;
  }

  /** A leading run of white space becomes one `_`. */
  lemma CollapseGap(gap: string, b: string)
    requires gap != [] && JsText.NoWhitespace(b)
    requires forall i :: 0 <= i < |gap| ==> JsText.IsWhitespace(gap[i])
    requires b == [] || !JsText.IsWhitespace(b[0])
    ensures CollapseWhitespace(gap + b) == "_" + b
  {
    TrimStartOfGap(gap, b);
    CollapseShape(b);
    assert JsText.IsWhitespace((gap + b)[0]);
    assert CollapseWhitespace(gap + b) == "_" + CollapseWhitespace(b);
  }

  lemma {:induction false} TrimStartOfGap(gap: string, b: string)
    requires forall i :: 0 <= i < |gap| ==> JsText.IsWhitespace(gap[i])
    requires b == [] || !JsText.IsWhitespace(b[0])
    ensures JsText.TrimStart(gap + b) == b
  {
    if gap != [] {
      assert (gap + b)[1..] == gap[1..] + b;
      TrimStartOfGap(gap[1..], b);
    } else {
      assert gap + b == b;
      JsText.TrimStartIdempotent(b);
    }
  }

  /** The waste type asked about: the first chosen type in lower case with white space runs as `_`, else mixed trash. */
  function WasteTypeFor(types: seq<string>): (t: string)
    ensures JsText.NoWhitespace(t)
    ensures types == [] ==> t == "mixed_trash"
    ensures types != [] ==> |t| <= |types[0]|
  {
    if types == [] then "mixed_trash"
    else
      CollapseShape(JsText.ToLower(types[0]));
      CollapseWhitespace(JsText.ToLower(types[0]))
  }

  /** "Plastic Bottles" lower-cased is two words of no white space around one space. */
  lemma LowerSample(s: string)
    requires s == "Plastic Bottles"
    ensures var r := JsText.ToLower(s);
      && |r| == 15 && JsText.IsWhitespace(r[7])
      && JsText.NoWhitespace(r[..7]) && JsText.NoWhitespace(r[8..])
      && r[..7] + "_" + r[8..] == "plastic_bottles"
  {
    var r := JsText.ToLower(s);
    var t := "plastic bottles";
    forall i | 0 <= i < |s| ensures r[i] == t[i] {
      assert r[i] == JsText.LowerChar(s[i]);
    }
    forall i | 0 <= i < 7 ensures !JsText.IsWhitespace(r[..7][i]) {
      assert 'a' <= t[i] <= 'z';
    }
    forall i | 0 <= i < 7 ensures !JsText.IsWhitespace(r[8..][i]) {
      assert 'a' <= t[i + 8] <= 'z';
    }
    assert r[..7] + "_" + r[8..] == "plastic_bottles";
  }

  /** Only the first chosen type counts: "Plastic Bottles" first asks about plastic_bottles. */
  lemma WasteTypeSample(first: string, rest: seq<string>)
    requires first == "Plastic Bottles"
    ensures WasteTypeFor([first] + rest) == "plastic_bottles"
  {
    LowerSample(first);
    var r := JsText.ToLower(first);
    var a, gap, b := r[..7], r[7..8], r[8..];
    assert r == a + gap + b;
    assert !JsText.IsWhitespace(b[0]);
    CollapseJoins(a, gap, b);
    assert ([first] + rest)[0] == first;
  }

  /** The body sent to the endpoint: the method, the waste type, and only the chosen method's fields. */
  function RequestBody(estimationMethod: string, wasteType: string, bagSize: string, bagCount: int,
                       volumeLength: real, volumeWidth: real, volumeHeight: real,
                       referenceObject: string): (req: EstimateWeight.EstimationRequest)
    ensures req.estimationMethod == estimationMethod && req.wasteType == wasteType
    ensures (req.bagSize.Some? || req.bagCount.Some?) <==> estimationMethod == "bag"
    ensures (req.volumeLength.Some? || req.volumeWidth.Some? || req.volumeHeight.Some?) <==> estimationMethod == "volume"
    ensures (req.photoUrl.Some? || req.referenceObject.Some?) <==> estimationMethod == "photo"
  {
    var bag := estimationMethod == "bag";
    var volume := estimationMethod == "volume";
    var photo := estimationMethod == "photo";
    EstimateWeight.EstimationRequest(
      estimationMethod, wasteType,
      if bag then Some(bagSize) else None,
      if bag then Some(bagCount as real) else None,
      if volume then Some(volumeLength) else None,
      if volume then Some(volumeWidth) else None,
      if volume then Some(volumeHeight) else None,
      if photo then Some("placeholder") else None,
      if photo then Some(referenceObject) else None)
  }

  /** The estimate button is enabled: not loading, and the bag size or reference object is chosen when the method needs it. */
  predicate EstimateEnabled(isLoading: bool, estimationMethod: string, bagSize: string, referenceObject: string) {
    !(isLoading || (estimationMethod == "bag" && bagSize == "") || (estimationMethod == "photo" && referenceObject == ""))
  }

  /** `Number.parseInt(input) || 1`: an unparsable entry (`None`) or 0 gives 1. */
  function BagCountInput(parsed: Option<int>): (count: int)
    ensures count != 0
    ensures JsNumber.IntTruthy(parsed) ==> count == parsed.value
    ensures !JsNumber.IntTruthy(parsed) ==> count == 1
  {
    JsNumber.IntOrElse(parsed, 1)
  }

  /**
   * With the button enabled and the count from the input, a bag request
   * always reaches the bag-size lookup: it fails exactly when the size has no
   * row, and never takes the endpoint's missing-input branch.
   */
  lemma EnabledBagReachesLookup(wasteType: string, bagSize: string, parsed: Option<int>,
                                l: real, w: real, h: real, referenceObject: string, tables: EstimateWeight.Tables)
    requires EstimateEnabled(false, "bag", bagSize, referenceObject)
    ensures var req := RequestBody("bag", wasteType, bagSize, BagCountInput(parsed), l, w, h, referenceObject);
      && (EstimateWeight.Post(req, tables).BadRequest? <==> tables.bagWeight(bagSize).None?)
      && (tables.bagWeight(bagSize).Some? ==>
            EstimateWeight.RawEstimate(req, tables).confidencePct in {60, 75})
  {
  }

  /** With the button enabled, a photo request always reaches the photo formula at 40% confidence. */
  lemma EnabledPhotoUsesFormula(wasteType: string, bagSize: string, bagCount: int,
                                l: real, w: real, h: real, referenceObject: string, tables: EstimateWeight.Tables)
    requires EstimateEnabled(false, "photo", bagSize, referenceObject)
    ensures var req := RequestBody("photo", wasteType, bagSize, bagCount, l, w, h, referenceObject);
      EstimateWeight.RawEstimate(req, tables).Estimate? && EstimateWeight.RawEstimate(req, tables).confidencePct == 40
  {
  }

  /** A bag-weight row as loaded, ordered by `avg_weight_kg`. */
  datatype BagWeight = BagWeight(bag_size: string, avg_weight_kg: real)

  /** The bag size chosen when the rows arrive: the first row's, if there is one. */
  function DefaultBagSize(rows: seq<BagWeight>): (size: Option<string>)
    ensures size.Some? <==> rows != []
  {
    if rows == [] then None else Some(rows[0].bag_size)
  }

  /** On rows ordered by average weight, the default is a lightest bag. */
  lemma DefaultIsLightest(rows: seq<BagWeight>)
    requires forall i, j :: 0 <= i < j < |rows| ==> rows[i].avg_weight_kg <= rows[j].avg_weight_kg
    requires rows != []
    ensures exists k :: (0 <= k < |rows| && DefaultBagSize(rows) == Some(rows[k].bag_size) &&
      forall j :: 0 <= j < |rows| ==> rows[k].avg_weight_kg <= rows[j].avg_weight_kg)
  {
    assert forall j :: 0 < j < |rows| ==> rows[0].avg_weight_kg <= rows[j].avg_weight_kg;
    assert DefaultBagSize(rows) == Some(rows[0].bag_size);
  }

  /** What "use this weight" hands back: the weight, the confidence and the method. */
  datatype Chosen = Chosen(weight: real, confidence: int, estimationMethod: string)

  /** `useThisWeight`: reports the current result, if there is one. */
  function UseThisWeight(result: Option<EstimateWeight.EstimationResponse>, estimationMethod: string): (chosen: Option<Chosen>)
    ensures chosen.Some? <==> result.Some? && result.value.Estimate?
    ensures chosen.Some? ==>
      && chosen.value.weight == result.value.weightKg
      && chosen.value.confidence == result.value.confidencePct
      && chosen.value.estimationMethod == estimationMethod
  {
    match result
    case Some(Estimate(w, c)) => Some(Chosen(w, c, estimationMethod))
    case _ => None
  }
}
