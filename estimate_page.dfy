/**
 * The stand-alone estimation page (app/estimate/page.tsx): the search over
 * the waste categories, the lookup of the chosen category, the request and
 * the saved row of an estimate, and the form reset after a save.
 */
module EstimatePage {
  import opened Wrappers
  import JsNumber
  import JsText
  import EstimateWeight
  import InlineEstimator

  /** A waste category of the category list: its EAL code, its name and the waste type the estimator knows. */
  datatype Category = Category(code: string, name: string, waste_type: string)

  /** The result shown after estimating. */
  datatype EstimationResult = EstimationResult(weightKg: real, confidencePct: int)

  /** The category's name or code contains the search term, ignoring case. */
  predicate Matches(c: Category, term: string) {
    var t := JsText.ToLower(term);
    JsText.Contains(JsText.ToLower(c.name), t) || JsText.Contains(JsText.ToLower(c.code), t)
  }

  /** `categories.filter(...)`: the matching categories, in their order. */
  function FilterCategories(cs: seq<Category>, term: string): (r: seq<Category>)
    ensures |r| <= |cs|
    ensures forall c :: c in r <==> c in cs && Matches(c, term)
  {
    if cs == [] then []
    else
      var init := FilterCategories(cs[..|cs| - 1], term);
      var last := cs[|cs| - 1];
      assert cs == cs[..|cs| - 1] + [last];
      if Matches(last, term) then init + [last] else init
  }

  /** Filtering a joined list filters each part: the kept categories stay in their order, each as often as before. */
  lemma {:induction false} FilterAppend(a: seq<Category>, b: seq<Category>, term: string)
    ensures FilterCategories(a + b, term) == FilterCategories(a, term) + FilterCategories(b, term)
    decreases |b|
  {
    if b == [] {
      assert a + b == a;
    } else {
      var init, last := b[..|b| - 1], b[|b| - 1];
      assert a + b == (a + init) + [last];
      assert (a + b)[..|a + b| - 1] == a + init;
      FilterAppend(a, init, term);
      if Matches(last, term) {
        assert FilterCategories(a, term) + FilterCategories(init, term) + [last] == FilterCategories(a, term) + (FilterCategories(init, term) + [last]);
      }
    }
  }

  /** An empty search keeps every category, in order. */
  lemma {:induction false} EmptySearchKeepsAll(cs: seq<Category>)
    ensures FilterCategories(cs, "") == cs
  {
    if cs != [] {
      var last := cs[|cs| - 1];
      assert JsText.ToLower("") == "";
      assert JsText.ToLower(last.name)[..0] == "";
      EmptySearchKeepsAll(cs[..|cs| - 1]);
      assert cs == cs[..|cs| - 1] + [last];
    }
  }

  /** The search ignores the case of the term. */
  lemma {:induction false} SearchIgnoresCase(cs: seq<Category>, term: string)
    ensures FilterCategories(cs, JsText.ToLower(term)) == FilterCategories(cs, term)
  {
    JsText.ToLowerIdempotent(term);
    if cs != [] {
      SearchIgnoresCase(cs[..|cs| - 1], term);
    }
  }

  /** `categories.find((cat) => cat.code === selected)`: the first category with that code. */
  function Find(cs: seq<Category>, code: string): (r: Option<Category>)
    ensures r.None? <==> forall i :: 0 <= i < |cs| ==> cs[i].code != code
    ensures r.Some? ==> exists k :: (0 <= k < |cs| && cs[k] == r.value && cs[k].code == code &&
      forall i :: 0 <= i < k ==> cs[i].code != code)
  {
    if cs == [] then None
    else if cs[0].code == code then (assert cs[0] == cs[0]; Some(cs[0]))
    else
      var r := Find(cs[1..], code);
      if r.Some? then
        var k :| 0 <= k < |cs[1..]| && cs[1..][k] == r.value && cs[1..][k].code == code &&
          forall i :: 0 <= i < k ==> cs[1..][i].code != code;
        assert cs[k + 1] == r.value;
        assert forall i :: 0 <= i < k + 1 ==> cs[i].code != code by {
          forall i | 0 <= i < k + 1 ensures cs[i].code != code {
            if i > 0 { assert cs[i] == cs[1..][i - 1]; }
          }
        }
        r
      else r
  }

  /** `Number.parseFloat(input) || null`: an unparsable entry (`None`) or 0 clears the override. */
  function OverrideInput(parsed: Option<real>): (o: Option<real>)
    ensures o.None? <==> !JsNumber.Truthy(parsed)
    ensures o.Some? ==> o == parsed && o.value != 0.0
  {
    if JsNumber.Truthy(parsed) then parsed else None
  }

  /** The `waste_pickup` row a save inserts. */
  datatype PickupRow = PickupRow(
    user_id: string,
    eal_code: string,
    waste_type: string,
    estimation_method: string,
    estimated_weight_kg: real,
    confidence_pct: int,
    bag: Option<(string, int)>,
    volume: Option<(real, real, real)>,
    reference_object: Option<string>,
    manual_override_kg: Option<real>)

  /** The row for a result: the override wins when truthy, and only the method's own fields are set. */
  function PickupRowFor(userId: string, selectedCategory: string, category: Category, estimationMethod: string,
                        result: EstimationResult, manualOverride: Option<real>,
                        bagSize: string, bagCount: int, l: real, w: real, h: real, referenceObject: string): (row: PickupRow)
    ensures row.estimated_weight_kg == (if JsNumber.Truthy(manualOverride) then manualOverride.value else result.weightKg)
    ensures row.manual_override_kg.Some? <==> JsNumber.Truthy(manualOverride)
    ensures row.manual_override_kg.Some? ==> row.manual_override_kg == manualOverride
    ensures row.confidence_pct == result.confidencePct && row.eal_code == selectedCategory
    ensures row.bag.Some? <==> estimationMethod == "bag"
    ensures row.volume.Some? <==> estimationMethod == "volume"
    ensures row.reference_object.Some? <==> estimationMethod == "photo"
  {
    PickupRow(userId, selectedCategory, category.waste_type, estimationMethod,
      JsNumber.OrElse(manualOverride, result.weightKg), result.confidencePct,
      if estimationMethod == "bag" then Some((bagSize, bagCount)) else None,
      if estimationMethod == "volume" then Some((l, w, h)) else None,
      if estimationMethod == "photo" then Some(referenceObject) else None,
      if JsNumber.Truthy(manualOverride) then manualOverride else None)
  }

  /** The page's form state. */
  class EstimateForm {
    var selectedCategory: string
    var estimationMethod: string
    var bagSize: string
    var bagCount: int
    var volumeLength: real
    var volumeWidth: real
    var volumeHeight: real
    var referenceObject: string
    var result: Option<EstimationResult>
    var manualOverride: Option<real>

    constructor ()
      ensures selectedCategory == "" && estimationMethod == "bag" && bagSize == "" && bagCount == 1
      ensures volumeLength == 1.0 && volumeWidth == 1.0 && volumeHeight == 1.0 && referenceObject == ""
      ensures result.None? && manualOverride.None?
    {
      selectedCategory, estimationMethod, bagSize, bagCount := "", "bag", "", 1;
      volumeLength, volumeWidth, volumeHeight, referenceObject := 1.0, 1.0, 1.0, "";
      result, manualOverride := None, None;
    }

    /** The request `estimateWeight` sends, or `None` when no listed category is selected (it then does nothing). */
    function EstimateRequest(categories: seq<Category>): (req: Option<EstimateWeight.EstimationRequest>)
      reads this
      ensures req.None? <==> Find(categories, selectedCategory).None?
      ensures req.Some? ==> (req.value.wasteType == Find(categories, selectedCategory).value.waste_type
        && req.value.estimationMethod == estimationMethod)
    {
      match Find(categories, selectedCategory)
      case None => None
      case Some(c) =>
        Some(InlineEstimator.RequestBody(estimationMethod, c.waste_type, bagSize, bagCount,
          volumeLength, volumeWidth, volumeHeight, referenceObject))
    }

    /** `saveEstimation` goes past its guard: a user, a result and a listed category. */
    predicate CanSave(user: Option<string>, categories: seq<Category>)
      reads this
    {
      user.Some? && result.Some? && Find(categories, selectedCategory).Some?
    }

    /**
     * `saveEstimation`: past the guard it builds the row and inserts it; when
     * the insert succeeds the result, the override and the selection are
     * cleared, so the same estimate cannot be saved twice.
     */
    method SaveEstimation(user: Option<string>, categories: seq<Category>, insertFails: bool) returns (row: Option<PickupRow>)
      modifies this
      ensures !old(CanSave(user, categories)) ==> row.None? && unchanged(this)
      ensures old(CanSave(user, categories)) ==> row == Some(PickupRowFor(user.value, old(selectedCategory),
        Find(categories, old(selectedCategory)).value, estimationMethod, old(result).value, old(manualOverride),
        bagSize, bagCount, volumeLength, volumeWidth, volumeHeight, referenceObject))
      ensures old(CanSave(user, categories)) && !insertFails ==>
        result.None? && manualOverride.None? && selectedCategory == "" && !CanSave(user, categories)
      ensures old(CanSave(user, categories)) && insertFails ==> unchanged(this)
      ensures estimationMethod == old(estimationMethod) && bagSize == old(bagSize) && bagCount == old(bagCount)
      ensures volumeLength == old(volumeLength) && volumeWidth == old(volumeWidth) && volumeHeight == old(volumeHeight)
      ensures referenceObject == old(referenceObject)
    {
      if user.None? || result.None? {
        return None;
      }
      var category := Find(categories, selectedCategory);
      if category.None? {
        return None;
      }
      row := Some(PickupRowFor(user.value, selectedCategory, category.value, estimationMethod, result.value,
        manualOverride, bagSize, bagCount, volumeLength, volumeWidth, volumeHeight, referenceObject));
      if !insertFails {
        result := None;
        manualOverride := None;
        selectedCategory := "";
      }
    }
  }
}
