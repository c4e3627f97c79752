/**
 * The logic of the post-creation page (app/create/page.tsx): the points a
 * post earns, the weight it records, the even split of that weight over the
 * chosen waste types, the waste-type toggle and submit condition of the form,
 * and the records queued when the post is made offline.
 */
module CreatePage {
  import opened Wrappers
  import JsNumber
  import JsText
  import OfflineSync
  import DataCollection

  const MinPoints := 5
  const MaxPoints := 50

  /** `Math.min(Math.max(Math.floor((finalWeight || 1) * 2), 5), 50)`. */
  function Points(finalWeight: Option<real>): (points: int)
    ensures MinPoints <= points <= MaxPoints
    ensures !JsNumber.Truthy(finalWeight) ==> points == MinPoints
  {
    var raw := JsNumber.Floor(JsNumber.OrElse(finalWeight, 1.0) * 2.0);
    if raw < MinPoints then MinPoints else if raw > MaxPoints then MaxPoints else raw
  }

  /** Between the two caps a post earns two points per whole half-kilo, rounded down. */
  lemma PointsBetweenCaps(w: real)
    requires 2.5 <= w < 25.5
    ensures Points(Some(w)) == JsNumber.Floor(w * 2.0)
  {
  }

  /** A heavier post never earns fewer points. */
  lemma PointsMonotone(v: real, w: real)
    requires 0.0 < v <= w
    ensures Points(Some(v)) <= Points(Some(w))
  {
    assert JsNumber.Floor(v * 2.0) <= JsNumber.Floor(w * 2.0);
  }

  /**
   * `finalWeight`: the estimator's weight when it is in use, otherwise the
   * parsed manual weight, where 0 and an unparsable entry (`None`) give null.
   */
  function FinalWeight(useEstimator: bool, estimated: Option<real>, manual: Option<real>): (w: Option<real>)
    ensures useEstimator ==> w == estimated
    ensures !useEstimator ==> (w.Some? <==> JsNumber.Truthy(manual)) && (w.Some? ==> w == manual)
  {
    if useEstimator then estimated
    else if JsNumber.Truthy(manual) then manual
    else None
  }

  /** The report's categories: one per chosen type, in order, each carrying an equal share of a truthy weight. */
  function WasteCategories(types: seq<string>, finalWeight: Option<real>): (cs: seq<DataCollection.ReportCategory>)
    ensures |cs| == |types|
    ensures forall i :: 0 <= i < |types| ==> cs[i].wasteType == types[i] && cs[i].unit == DataCollection.Kg
    ensures forall i :: 0 <= i < |types| ==>
      cs[i].weight == (if JsNumber.Truthy(finalWeight) then Some(finalWeight.value / |types| as real) else None)
  {
    seq(|types|, i requires 0 <= i < |types| =>
      DataCollection.ReportCategory(types[i], None, None,
        if JsNumber.Truthy(finalWeight) then Some(finalWeight.value / |types| as real) else None,
        None, DataCollection.Kg))
  }

  function StoredWeights(ss: seq<DataCollection.StoredCategory>): (ws: seq<real>)
    ensures |ws| == |ss| && forall i :: 0 <= i < |ss| ==> ws[i] == ss[i].weight_kg
  {
    seq(|ss|, i requires 0 <= i < |ss| => ss[i].weight_kg)
  }

  lemma {:induction false} SumOfShares(n: nat, share: real)
    ensures JsNumber.Sum(seq(n, _ => share)) == n as real * share
  {
    if n > 0 {
      var xs := seq(n, _ => share);
      assert xs[..n - 1] == seq(n - 1, _ => share);
      SumOfShares(n - 1, share);
    }
  }

  /**
   * Once stored (undefined weights becoming 0), the category weights add up
   * to the post's weight when there is one, and to 0 when there is none.
   */
  lemma SplitAddsUp(types: seq<string>, finalWeight: Option<real>)
    requires types != []
    ensures JsNumber.Sum(StoredWeights(DataCollection.StoreCategories(WasteCategories(types, finalWeight))))
      == JsNumber.OrElse(finalWeight, 0.0)
  {
    var n := |types|;
    var share := if JsNumber.Truthy(finalWeight) then finalWeight.value / n as real else 0.0;
    var ws := StoredWeights(DataCollection.StoreCategories(WasteCategories(types, finalWeight)));
    assert ws == seq(n, _ => share);
    SumOfShares(n, share);
  }

  /** `prev.filter((id) => id !== x)`. */
  function Remove(s: seq<string>, x: string): (r: seq<string>)
    ensures x !in r && |r| <= |s|
    ensures forall y :: y in r <==> y in s && y != x
    ensures x !in s ==> r == s
  {
    if s == [] then []
    else if s[|s| - 1] == x then Remove(s[..|s| - 1], x)
    else Remove(s[..|s| - 1], x) + [s[|s| - 1]]
  }

  /** Removing from a joined list removes from each part: the kept types stay in their order, each as often as before. */
  lemma {:induction false} RemoveAppend(a: seq<string>, b: seq<string>, x: string)
    ensures Remove(a + b, x) == Remove(a, x) + Remove(b, x)
    decreases |b|
  {
    if b == [] {
      assert a + b == a;
    } else {
      var init, last := b[..|b| - 1], b[|b| - 1];
      assert a + b == (a + init) + [last];
      assert (a + b)[..|a + b| - 1] == a + init;
      RemoveAppend(a, init, x);
      if last != x {
        JsText.ConcatAssoc(Remove(a, x), Remove(init, x), [last]);
      }
    }
  }

  /** The waste-type button: a chosen type is removed, another is appended at the end. */
  function Toggled(s: seq<string>, x: string): (r: seq<string>)
    ensures x in r <==> x !in s
    ensures forall y :: y != x ==> (y in r <==> y in s)
    ensures x !in s ==> r == s + [x]
  {
    if x in s then Remove(s, x) else s + [x]
  }

  /** Choosing a type and then un-choosing it restores the list exactly. */
  lemma ToggleTwice(s: seq<string>, x: string)
    requires x !in s
    ensures Toggled(Toggled(s, x), x) == s
  {
    assert (s + [x])[..|s|] == s;
  }

  /** No type is listed twice. */
  predicate Distinct(s: seq<string>) {
    forall i, j :: 0 <= i < j < |s| ==> s[i] != s[j]
  }

  lemma DistinctAppend(s: seq<string>, y: string)
    requires Distinct(s) && y !in s
    ensures Distinct(s + [y])
  {
    forall i, j | 0 <= i < j < |s| + 1 ensures (s + [y])[i] != (s + [y])[j] {
      if j == |s| { assert (s + [y])[i] == s[i]; }
    }
  }

  lemma {:induction false} RemoveDistinct(s: seq<string>, x: string)
    requires Distinct(s)
    ensures Distinct(Remove(s, x))
  {
    if s != [] {
      var init, last := s[..|s| - 1], s[|s| - 1];
      assert Distinct(init);
      RemoveDistinct(init, x);
      if last != x {
        assert last !in init;
        DistinctAppend(Remove(init, x), last);
      }
    }
  }

  /** Toggling keeps the list free of repeats. */
  lemma ToggleDistinct(s: seq<string>, x: string)
    requires Distinct(s)
    ensures Distinct(Toggled(s, x))
  {
    if x in s { RemoveDistinct(s, x); } else { DistinctAppend(s, x); }
  }

  /** The form fields the submit button depends on. */
  class CreateForm {
    var hasImage: bool
    var caption: string
    var location: string
    var selectedWasteTypes: seq<string>
    var isSubmitting: bool

    constructor ()
      ensures !hasImage && caption == "" && location == "" && selectedWasteTypes == [] && !isSubmitting
    {
      hasImage, caption, location, selectedWasteTypes, isSubmitting := false, "", "", [], false;
    }

    /** The submit button is enabled. */
    predicate CanSubmit()
      reads this
    {
      hasImage && caption != "" && location != "" && |selectedWasteTypes| != 0 && !isSubmitting
    }

    /** The handler of a waste-type button. */
    method ToggleWasteType(x: string)
      modifies this
      ensures selectedWasteTypes == Toggled(old(selectedWasteTypes), x)
      ensures hasImage == old(hasImage) && caption == old(caption) && location == old(location)
      ensures isSubmitting == old(isSubmitting)
    {
      if x in selectedWasteTypes {
        selectedWasteTypes := Remove(selectedWasteTypes, x);
      } else {
        selectedWasteTypes := selectedWasteTypes + [x];
      }
    }
  }

  /** Choosing a first type enables submit on an otherwise complete form, and un-choosing the only type disables it. */
  lemma ToggleAndSubmit(s: seq<string>, x: string, hasImage: bool, caption: string, location: string)
    requires hasImage && caption != "" && location != ""
    ensures s == [] ==> |Toggled(s, x)| != 0
    ensures s == [x] ==> Toggled(s, x) == []
  {
    if s == [x] {
      assert s[..0] == [];
    }
  }

  /** The post row written online. */
  datatype PostRow = PostRow(
    id: string, user_id: string, caption: string, image_url: string, location: string,
    waste_type: seq<string>, estimated_weight: Option<real>, points_earned: int)

  function OnlineRow(postId: string, userId: string, caption: string, imageUrl: string, location: string,
                     types: seq<string>, finalWeight: Option<real>): (row: PostRow)
    ensures row.id == postId && row.image_url == imageUrl && row.estimated_weight == finalWeight
    ensures row.points_earned == Points(finalWeight)
  {
    PostRow(postId, userId, caption, imageUrl, location, types, finalWeight, Points(finalWeight))
  }

  /** What is queued offline: the post under its id, and its image under `img_<id>` named `<id>.webp`. */
  datatype OfflineEntries = OfflineEntries(postId: string, post: OfflineSync.Post, imageId: string, image: OfflineSync.ImageFile)

  function Offline(postId: string, userId: string, caption: string, location: string,
                   types: seq<string>, finalWeight: Option<real>, createdAt: string): (e: OfflineEntries)
    ensures e.postId == postId && e.imageId == "img_" + postId && e.image.filename == postId + ".webp"
    ensures e.post.image_url == "offline_" + postId && e.post.points_earned == Points(finalWeight)
  {
    OfflineEntries(postId,
      OfflineSync.Post(userId, caption, "offline_" + postId, Some(location), types, finalWeight, Points(finalWeight), createdAt),
      "img_" + postId,
      OfflineSync.ImageFile(postId + ".webp", userId, createdAt))
  }

  /** Online and offline, a post earns the same points. */
  lemma OnlineOfflineSamePoints(postId: string, userId: string, caption: string, imageUrl: string, location: string,
                                types: seq<string>, finalWeight: Option<real>, createdAt: string)
    ensures OnlineRow(postId, userId, caption, imageUrl, location, types, finalWeight).points_earned
         == Offline(postId, userId, caption, location, types, finalWeight, createdAt).post.points_earned
  {
  }

  /** Offline, the image's id and file name never equal the post's id. */
  lemma OfflineImageNaming(postId: string)
    ensures "img_" + postId != postId && postId + ".webp" != postId
  {
    assert |"img_" + postId| == |postId| + 4;
    assert |postId + ".webp"| == |postId| + 5;
  }

  /** The offline image's file name has the extension `webp`, which is what an upload of it keeps. */
  lemma OfflineImageExtension(postId: string)
    ensures JsText.AfterLast(postId + ".webp", '.') == "webp"
  {
    var ext := "webp";
    assert ['.'] + ext == ".webp";
    assert '.' !in ext by {
      assert forall i :: 0 <= i < |ext| ==> 'a' <= ext[i] <= 'z';
    }
    JsText.ConcatAssoc(postId, ['.'], ext);
    JsText.AfterLastSplit(postId, '.', ext);
  }
}
