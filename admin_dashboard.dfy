/**
 * The data-collection dashboard (app/admin/data-collection/page.tsx): the
 * activity log grouped into one count per activity type, the summary totals
 * over the queued reports, the category badges of a report, and the average
 * weight per cleanup of a location.
 */
module AdminDashboard {
  import opened Wrappers
  import JsNumber
  import JsText

  datatype ActivityData = ActivityData(activity_type: string, count: nat)

  /** The fields of a queued report the dashboard sums. */
  datatype ReportData = ReportData(total_weight_kg: Option<real>, volunteer_count: Option<int>, waste_categories: seq<string>)

  /** The number of log rows of each type. */
  function Occurrences(items: seq<string>, t: string): (n: nat)
    ensures n <= |items|
    ensures n == 0 <==> t !in items
  {
    if items == [] then 0
    else Occurrences(items[..|items| - 1], t) + (if items[|items| - 1] == t then 1 else 0)
  }

  /** The summed counts of `keys` in `acc`. */
  function CountSum(keys: seq<string>, acc: map<string, nat>): nat
    requires forall k :: k in keys ==> k in acc
  {
    if keys == [] then 0 else CountSum(keys[..|keys| - 1], acc) + acc[keys[|keys| - 1]]
  }

  lemma {:induction false} CountSumAppend(keys: seq<string>, acc: map<string, nat>, k: string)
    requires forall x :: x in keys ==> x in acc
    requires k in acc
    ensures CountSum(keys + [k], acc) == CountSum(keys, acc) + acc[k]
  {
    assert (keys + [k])[..|keys|] == keys;
  }

  /** Raising one listed key's count by one raises the sum by one. */
  lemma {:induction false} CountSumBump(keys: seq<string>, acc: map<string, nat>, k: string)
    requires forall x :: x in keys ==> x in acc
    requires k in acc
    requires forall i, j :: 0 <= i < j < |keys| ==> keys[i] != keys[j]
    ensures CountSum(keys, acc[k := acc[k] + 1]) == CountSum(keys, acc) + (if k in keys then 1 else 0)
  {
    if keys != [] {
      var init := keys[..|keys| - 1];
      CountSumBump(init, acc, k);
      assert keys[|keys| - 1] !in init;
      assert k in keys <==> k in init || k == keys[|keys| - 1];
    }
  }

  /** The accumulator and key order after grouping the first `n` rows. */
  ghost predicate Grouped(items: seq<string>, n: nat, acc: map<string, nat>, order: seq<string>)
    requires n <= |items|
  {
    && (forall i, j :: 0 <= i < j < |order| ==> order[i] != order[j])
    && (forall t :: t in acc <==> t in order)
    && (forall t :: t in order <==> t in items[..n])
    && (forall t :: t in acc ==> acc[t] == Occurrences(items[..n], t))
    && CountSum(order, acc) == n
  }

  /** Adding row `n` to its existing type. */
  lemma GroupSeen(items: seq<string>, n: nat, acc: map<string, nat>, order: seq<string>)
    requires n < |items| && Grouped(items, n, acc, order) && items[n] in acc
    ensures Grouped(items, n + 1, acc[items[n] := acc[items[n]] + 1], order)
  {
    var t := items[n];
    assert items[..n + 1] == items[..n] + [t];
    CountSumBump(order, acc, t);
  }

  /** Adding row `n` as the first of a new type. */
  lemma GroupNew(items: seq<string>, n: nat, acc: map<string, nat>, order: seq<string>)
    requires n < |items| && Grouped(items, n, acc, order) && items[n] !in acc
    ensures Grouped(items, n + 1, acc[items[n] := 1], order + [items[n]])
  {
    var t := items[n];
    assert items[..n + 1] == items[..n] + [t];
    var acc' := acc[t := 1];
    CountSumSame(order, acc, acc');
    CountSumAppend(order, acc', t);
    assert Occurrences(items[..n + 1], t) == 1;
  }

  /**
   * The grouping `reduce`: an accumulator keyed by type, each row adding one
   * to its type; `Object.entries` then lists the types in the order they
   * were first met.
   */
  method GroupActivities(items: seq<string>) returns (activities: seq<ActivityData>)
    ensures forall i, j :: 0 <= i < j < |activities| ==> activities[i].activity_type != activities[j].activity_type
    ensures forall t :: t in items <==> exists i :: 0 <= i < |activities| && activities[i].activity_type == t
    ensures forall i :: 0 <= i < |activities| ==> activities[i].count == Occurrences(items, activities[i].activity_type)
    ensures CountTotal(activities) == |items|
  {
    var acc: map<string, nat> := map[];
    var order: seq<string> := [];
    var n := 0;
    while n < |items|
      invariant n <= |items| && Grouped(items, n, acc, order)
    {
      var t := items[n];
      if t in acc {
        GroupSeen(items, n, acc, order);
        acc := acc[t := acc[t] + 1];
      } else {
        GroupNew(items, n, acc, order);
        acc := acc[t := 1];
        order := order + [t];
      }
      n := n + 1;
    }
    assert items[..n] == items;
    activities := seq(|order|, i requires 0 <= i < |order| => ActivityData(order[i], acc[order[i]]));
    GroupedEntries(items, acc, order, activities);
  }

  /** The entries of a finished grouping, one per key in key order, have the properties the dashboard shows. */
  lemma GroupedEntries(items: seq<string>, acc: map<string, nat>, order: seq<string>, activities: seq<ActivityData>)
    requires Grouped(items, |items|, acc, order) && items[..|items|] == items
    requires |activities| == |order|
    requires forall i :: 0 <= i < |order| ==> activities[i] == ActivityData(order[i], acc[order[i]])
    ensures forall i, j :: 0 <= i < j < |activities| ==> activities[i].activity_type != activities[j].activity_type
    ensures forall t :: t in items <==> exists i :: 0 <= i < |activities| && activities[i].activity_type == t
    ensures forall i :: 0 <= i < |activities| ==> activities[i].count == Occurrences(items, activities[i].activity_type)
    ensures CountTotal(activities) == |items|
  {
    Totals(order, acc, activities);
    forall t | t in items ensures exists i :: 0 <= i < |activities| && activities[i].activity_type == t {
      var i :| 0 <= i < |order| && order[i] == t;
      assert activities[i].activity_type == t;
    }
  }

  lemma {:induction false} CountSumSame(keys: seq<string>, a: map<string, nat>, b: map<string, nat>)
    requires forall x :: x in keys ==> x in a && x in b && a[x] == b[x]
    ensures CountSum(keys, a) == CountSum(keys, b)
  {
    if keys != [] { CountSumSame(keys[..|keys| - 1], a, b); }
  }

  /** The counts shown, summed. */
  function CountTotal(activities: seq<ActivityData>): nat
  {
    if activities == [] then 0 else CountTotal(activities[..|activities| - 1]) + activities[|activities| - 1].count
  }

  lemma {:induction false} Totals(keys: seq<string>, acc: map<string, nat>, activities: seq<ActivityData>)
    requires forall k :: k in keys ==> k in acc
    requires |activities| == |keys|
    requires forall i :: 0 <= i < |keys| ==> activities[i] == ActivityData(keys[i], acc[keys[i]])
    ensures CountTotal(activities) == CountSum(keys, acc)
  {
    if keys != [] {
      Totals(keys[..|keys| - 1], acc, activities[..|activities| - 1]);
    }
  }

  /** The summary cards: number of reports, and summed weight and volunteers with missing values counted 0. */
  datatype Summary = Summary(totalReports: nat, totalWeight: real, totalVolunteers: int)

  function ReportWeights(reports: seq<ReportData>): (ws: seq<real>)
    ensures |ws| == |reports| && forall i :: 0 <= i < |reports| ==> ws[i] == JsNumber.OrElse(reports[i].total_weight_kg, 0.0)
  {
    seq(|reports|, i requires 0 <= i < |reports| => JsNumber.OrElse(reports[i].total_weight_kg, 0.0))
  }

  function ReportVolunteers(reports: seq<ReportData>): (vs: seq<int>)
    ensures |vs| == |reports| && forall i :: 0 <= i < |reports| ==> vs[i] == JsNumber.IntOrElse(reports[i].volunteer_count, 0)
  {
    seq(|reports|, i requires 0 <= i < |reports| => JsNumber.IntOrElse(reports[i].volunteer_count, 0))
  }

  function Summarize(reports: seq<ReportData>): (s: Summary)
    ensures s.totalReports == |reports|
    ensures s.totalWeight == JsNumber.Sum(ReportWeights(reports))
    ensures s.totalVolunteers == JsNumber.IntSum(ReportVolunteers(reports))
  {
    Summary(|reports|, JsNumber.Sum(ReportWeights(reports)), JsNumber.IntSum(ReportVolunteers(reports)))
  }

  /** A new report adds its own weight and volunteers, a missing value adding nothing. */
  lemma SummarizeAppend(reports: seq<ReportData>, r: ReportData)
    ensures Summarize(reports + [r]).totalReports == Summarize(reports).totalReports + 1
    ensures Summarize(reports + [r]).totalWeight == Summarize(reports).totalWeight + JsNumber.OrElse(r.total_weight_kg, 0.0)
    ensures Summarize(reports + [r]).totalVolunteers == Summarize(reports).totalVolunteers + JsNumber.IntOrElse(r.volunteer_count, 0)
  {
    assert ReportWeights(reports + [r]) == ReportWeights(reports) + [JsNumber.OrElse(r.total_weight_kg, 0.0)];
    JsNumber.SumAppend(ReportWeights(reports), JsNumber.OrElse(r.total_weight_kg, 0.0));
    var vs := ReportVolunteers(reports + [r]);
    assert vs[..|reports|] == ReportVolunteers(reports);
  }

  /** The badges of a report: the first three category types, then "+k more" for the rest. */
  datatype Badges = Badges(shown: seq<string>, more: Option<string>)

  function BadgesOf(types: seq<string>): (b: Badges)
    ensures |b.shown| == (if |types| < 3 then |types| else 3) && b.shown <= types
    ensures b.more.Some? <==> |types| > 3
    ensures b.more.Some? ==> b.more.value == "+" + JsText.NatToString(|types| - 3) + " more"
  {
    if |types| > 3 then Badges(types[..3], Some("+" + JsText.NatToString(|types| - 3) + " more"))
    else Badges(types, None)
  }

  /** A JavaScript quotient: a finite number, or the Infinity or NaN of a division by zero. */
  datatype Quotient = Finite(value: real) | NotFinite

  /** `total_weight_kg / total_cleanups`, with no guard against zero cleanups. */
  function AveragePerCleanup(totalWeight: real, totalCleanups: int): (q: Quotient)
    ensures q.NotFinite? <==> totalCleanups == 0
    ensures q.Finite? ==> q.value * totalCleanups as real == totalWeight
  {
    if totalCleanups == 0 then NotFinite else Finite(totalWeight / totalCleanups as real)
  }
}
