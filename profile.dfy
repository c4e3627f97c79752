/**
 * The profile page (app/profile/page.tsx): the level ladder and the progress
 * towards the next level, and the statistics over the user's own posts
 * (total weight, distinct places, average points), and removing a deleted
 * post from the list.
 */
module Profile {
  import opened Wrappers
  import JsNumber
  import Leaderboard

  /** The fields of a post the page computes with. */
  datatype ProfilePost = ProfilePost(id: string, location: Option<string>, estimated_weight: Option<real>, points_earned: int)

  datatype LevelInfo = LevelInfo(name: string, color: string, nextLevel: Option<int>)

  const Levels: map<int, LevelInfo> := map[
    1 := LevelInfo("Nybegynner", "bg-gray-500", Some(50)),
    2 := LevelInfo("Samler", "bg-green-500", Some(200)),
    3 := LevelInfo("Helt", "bg-blue-500", Some(500)),
    4 := LevelInfo("Mester", "bg-purple-500", Some(1000)),
    5 := LevelInfo("Legende", "bg-yellow-500", None)]

  /** `getLevelInfo`: the level's entry, level 1's for any other level. */
  function LevelInfoOf(level: int): (info: LevelInfo)
    ensures 1 <= level <= 5 ==> info == Levels[level]
    ensures !(1 <= level <= 5) ==> info == Levels[1]
  {
    if level in Levels then Levels[level] else Levels[1]
  }

  /** The thresholds rise with the level, the top level has none, and the names agree with the leaderboard's. */
  lemma LevelLadder(level: int)
    ensures LevelInfoOf(level).nextLevel.None? <==> level == 5
    ensures 1 <= level < 4 ==> LevelInfoOf(level).nextLevel.value < LevelInfoOf(level + 1).nextLevel.value
    ensures LevelInfoOf(level).nextLevel.Some? ==> LevelInfoOf(level).nextLevel.value in {50, 200, 500, 1000}
    ensures LevelInfoOf(level).name == Leaderboard.LevelInfoOf(level).name
    ensures LevelInfoOf(level).color == Leaderboard.LevelInfoOf(level).color
  {
  }

  /** The width of the progress bar in percent, shown only when there is a next level. */
  function Progress(points: int, nextLevel: Option<int>): (width: Option<real>)
    requires nextLevel.Some? ==> nextLevel.value > 0
    ensures width.Some? <==> nextLevel.Some?
    ensures width.Some? ==> width.value <= 100.0
    ensures width.Some? && points >= nextLevel.value ==> width.value == 100.0
    ensures width.Some? && points < nextLevel.value ==> width.value == (points as real / nextLevel.value as real) * 100.0
  {
    match nextLevel
    case None => None
    case Some(next) => Some(JsNumber.Min((points as real / next as real) * 100.0, 100.0))
  }

  /** Every level's progress bar is well defined. */
  lemma ProgressDefined(level: int, points: int)
    ensures var next := LevelInfoOf(level).nextLevel; next.Some? ==> next.value > 0
  {
  }

  function Weights(posts: seq<ProfilePost>): (ws: seq<Option<real>>)
    ensures |ws| == |posts| && forall i :: 0 <= i < |posts| ==> ws[i] == posts[i].estimated_weight
  {
    seq(|posts|, i requires 0 <= i < |posts| => posts[i].estimated_weight)
  }

  /** `getTotalWeight`: the summed weights, posts without one counting 0, as on the leaderboard. */
  function TotalWeight(posts: seq<ProfilePost>): (total: real)
  {
    Leaderboard.TotalWeight(Weights(posts))
  }

  /** Deleting a post never raises the total, when weights are not negative. */
  lemma {:induction false} TotalWeightDelete(posts: seq<ProfilePost>, postId: string)
    requires forall i :: 0 <= i < |posts| ==> posts[i].estimated_weight.None? || posts[i].estimated_weight.value >= 0.0
    ensures 0.0 <= TotalWeight(DeletePost(posts, postId)) <= TotalWeight(posts)
  {
    if posts != [] {
      var init := posts[..|posts| - 1];
      var last := posts[|posts| - 1];
      assert posts == init + [last];
      TotalWeightDelete(init, postId);
      var kept := DeletePost(init, postId);
      WeightsAppend(init, last);
      Leaderboard.TotalWeightAppend(Weights(init), last.estimated_weight);
      if last.id != postId {
        assert DeletePost(posts, postId) == kept + [last];
        WeightsAppend(kept, last);
        Leaderboard.TotalWeightAppend(Weights(kept), last.estimated_weight);
      } else {
        assert DeletePost(posts, postId) == kept;
      }
    } else {
      assert Weights(posts) == [];
    }
  }

  /** Appending a post appends its weight. */
  lemma WeightsAppend(posts: seq<ProfilePost>, p: ProfilePost)
    ensures Weights(posts + [p]) == Weights(posts) + [p.estimated_weight]
  {
    assert forall i :: 0 <= i < |posts| ==> (posts + [p])[i] == posts[i];
  }

  /** The truthy locations of the posts. */
  ghost function LocationSet(posts: seq<ProfilePost>): set<string>
  {
    set i | 0 <= i < |posts| && posts[i].location.Some? && posts[i].location.value != "" :: posts[i].location.value
  }

  /** The location is truthy and no earlier post has it. */
  predicate FirstAt(posts: seq<ProfilePost>, k: int)
    requires 0 <= k < |posts|
  {
    var l := posts[k].location;
    l.Some? && l.value != "" && forall i :: 0 <= i < k ==> posts[i].location != l
  }

  /** `new Set(locations).size`: counts each truthy location at its first post. */
  function UniqueLocations(posts: seq<ProfilePost>): (n: nat)
    ensures n <= |posts|
  {
    if posts == [] then 0
    else UniqueLocations(posts[..|posts| - 1]) + (if FirstAt(posts, |posts| - 1) then 1 else 0)
  }

  /** The count is the number of distinct truthy locations. */
  lemma {:induction false} UniqueLocationsIsSetSize(posts: seq<ProfilePost>)
    ensures UniqueLocations(posts) == |LocationSet(posts)|
  {
    if posts != [] {
      var init := posts[..|posts| - 1];
      var l := posts[|posts| - 1].location;
      UniqueLocationsIsSetSize(init);
      assert forall k :: 0 <= k < |init| ==> init[k] == posts[k];
      if l.Some? && l.value != "" {
        assert LocationSet(posts) == LocationSet(init) + {l.value};
        if FirstAt(posts, |posts| - 1) {
          assert l.value !in LocationSet(init);
        } else {
          var i :| 0 <= i < |posts| - 1 && posts[i].location == l;
          assert l.value in LocationSet(init);
        }
      } else {
        assert LocationSet(posts) == LocationSet(init);
      }
    }
  }

  /** The average points per post, rounded half up, or 0 without posts. */
  function AveragePoints(points: int, postCount: nat): (avg: int)
    ensures postCount == 0 ==> avg == 0
    ensures postCount > 0 ==>
      points as real / postCount as real - 0.5 < avg as real <= points as real / postCount as real + 0.5
  {
    if postCount > 0 then JsNumber.Round(points as real / postCount as real) else 0
  }

  /** `handleDeletePost`: the posts without that id, in their order. */
  function DeletePost(posts: seq<ProfilePost>, postId: string): (r: seq<ProfilePost>)
    ensures |r| <= |posts|
    ensures forall p :: p in r <==> p in posts && p.id != postId
  {
    if posts == [] then []
    else
      var init := DeletePost(posts[..|posts| - 1], postId);
      var last := posts[|posts| - 1];
      assert posts == posts[..|posts| - 1] + [last];
      if last.id != postId then init + [last] else init
  }

  /** Deleting from a joined list deletes from each part: the kept posts stay in their order, each as often as before. */
  lemma {:induction false} DeleteAppend(a: seq<ProfilePost>, b: seq<ProfilePost>, postId: string)
    ensures DeletePost(a + b, postId) == DeletePost(a, postId) + DeletePost(b, postId)
    decreases |b|
  {
    if b == [] {
      assert a + b == a;
    } else {
      var init, last := b[..|b| - 1], b[|b| - 1];
      assert a + b == (a + init) + [last];
      assert (a + b)[..|a + b| - 1] == a + init;
      DeleteAppend(a, init, postId);
      if last.id != postId {
        assert DeletePost(a, postId) + DeletePost(init, postId) + [last] == DeletePost(a, postId) + (DeletePost(init, postId) + [last]);
      }
    }
  }

  /** Deleting an id no post has changes nothing; deleting twice is deleting once. */
  lemma {:induction false} DeleteAbsent(posts: seq<ProfilePost>, postId: string)
    requires forall i :: 0 <= i < |posts| ==> posts[i].id != postId
    ensures DeletePost(posts, postId) == posts
  {
    if posts != [] {
      DeleteAbsent(posts[..|posts| - 1], postId);
      assert posts == posts[..|posts| - 1] + [posts[|posts| - 1]];
    }
  }

  lemma DeleteIdempotent(posts: seq<ProfilePost>, postId: string)
    ensures DeletePost(DeletePost(posts, postId), postId) == DeletePost(posts, postId)
  {
    var r := DeletePost(posts, postId);
    assert forall i :: 0 <= i < |r| ==> r[i] in r;
    DeleteAbsent(r, postId);
  }
}
