/**
 * The leaderboard page (app/leaderboard/page.tsx): profiles with their posts
 * become rows with a post count and a total weight; each tab orders the rows
 * (points as served, weight and posts sorted descending); the signed-in
 * user's rank is looked up, and ranks and levels are given their badges.
 */
module Leaderboard {
  import opened Wrappers
  import JsNumber

  /** A profile as fetched, with the `estimated_weight` of each of its posts. */
  datatype ProfileRow = ProfileRow(
    id: string, username: string, full_name: Option<string>, avatar_url: Option<string>,
    points: int, level: int, posts: seq<Option<real>>)

  datatype LeaderboardUser = LeaderboardUser(
    id: string, username: string, full_name: Option<string>, avatar_url: Option<string>,
    points: int, level: int, post_count: nat, total_weight: real)

  datatype Tab = PointsTab | WeightTab | PostsTab

  /** `posts.reduce((sum, post) => sum + (post.estimated_weight || 0), 0)`. */
  function TotalWeight(posts: seq<Option<real>>): (total: real)
  {
    if posts == [] then 0.0 else TotalWeight(posts[..|posts| - 1]) + JsNumber.OrElse(posts[|posts| - 1], 0.0)
  }

  /** A new post adds its weight, and nothing when it has none. */
  lemma TotalWeightAppend(posts: seq<Option<real>>, w: Option<real>)
    ensures TotalWeight(posts + [w]) == TotalWeight(posts) + (if w.Some? then w.value else 0.0)
  {
    assert (posts + [w])[..|posts|] == posts;
  }

  /** With no negative weights the total is at least each post's weight, and posts without a weight count 0. */
  lemma {:induction false} TotalWeightBounds(posts: seq<Option<real>>)
    requires forall i :: 0 <= i < |posts| ==> posts[i].None? || posts[i].value >= 0.0
    ensures TotalWeight(posts) >= 0.0
    ensures (forall i :: 0 <= i < |posts| ==> posts[i].None?) ==> TotalWeight(posts) == 0.0
    ensures forall i :: 0 <= i < |posts| && posts[i].Some? ==> TotalWeight(posts) >= posts[i].value
  {
    if posts != [] {
      var init := posts[..|posts| - 1];
      TotalWeightBounds(init);
      forall i | 0 <= i < |posts| && posts[i].Some? ensures TotalWeight(posts) >= posts[i].value {
        if i < |init| {
          assert posts[i] == init[i];
        }
      }
    }
  }

  /** The row of one profile. */
  function Process(p: ProfileRow): (u: LeaderboardUser)
    ensures u.id == p.id && u.points == p.points && u.level == p.level
    ensures u.post_count == |p.posts| && u.total_weight == TotalWeight(p.posts)
  {
    LeaderboardUser(p.id, p.username, p.full_name, p.avatar_url, p.points, p.level, |p.posts|, TotalWeight(p.posts))
  }

  function ProcessAll(ps: seq<ProfileRow>): (us: seq<LeaderboardUser>)
    ensures |us| == |ps| && forall i :: 0 <= i < |ps| ==> us[i] == Process(ps[i])
  {
    seq(|ps|, i requires 0 <= i < |ps| => Process(ps[i]))
  }

  /** The value a tab sorts by. */
  function Key(tab: Tab, u: LeaderboardUser): real
  {
    match tab
    case PointsTab => u.points as real
    case WeightTab => u.total_weight
    case PostsTab => u.post_count as real
  }

  predicate SortedDescending(tab: Tab, us: seq<LeaderboardUser>) {
    forall i, j :: 0 <= i < j < |us| ==> Key(tab, us[i]) >= Key(tab, us[j])
  }

  /** Puts `x` before the first row whose key is at most its own: after every row with a strictly larger key, before the equal ones. */
  function Insert(tab: Tab, x: LeaderboardUser, us: seq<LeaderboardUser>): (r: seq<LeaderboardUser>)
    ensures multiset(r) == multiset(us) + multiset{x}
    ensures |r| == |us| + 1
  {
    if us == [] then [x]
    else if Key(tab, x) >= Key(tab, us[0]) then [x] + us
    else
      assert us == [us[0]] + us[1..];
      [us[0]] + Insert(tab, x, us[1..])
  }

  /** Ties keep their order: `x`, coming first, goes before every row with an equal key. */
  function SortBy(tab: Tab, us: seq<LeaderboardUser>): (r: seq<LeaderboardUser>)
    ensures |r| == |us|
  {
    if us == [] then [] else Insert(tab, us[0], SortBy(tab, us[1..]))
  }

  lemma {:induction false} InsertSorted(tab: Tab, x: LeaderboardUser, us: seq<LeaderboardUser>)
    requires SortedDescending(tab, us)
    ensures SortedDescending(tab, Insert(tab, x, us))
    ensures Insert(tab, x, us) != [] && (Insert(tab, x, us)[0] == x || (us != [] && Insert(tab, x, us)[0] == us[0]))
  {
    if us != [] && Key(tab, x) < Key(tab, us[0]) {
      var tail := us[1..];
      InsertSorted(tab, x, tail);
      var rest := Insert(tab, x, tail);
      assert tail != [] ==> tail[0] == us[1];
      SortedCons(tab, us[0], rest);
      assert Insert(tab, x, us) == [us[0]] + rest;
    } else if us == [] {
      assert Insert(tab, x, us) == [x];
    } else {
      SortedCons(tab, x, us);
      assert Insert(tab, x, us) == [x] + us;
    }
  }

  /** A row whose key is at least the first key of a sorted list can go in front of it. */
  lemma SortedCons(tab: Tab, y: LeaderboardUser, rest: seq<LeaderboardUser>)
    requires SortedDescending(tab, rest)
    requires rest != [] ==> Key(tab, y) >= Key(tab, rest[0])
    ensures SortedDescending(tab, [y] + rest)
  {
    var r := [y] + rest;
    forall i, j | 0 <= i < j < |r| ensures Key(tab, r[i]) >= Key(tab, r[j]) {
      if i == 0 {
        assert r[j] == rest[j - 1];
        if j > 1 { assert Key(tab, rest[0]) >= Key(tab, rest[j - 1]); }
      } else {
        assert r[i] == rest[i - 1] && r[j] == rest[j - 1];
      }
    }
  }

  /** A sorted copy is ordered by the tab's key, largest first, and holds exactly the same rows. */
  lemma {:induction false} SortByCorrect(tab: Tab, us: seq<LeaderboardUser>)
    ensures SortedDescending(tab, SortBy(tab, us))
    ensures multiset(SortBy(tab, us)) == multiset(us)
  {
    if us != [] {
      SortByCorrect(tab, us[1..]);
      InsertSorted(tab, us[0], SortBy(tab, us[1..]));
      assert us == [us[0]] + us[1..];
    }
  }

  /** `getSortedUsers`: the points tab keeps the server's order, the others sort a copy. */
  function SortedUsers(tab: Tab, users: seq<LeaderboardUser>): (r: seq<LeaderboardUser>)
    ensures |r| == |users|
    ensures tab == PointsTab ==> r == users
  {
    if tab == PointsTab then users else SortBy(tab, users)
  }

  /** The weight and posts tabs are ordered largest first; every tab lists exactly the fetched rows. */
  lemma SortedUsersCorrect(tab: Tab, users: seq<LeaderboardUser>)
    ensures tab != PointsTab ==> SortedDescending(tab, SortedUsers(tab, users))
    ensures multiset(SortedUsers(tab, users)) == multiset(users)
  {
    if tab != PointsTab { SortByCorrect(tab, users); }
  }

  /** `findIndex((u) => u.id === user?.id) + 1`: the 1-based place of the signed-in user, or 0. */
  function RankOf(us: seq<LeaderboardUser>, me: Option<string>): (rank: nat)
    ensures rank <= |us|
    ensures rank == 0 <==> me.None? || forall i :: 0 <= i < |us| ==> us[i].id != me.value
    ensures rank > 0 ==> us[rank - 1].id == me.value && forall i :: 0 <= i < rank - 1 ==> us[i].id != me.value
  {
    if me.None? || us == [] then 0
    else if us[0].id == me.value then 1
    else
      var r := RankOf(us[1..], me);
      assert forall i :: 1 <= i < |us| ==> us[i] == us[1..][i - 1];
      if r == 0 then 0 else r + 1
  }

  datatype RankIcon = Crown | Medal | Award | Number(rank: int)

  /** `getRankIcon`: the first three places get an icon, the others their number. */
  function RankIconOf(rank: int): (icon: RankIcon)
    ensures icon.Number? <==> rank !in {1, 2, 3}
    ensures icon.Number? ==> icon.rank == rank
  {
    if rank == 1 then Crown else if rank == 2 then Medal else if rank == 3 then Award else Number(rank)
  }

  datatype LevelInfo = LevelInfo(name: string, color: string)

  const Levels: map<int, LevelInfo> := map[
    1 := LevelInfo("Nybegynner", "bg-gray-500"),
    2 := LevelInfo("Samler", "bg-green-500"),
    3 := LevelInfo("Helt", "bg-blue-500"),
    4 := LevelInfo("Mester", "bg-purple-500"),
    5 := LevelInfo("Legende", "bg-yellow-500")]

  /** `getLevelInfo`: the level's name and colour, level 1's for any other level. */
  function LevelInfoOf(level: int): (info: LevelInfo)
    ensures 1 <= level <= 5 ==> info == Levels[level]
    ensures !(1 <= level <= 5) ==> info == Levels[1]
  {
    if level in Levels then Levels[level] else Levels[1]
  }

  /** Distinct levels 1 to 5 have distinct names. */
  lemma LevelNamesDistinct(a: int, b: int)
    requires 1 <= a <= 5 && 1 <= b <= 5 && a != b
    ensures LevelInfoOf(a).name != LevelInfoOf(b).name
  {
  }

  /** The highlight test as the list writes it: the row variable `user` shadows the signed-in user, so it compares a row with itself. */
  function IsCurrentUserAsWritten(row: LeaderboardUser, me: Option<string>): (flag: bool)
    ensures flag
  {
    var user := row;
    user.id == user.id
  }

  /** As written, every row of every list is highlighted, whoever is signed in. */
  lemma EveryRowHighlighted(us: seq<LeaderboardUser>, me: Option<string>, i: int)
    requires 0 <= i < |us|
    ensures IsCurrentUserAsWritten(us[i], me)
    ensures me.None? ==> IsCurrentUserAsWritten(us[i], me) != IsCurrentUser(us[i], me)
  {
  }

  /** The intended test: the row is the signed-in user's. */
  function IsCurrentUser(row: LeaderboardUser, me: Option<string>): (flag: bool)
    ensures flag <==> me.Some? && row.id == me.value
  {
    me.Some? && row.id == me.value
  }

  /** With distinct ids the intended test highlights exactly the row at the user's rank. */
  lemma HighlightMatchesRank(us: seq<LeaderboardUser>, me: Option<string>, i: int)
    requires forall a, b :: 0 <= a < b < |us| ==> us[a].id != us[b].id
    requires 0 <= i < |us|
    ensures IsCurrentUser(us[i], me) <==> RankOf(us, me) == i + 1
  {
  }

  /** What the list shows for its `i`-th row: rank icon, level badge and highlight. */
  datatype RowView = RowView(icon: RankIcon, level: LevelInfo, highlighted: bool)

  function ViewRow(us: seq<LeaderboardUser>, i: nat, me: Option<string>): (v: RowView)
    requires i < |us|
    ensures v.highlighted <==> me.Some? && us[i].id == me.value
    ensures v.icon == RankIconOf(i + 1)
    ensures v.level == LevelInfoOf(us[i].level)
  {
    RowView(RankIconOf(i + 1), LevelInfoOf(us[i].level), IsCurrentUser(us[i], me))
  }
}
