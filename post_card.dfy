/**
 * The post card (components/post-card.tsx): its like button, a two-state
 * machine over "liked" and the like count; the delete guard; the fallbacks
 * for the author's name and level; and the text offered for sharing.
 */
module PostCard {
  import opened Wrappers
  import JsNumber
  import JsText
  import Leaderboard

  /** The like button's state. */
  datatype LikeState = LikeState(isLiked: bool, likeCount: int)

  /** The initial state: liked when one of the likes is the signed-in user's, counting all likes. */
  function InitialLikes(likes: seq<string>, me: Option<string>): (s: LikeState)
    ensures s.isLiked <==> exists i :: 0 <= i < |likes| && me == Some(likes[i])
    ensures s.likeCount == |likes|
  {
    LikeState(me.Some? && me.value in likes, |likes|)
  }

  /** One successful click: unliking removes one like, liking adds one. */
  function Clicked(s: LikeState): (t: LikeState)
    ensures t.isLiked == !s.isLiked
    ensures t.likeCount == s.likeCount + (if s.isLiked then -1 else 1)
  {
    if s.isLiked then LikeState(false, s.likeCount - 1) else LikeState(true, s.likeCount + 1)
  }

  /** The likes of everyone else: the count less the user's own like. */
  function Others(s: LikeState): int
  {
    s.likeCount - (if s.isLiked then 1 else 0)
  }

  /** A click never changes the likes of others, and two clicks restore the state. */
  lemma ClickKeepsOthers(s: LikeState)
    ensures Others(Clicked(s)) == Others(s)
    ensures Clicked(Clicked(s)) == s
  {
  }

  /** Starting from the fetched likes, the count never drops below the likes of others. */
  lemma InitialOthers(likes: seq<string>, me: Option<string>)
    ensures Others(InitialLikes(likes, me)) >= 0
    ensures me.Some? && me.value in likes ==> Others(InitialLikes(likes, me)) == |likes| - 1
  {
  }

  /** A rendered post card. */
  class PostCard {
    var isLiked: bool
    var likeCount: int

    constructor (likes: seq<string>, me: Option<string>)
      ensures LikeState(isLiked, likeCount) == InitialLikes(likes, me)
    {
      var s := InitialLikes(likes, me);
      isLiked, likeCount := s.isLiked, s.likeCount;
    }

    /**
     * `handleLike`: nothing without a user; otherwise the like is deleted or
     * inserted and the state flips. The backend's reply is not read, so a
     * refused delete or insert flips the state all the same.
     */
    method HandleLike(me: Option<string>)
      modifies this
      ensures me.None? ==> isLiked == old(isLiked) && likeCount == old(likeCount)
      ensures me.Some? ==> LikeState(isLiked, likeCount) == Clicked(old(LikeState(isLiked, likeCount)))
      ensures Others(LikeState(isLiked, likeCount)) == Others(old(LikeState(isLiked, likeCount)))
    {
      if me.None? {
        return;
      }
      if isLiked {
        isLiked := false;
        likeCount := likeCount - 1;
      } else {
        isLiked := true;
        likeCount := likeCount + 1;
      }
    }
  }

  /** `handleDelete` goes ahead: a signed-in owner, a delete callback, and a confirmed prompt. */
  function DeleteProceeds(me: Option<string>, ownerId: string, hasOnDelete: bool, confirmed: bool): (go: bool)
    ensures go ==> me == Some(ownerId)
    ensures me != Some(ownerId) || !hasOnDelete ==> !go
    ensures me == Some(ownerId) && hasOnDelete ==> (go <==> confirmed)
  {
    if me.None? || me.value != ownerId || !hasOnDelete then false else confirmed
  }

  /** The author's profile as embedded in the post; `None` when it is missing. */
  datatype Author = Author(username: Option<string>, full_name: Option<string>, level: Option<int>)

  datatype Byline = Byline(username: string, fullName: string, level: int)

  /** The name and level shown: "Anonym bruker" without a user name, the user name without a full name, level 1 without a level. */
  function BylineOf(author: Option<Author>): (b: Byline)
    ensures b.username != "" && b.fullName != "" && b.level != 0
    ensures author.None? ==> b == Byline("Anonym bruker", "Anonym bruker", 1)
    ensures author.Some? && JsText.StrOrElse(author.value.full_name, "") == "" ==> b.fullName == b.username
  {
    var username := JsText.StrOrElse(if author.Some? then author.value.username else None, "Anonym bruker");
    var fullName := JsText.StrOrElse(if author.Some? then author.value.full_name else None, username);
    var level := JsNumber.IntOrElse(if author.Some? then author.value.level else None, 1);
    Byline(username, fullName, level)
  }

  /** The badge shown is the leaderboard's level table, so an author without a level shows as a beginner. */
  lemma BylineLevel(author: Option<Author>)
    ensures var b := BylineOf(author);
      (author.None? || author.value.level.None?) ==> Leaderboard.LevelInfoOf(b.level).name == "Nybegynner"
  {
  }

  const ShareTags := ". #Skjærgårdshelt #RentHav"

  /** The share title. */
  function ShareTitle(username: string): (t: string)
    ensures |t| > |username| && t[|t| - |username|..] == username
  {
    "Skjærgårdshelt: Kystopprydning av " + username
  }

  /** The share description; `numText` is JavaScript's rendering of a number. */
  function ShareDescription(username: string, weight: Option<real>, location: Option<string>, numText: real -> string): (d: string)
  {
    "Se hva " + username + " har gjort for å rydde kysten! " + numText(JsNumber.OrElse(weight, 0.0))
      + "kg søppel fjernet" + (if JsText.StrOrElse(location, "") != "" then " fra " + location.value else "") + ShareTags
  }

  /** A location inserts " fra <location>" just before the tags; without one the tags follow the weight directly. */
  lemma ShareDescriptionLocation(username: string, weight: Option<real>, place: string, numText: real -> string)
    requires place != ""
    ensures var without := ShareDescription(username, weight, None, numText);
      && without[..|without| - |ShareTags|] + " fra " + place + ShareTags == ShareDescription(username, weight, Some(place), numText)
      && ShareDescription(username, weight, Some(""), numText) == without
  {
    var head := "Se hva " + username + " har gjort for å rydde kysten! " + numText(JsNumber.OrElse(weight, 0.0)) + "kg søppel fjernet";
    var without := ShareDescription(username, weight, None, numText);
    assert without == head + "" + ShareTags;
    assert without[..|without| - |ShareTags|] == head;
  }

  /** A missing weight is shared as the weight 0. */
  lemma ShareWeightDefault(username: string, location: Option<string>, numText: real -> string)
    ensures ShareDescription(username, None, location, numText) == ShareDescription(username, Some(0.0), location, numText)
  {
  }
}
