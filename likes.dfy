/** The `likes` array of a post and the two queries the like/unlike handlers
    run over it (routes/api/posts.js). */
module Likes {
  import opened Ids
  import opened JsArrays

  /** One entry `{ user }` of `post.likes`. */
  datatype Like = Like(user: UserId)

  /** `likes.filter(like => like.user.toString() === u)`. */
  function LikesBy(likes: seq<Like>, u: UserId): (r: seq<Like>)
    ensures |r| <= |likes|
    ensures forall l :: l in r ==> l == Like(u)
    ensures |r| == 0 <==> forall i :: 0 <= i < |likes| ==> likes[i].user != u
  {
    if |likes| == 0 then []
    else if likes[0].user == u then [likes[0]] + LikesBy(likes[1..], u)
    else
      LikesBy(likes[1..], u)
  }

  /** The guard of both handlers: `LikesBy(likes, u).length > 0`. */
  predicate Liked(likes: seq<Like>, u: UserId) {
    |LikesBy(likes, u)| > 0
  }

  /** `likes.map(item => item.user.toString())`. */
  function Users(likes: seq<Like>): (r: seq<UserId>)
    ensures |r| == |likes|
    ensures forall i :: 0 <= i < |likes| ==> r[i] == likes[i].user
  {
    if |likes| == 0 then [] else [likes[0].user] + Users(likes[1..])
  }

  /** The `removeIndex` of the unlike handler. */
  function UnlikeIndex(likes: seq<Like>, u: UserId): int {
    IndexOf(Users(likes), u)
  }

  /** `likes` after the like handler's `likes.unshift({ user: u })`. */
  function WithLike(likes: seq<Like>, u: UserId): seq<Like> {
    [Like(u)] + likes
  }

  /** `likes` after the unlike handler's `likes.splice(removeIndex, 1)`. */
  function WithoutLike(likes: seq<Like>, u: UserId): seq<Like> {
    Splice1(likes, UnlikeIndex(likes, u))
  }

  /** The aggregate's invariant: no user likes a post twice. */
  predicate NoDuplicateLikers(likes: seq<Like>) {
    forall i, j :: 0 <= i < j < |likes| ==> likes[i].user != likes[j].user
  }

  /** The user is found by `indexOf` exactly when the filter finds an entry. */
  lemma LikedIffIndexed(likes: seq<Like>, u: UserId)
    ensures Liked(likes, u) <==> 0 <= UnlikeIndex(likes, u)
  {
  }

  /** After a like the user is liked, so a second like is refused. */
  lemma LikedAfterLike(likes: seq<Like>, u: UserId)
    ensures Liked(WithLike(likes, u), u)
    ensures |WithLike(likes, u)| == |likes| + 1
  {
  }

  /** Prepending a user who has not liked yet keeps likers unique. */
  lemma LikeKeepsNoDuplicates(likes: seq<Like>, u: UserId)
    requires NoDuplicateLikers(likes) && !Liked(likes, u)
    ensures NoDuplicateLikers(WithLike(likes, u))
  {
  }

  /** Unlike removes exactly the first entry of the user: one shorter, every
      other entry kept in order. */
  lemma UnlikeRemovesFirstMatch(likes: seq<Like>, u: UserId)
    requires Liked(likes, u)
    ensures 0 <= UnlikeIndex(likes, u) < |likes|
    ensures likes[UnlikeIndex(likes, u)].user == u
    ensures forall j :: 0 <= j < UnlikeIndex(likes, u) ==> likes[j].user != u
    ensures WithoutLike(likes, u) == likes[..UnlikeIndex(likes, u)] + likes[UnlikeIndex(likes, u) + 1..]
    ensures |WithoutLike(likes, u)| == |likes| - 1
  {
  }

  /** Unlike keeps likers unique. */
  lemma UnlikeKeepsNoDuplicates(likes: seq<Like>, u: UserId)
    requires NoDuplicateLikers(likes) && Liked(likes, u)
    ensures NoDuplicateLikers(WithoutLike(likes, u))
  {
  }

  /** When likers are unique, unlike leaves the user with no like at all. */
  lemma UnlikeDropsUser(likes: seq<Like>, u: UserId)
    requires NoDuplicateLikers(likes) && Liked(likes, u)
    ensures !Liked(WithoutLike(likes, u), u)
  {
  }

  /** Without the invariant, a second entry of the same user survives unlike. */
  lemma UnlikeKeepsLaterDuplicate(likes: seq<Like>, u: UserId, i: nat, j: nat)
    requires i < j < |likes| && likes[i].user == u && likes[j].user == u
    ensures Liked(WithoutLike(likes, u), u)
  {
    var r := WithoutLike(likes, u);
    assert r[j - 1] == likes[j];
  }

  /** Like followed by unlike by the same user restores `likes` exactly. */
  lemma LikeUnlikeRoundTrip(likes: seq<Like>, u: UserId)
    requires !Liked(likes, u)
    ensures WithoutLike(WithLike(likes, u), u) == likes
  {
  }
}
