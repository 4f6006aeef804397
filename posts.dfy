/** A loaded post document and the rules the route handlers of
    routes/api/posts.js apply to it in memory before `post.save()`. */
module Posts {
  import opened Ids
  import opened Likes
  import opened Comments
  import JsArrays

  /** The field -> message object a failed validation answers with. */
  type ErrorMap = map<string, string>

  /** The post as `res.json(post)` serialises it. */
  datatype PostDoc = PostDoc(
    text: string, name: string, avatar: string, user: UserId,
    likes: seq<Like>, comments: seq<Comment>)

  /** What a handler answers. */
  datatype Outcome =
    | Ok(post: PostDoc)
    | Deleted
    | AlreadyLiked
    | NotLiked
    | ValidationFailed(errors: ErrorMap)
    | NotAuthorized
    | PostNotFound
    | CommentNotExists
  {
    /** The HTTP status code sent with the outcome. */
    function Status(): nat {
      match this
      case Ok(_) => 200
      case Deleted => 200
      case AlreadyLiked => 400
      case NotLiked => 400
      case ValidationFailed(_) => 400
      case NotAuthorized => 401
      case PostNotFound => 404
      case CommentNotExists => 404
    }
  }

  /** A post loaded by `Post.findById`; the handlers change its `likes` and
      `comments` arrays in place. */
  class Post {
    var text: string
    var name: string
    var avatar: string
    var user: UserId
    var likes: seq<Like>
    var comments: seq<Comment>

    /** The document as saved and sent back. */
    function Doc(): PostDoc
      reads this
    {
      PostDoc(text, name, avatar, user, likes, comments)
    }

    /** `new Post({ text, name, avatar, user })`: copied body fields, the acting
        user as owner, no likes and no comments yet. */
    constructor (body: PostBody, u: UserId)
      ensures Doc() == PostDoc(body.text, body.name, body.avatar, u, [], [])
    {
      text := body.text;
      name := body.name;
      avatar := body.avatar;
      user := u;
      likes := [];
      comments := [];
    }

    /** The owner check of the delete handler: `post.user.toString() === u`. */
    predicate OwnedBy(u: UserId)
      reads this
    {
      user == u
    }

    /** Like: refused when the user already has an entry, otherwise
        `likes.unshift({ user: u })`. Only `likes` may change. */
    method AddLike(u: UserId) returns (o: Outcome)
      modifies this`likes
      ensures Liked(old(likes), u) ==> o == AlreadyLiked && likes == old(likes)
      ensures !Liked(old(likes), u) ==> likes == WithLike(old(likes), u) && o == Ok(Doc())
      ensures |likes| == |old(likes)| + (if o.Ok? then 1 else 0)
      ensures old(NoDuplicateLikers(likes)) ==> NoDuplicateLikers(likes)
    {
      if Liked(likes, u) {
        return AlreadyLiked;
      }
      if NoDuplicateLikers(likes) {
        LikeKeepsNoDuplicates(likes, u);
      }
      likes := WithLike(likes, u);
      o := Ok(Doc());
    }

    /** Unlike: refused when the user has no entry, otherwise the entry at
        `likes.map(l => l.user).indexOf(u)` is spliced out. Only `likes` may
        change. */
    method RemoveLike(u: UserId) returns (o: Outcome)
      modifies this`likes
      ensures !Liked(old(likes), u) ==> o == NotLiked && likes == old(likes)
      ensures Liked(old(likes), u) ==> likes == WithoutLike(old(likes), u) && o == Ok(Doc())
      ensures |likes| == |old(likes)| - (if o.Ok? then 1 else 0)
      ensures old(NoDuplicateLikers(likes)) ==> NoDuplicateLikers(likes) && !Liked(likes, u)
    {
      if !Liked(likes, u) {
        return NotLiked;
      }
      UnlikeRemovesFirstMatch(likes, u);
      if NoDuplicateLikers(likes) {
        UnlikeKeepsNoDuplicates(likes, u);
        UnlikeDropsUser(likes, u);
      }
      var removeIndex := UnlikeIndex(likes, u);
      likes := JsArrays.Splice1(likes, removeIndex);
      o := Ok(Doc());
    }

    /** Add comment: `comments.unshift` of a comment stamped with the acting
        user; `id` is the `_id` the database assigns on save. Only `comments`
        may change. */
    method AddComment(body: PostBody, u: UserId, id: CommentId) returns (o: Outcome)
      modifies this`comments
      ensures comments == [Comment(id, body.text, body.name, body.avatar, u)] + old(comments)
      ensures o == Ok(Doc())
    {
      comments := [Comment(id, body.text, body.name, body.avatar, u)] + comments;
      o := Ok(Doc());
    }

    /** The removal logic of the remove-comment handler. It is UNREACHABLE in
        the source, which answers before it runs (see Routes.DeleteComment);
        it is kept to state what the handler would do. */
    method RemoveComment(cid: CommentId) returns (o: Outcome)
      modifies this`comments
      ensures !HasComment(old(comments), cid) ==> o == CommentNotExists && comments == old(comments)
      ensures HasComment(old(comments), cid) ==>
        comments == WithoutComment(old(comments), cid) && |comments| == |old(comments)| - 1 &&
        o == Ok(Doc())
    {
      if !HasComment(comments, cid) {
        return CommentNotExists;
      }
      RemoveCommentRemovesFirstMatch(comments, cid);
      var removeIndex := CommentIndex(comments, cid);
      comments := JsArrays.Splice1(comments, removeIndex);
      o := Ok(Doc());
    }
  }
}
