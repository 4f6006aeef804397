/** The `comments` array of a post (routes/api/posts.js). */
module Comments {
  import opened Ids
  import opened JsArrays

  /** The body fields a post or a comment copies: `req.body.text/name/avatar`. */
  datatype PostBody = PostBody(text: string, name: string, avatar: string)

  /** One embedded comment; `id` is the `_id` the database gives it. */
  datatype Comment = Comment(id: CommentId, text: string, name: string, avatar: string, user: UserId)

  /** `comments.map(item => item._id.toString())`. */
  function CommentIds(comments: seq<Comment>): (r: seq<CommentId>)
    ensures |r| == |comments|
    ensures forall i :: 0 <= i < |comments| ==> r[i] == comments[i].id
  {
    if |comments| == 0 then [] else [comments[0].id] + CommentIds(comments[1..])
  }

  /** The dead existence check: some comment's `_id` equals `cid`. */
  predicate HasComment(comments: seq<Comment>, cid: CommentId) {
    exists i :: 0 <= i < |comments| && comments[i].id == cid
  }

  /** The dead `removeIndex`: `indexOf` over the comment ids. */
  function CommentIndex(comments: seq<Comment>, cid: CommentId): int {
    IndexOf(CommentIds(comments), cid)
  }

  /** `comments` after the dead `comments.splice(removeIndex, 1)`. */
  function WithoutComment(comments: seq<Comment>, cid: CommentId): seq<Comment> {
    Splice1(comments, CommentIndex(comments, cid))
  }

  /** Removal, when the comment exists, takes out exactly its first occurrence. */
  lemma RemoveCommentRemovesFirstMatch(comments: seq<Comment>, cid: CommentId)
    requires HasComment(comments, cid)
    ensures 0 <= CommentIndex(comments, cid) < |comments|
    ensures comments[CommentIndex(comments, cid)].id == cid
    ensures forall j :: 0 <= j < CommentIndex(comments, cid) ==> comments[j].id != cid
    ensures WithoutComment(comments, cid) ==
      comments[..CommentIndex(comments, cid)] + comments[CommentIndex(comments, cid) + 1..]
  {
  }
}
