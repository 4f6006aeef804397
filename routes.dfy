/** The authenticated handlers of routes/api/posts.js. The `auth` middleware
    has already resolved the acting user `u`; `validatePostInput` is the
    parameter `validate`; `Post.findById` is the parameter `lookup`, `null`
    when no post was found. A `null` post dereferenced inside a handler throws,
    and the handler's trailing `.catch` answers 404 `postnotfound`. */
module Routes {
  import opened Ids
  import opened Likes
  import opened Comments
  import opened Posts

  /** `{ errors, isValid }` as returned by `validatePostInput(req.body)`. */
  datatype Validation = Validation(errors: ErrorMap, isValid: bool)

  /** POST api/posts: validate, then build a post owned by the acting user. */
  method CreatePost(body: PostBody, u: UserId, validate: PostBody -> Validation)
    returns (o: Outcome, created: Post?)
    ensures !validate(body).isValid ==>
      o == ValidationFailed(validate(body).errors) && created == null
    ensures validate(body).isValid ==>
      created != null && fresh(created) &&
      created.Doc() == PostDoc(body.text, body.name, body.avatar, u, [], []) &&
      o == Ok(created.Doc())
  {
    var v := validate(body);
    if !v.isValid {
      return ValidationFailed(v.errors), null;
    }
    created := new Post(body, u);
    o := Ok(created.Doc());
  }

  /** DELETE api/posts/:id: only the owner may delete. The post itself is
      never changed; `Deleted` stands for `post.remove()` and `{ success: true }`. */
  method DeletePost(lookup: Post?, u: UserId) returns (o: Outcome)
    ensures o == PostNotFound <==> lookup == null
    ensures o == NotAuthorized <==> lookup != null && lookup.user != u
    ensures o == Deleted <==> lookup != null && lookup.user == u
  {
    if lookup == null {
      return PostNotFound;
    }
    if !lookup.OwnedBy(u) {
      return NotAuthorized;
    }
    o := Deleted;
  }

  /** POST api/posts/like/:id. */
  method LikePost(lookup: Post?, u: UserId) returns (o: Outcome)
    modifies lookup
    ensures lookup == null ==> o == PostNotFound
    ensures lookup != null ==> lookup.Doc().(likes := old(lookup.likes)) == old(lookup.Doc())
    ensures lookup != null && Liked(old(lookup.likes), u) ==>
      o == AlreadyLiked && lookup.likes == old(lookup.likes)
    ensures lookup != null && !Liked(old(lookup.likes), u) ==>
      lookup.likes == WithLike(old(lookup.likes), u) && o == Ok(lookup.Doc())
  {
    if lookup == null {
      return PostNotFound;
    }
    o := lookup.AddLike(u);
  }

  /** POST api/posts/unlike/:id. */
  method UnlikePost(lookup: Post?, u: UserId) returns (o: Outcome)
    modifies lookup
    ensures lookup == null ==> o == PostNotFound
    ensures lookup != null ==> lookup.Doc().(likes := old(lookup.likes)) == old(lookup.Doc())
    ensures lookup != null && !Liked(old(lookup.likes), u) ==>
      o == NotLiked && lookup.likes == old(lookup.likes)
    ensures lookup != null && Liked(old(lookup.likes), u) ==>
      lookup.likes == WithoutLike(old(lookup.likes), u) && o == Ok(lookup.Doc())
  {
    if lookup == null {
      return PostNotFound;
    }
    o := lookup.RemoveLike(u);
  }

  /** POST api/posts/comment/:id: validation runs before the lookup, so an
      invalid body is answered 400 whatever the lookup would have found. */
  method CommentOnPost(body: PostBody, u: UserId, validate: PostBody -> Validation,
                       lookup: Post?, id: CommentId) returns (o: Outcome)
    modifies lookup
    ensures lookup != null ==> lookup.Doc().(comments := old(lookup.comments)) == old(lookup.Doc())
    ensures !validate(body).isValid ==>
      o == ValidationFailed(validate(body).errors) &&
      (lookup != null ==> lookup.comments == old(lookup.comments))
    ensures validate(body).isValid && lookup == null ==> o == PostNotFound
    ensures validate(body).isValid && lookup != null ==>
      lookup.comments == [Comment(id, body.text, body.name, body.avatar, u)] + old(lookup.comments) &&
      o == Ok(lookup.Doc())
  {
    var v := validate(body);
    if !v.isValid {
      return ValidationFailed(v.errors);
    }
    if lookup == null {
      return PostNotFound;
    }
    o := lookup.AddComment(body, u, id);
  }

  /** DELETE api/posts/comment/:id/:comment_id as written: the handler answers
      404 `commentnotexists` before looking at the post, so every request gets
      that answer (a missing post too, since `post` is never dereferenced) and
      no comment is ever removed. */
  method DeleteComment(lookup: Post?, cid: CommentId) returns (o: Outcome)
    ensures o == CommentNotExists
    ensures o.Status() == 404
  {
    o := CommentNotExists;
  }
}
