/** Identifiers the handlers only compare. The source compares them as strings
    after `toString()`; here they are abstract values with equality. */
module Ids {
  /** An account id: `req.user._id`, `post.user`, `like.user`. */
  type UserId(==)

  /** A comment's `_id`, assigned by the database when the comment is saved. */
  type CommentId(==)
}
