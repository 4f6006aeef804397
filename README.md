# Post aggregate and auth reducer of devconnector, in Dafny

This project models two small cores of the devconnector social-posts service.

1. The post aggregate rules inside the authenticated Express handlers of
   `routes/api/posts.js`. Each handler loads one post, applies a rule to the
   post's `likes` or `comments` array in memory, and saves it. The rules are:
   create, delete (owner check), like, unlike, add comment and remove comment.
   A loaded post is the class `Posts.Post`. Its `likes` and `comments` fields
   are sequences that the methods reassign in place. The rules are its
   methods, and each method answers with an `Outcome` that names the HTTP
   response: `Ok(post)`, `Deleted`, `AlreadyLiked`, `NotLiked`,
   `ValidationFailed(errors)`, `NotAuthorized`, `PostNotFound` or
   `CommentNotExists`. The handlers themselves are in module `Routes`.
   `Post.findById` becomes the parameter `lookup: Post?`, which is `null` when
   nothing was found. The `auth` middleware becomes the acting user `u`.
   `validatePostInput` becomes the function parameter `validate`.
2. The client auth reducer `client/src/reducers/authReducer.js`. It is a pure
   function `AuthReducer.Reduce` over a JavaScript object, modelled as
   `map<string, Json>`. Its one recognised action is `SET_CURRENT_USER`.
   `isEmpty` is a function parameter, left uninterpreted.

Module layout:
- `js_arrays.dfy` holds `indexOf` and `splice(start, 1)`, with JavaScript's
  -1 and negative-start behaviour.
- `ids.dfy` holds the abstract user and comment ids. The source compares them
  as strings after `toString()`.
- `likes.dfy` holds the like queries, the no-duplicate-likers invariant and
  the lemmas about like and unlike.
- `comments.dfy` holds comments and the removal rule.
- `posts.dfy` holds the `Post` class.
- `routes.dfy` holds the handlers.
- `auth_reducer.dfy` holds the reducer.

Behaviour of the source worth knowing:
- Once its lookup resolves, the remove-comment handler
  (`routes/api/posts.js:199-225`) returns 404 `commentnotexists` on its first
  line. It gives this answer even when the post does not exist, because it
  never touches `post`. Its removal logic (lines 207-221) is unreachable. That
  logic is modelled on its own as `Posts.Post.RemoveComment`, and no handler
  uses it.
- For `SET_CURRENT_USER` with a `null` or `undefined` payload, the reducer
  throws a `TypeError` when it reads `action.payload.user`. The model returns
  `Threw` in that case.
- `isAuthenticated` is `!isEmpty(payload)`, computed over the whole payload.

## Model

| member | source | states |
|---|---|---|
| JsArrays.IndexOf | routes/api/posts.js:147-149 | `indexOf` gives -1 exactly when the value is absent. Otherwise it gives an index holding the value, with no earlier occurrence. |
| JsArrays.Splice1 | routes/api/posts.js:152 | `splice(k, 1)` with `0 <= k < length` removes exactly element `k` and keeps the others in order. A start past the end removes nothing. A negative start counts from the end. |
| Likes.LikesBy | routes/api/posts.js:108-110 | The like filter keeps only entries of user `u`. It is empty exactly when no entry of `likes` belongs to `u`. |
| Likes.Users | routes/api/posts.js:147-148 | `likes.map(item => item.user)` has one user per entry, in the same order. |
| Comments.CommentIds | routes/api/posts.js:214-215 | `comments.map(item => item._id)` has one id per comment, in the same order. |
| Likes.LikedIffIndexed | routes/api/posts.js:137-149 | The filter guard and the `indexOf` lookup agree: the user is liked exactly when `removeIndex` is not -1. So the splice never gets -1 after the guard. |
| Likes.LikedAfterLike | routes/api/posts.js:108-118 | After a like the user is found by the guard, so a second like is answered `AlreadyLiked`. The like adds exactly one entry. |
| Likes.LikeKeepsNoDuplicates | routes/api/posts.js:108-118 | Prepending a user who passed the guard keeps every user at most once in `likes`. |
| Likes.UnlikeRemovesFirstMatch | routes/api/posts.js:146-152 | When the user is liked, `removeIndex` is the first entry of that user. Unlike removes exactly that entry: the result is one shorter and keeps the other entries in order. |
| Likes.UnlikeKeepsNoDuplicates | routes/api/posts.js:137-152 | Unlike keeps every user at most once in `likes`. |
| Likes.UnlikeDropsUser | routes/api/posts.js:137-152 | With unique likers, after unlike the user has no entry left. |
| Likes.UnlikeKeepsLaterDuplicate | routes/api/posts.js:146-152 | Without unique likers, a later second entry of the user survives unlike. The invariant is what makes unlike complete. |
| Likes.LikeUnlikeRoundTrip | routes/api/posts.js:108-152 | A like that passes the guard, followed by an unlike by the same user, restores the original `likes` exactly. |
| Comments.RemoveCommentRemovesFirstMatch | routes/api/posts.js:207-219 | When the comment exists, the unreachable removal splices out exactly its first occurrence. |
| Posts.Post.constructor | routes/api/posts.js:62-67 | A new post copies `text`, `name` and `avatar` from the body. Its owner is the acting user. It starts with empty `likes` and `comments`. |
| Posts.Post.AddLike | routes/api/posts.js:108-120 | An existing entry of the user gives `AlreadyLiked` with `likes` unchanged. Otherwise `{user}` is prepended and the saved post is returned. Only `likes` changes, and the no-duplicate invariant is kept. |
| Posts.Post.RemoveLike | routes/api/posts.js:137-155 | No entry of the user gives `NotLiked` with `likes` unchanged. Otherwise the entry at `removeIndex` is spliced out and `likes` shrinks by one. Only `likes` changes. With unique likers the invariant is kept and the user is gone. |
| Posts.Post.AddComment | routes/api/posts.js:179-190 | Prepends one comment stamped with the acting user, with `text`, `name` and `avatar` from the body. The existing comments follow unchanged. Only `comments` changes. |
| Posts.Post.RemoveComment | routes/api/posts.js:207-221 | Unreachable in the source. A missing comment gives `CommentNotExists` with `comments` unchanged. Otherwise the first matching comment is spliced out. |
| Routes.CreatePost | routes/api/posts.js:54-69 | Invalid input gives `ValidationFailed` with the validator's errors, and no post is created. Valid input creates a fresh post built from the body and the acting user, with no likes or comments. |
| Routes.DeletePost | routes/api/posts.js:80-93 | Exactly one of three answers: a missing post gives `PostNotFound`, a non-owner gives `NotAuthorized`, the owner gives `Deleted`. The post is never changed. |
| Routes.LikePost | routes/api/posts.js:105-122 | A missing post gives `PostNotFound`. Otherwise the answer is that of the like rule, and every field other than `likes` is unchanged. |
| Routes.UnlikePost | routes/api/posts.js:134-157 | A missing post gives `PostNotFound`. Otherwise the answer is that of the unlike rule, and every field other than `likes` is unchanged. |
| Routes.CommentOnPost | routes/api/posts.js:169-192 | Invalid input gives `ValidationFailed` and no change, whatever the lookup found. Valid input on a missing post gives `PostNotFound`. Otherwise the comment is prepended and every other field is unchanged. |
| Routes.DeleteComment | routes/api/posts.js:199-223 | Every request whose lookup resolves is answered 404 `CommentNotExists`, with nothing changed. This holds whether or not the post or the comment exists. |
| AuthReducer.Reduce | client/src/reducers/authReducer.js:11-23 | Any other action type returns the incoming (or initial) state unchanged. `SET_CURRENT_USER` throws exactly when the payload is null or undefined. Otherwise `isAuthenticated` is `!isEmpty(payload)` and `user`/`token` are `payload.user`/`payload.token`. Every other key is carried over and no key is added beyond these three. |
| AuthReducer.InitialStateWhenAbsent | client/src/reducers/authReducer.js:5-11 | With no state the reducer acts on `{isAuthenticated: false, user: {}, token: null}`. |
| AuthReducer.ReduceIdempotent | client/src/reducers/authReducer.js:13-21 | Applying the same action twice gives the state that applying it once gave. An action that throws throws from every state. |

## Left out

- `server.js` is not part of this model: it holds app bootstrap, the database connection, static serving and the port.
- The public GET routes (`/test`, the post list with its database-side date sort, and the single-post read) only query the store. They are not part of this model.
- Persistence is left out: `Post.find`, `findById`, `save` and `remove`. A lookup is the `lookup` parameter, and "saved" is the post in the `Ok` answer. Failed saves are unhandled promise rejections in the source and are not modelled.
- A `findById` that rejects (for example on a malformed id, or with the store down) is not modelled; the model only has a lookup that resolves, possibly to `null`. In the delete, like, unlike and add-comment routes a rejection ends in the same 404 `postnotfound` as a missing post. In the remove-comment route it ends in 404 `postnotfound` (routes/api/posts.js:223), while a missing post gets 404 `commentnotexists`.
- `Profile.findOne` in delete, like and unlike is left out, because its result is never used.
- The `auth` middleware, `validatePostInput` and `isEmpty` are not part of this model. They become the parameters `u`, `validate` and `isEmpty`.
- Database-assigned ids and dates are left out. A new comment's `_id` is the parameter `id`. Post ids and dates are not modelled.
- Request ordering, promise chaining and lost updates between concurrent requests are left out. Each handler is modelled as one atomic step.
- Routes.DeletePost: answers `Deleted` for the owner but does not model the removal from the store, which is not part of this model.
- Routes.CommentOnPost: states that invalid input ignores the lookup's result, but cannot state that no lookup happens, since the lookup is a parameter.
- Body fields are modelled as strings. Undefined or non-string `name` and `avatar` values are not distinguished. JSON numbers in the reducer are integers.
