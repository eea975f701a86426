# Post interaction rules and the `isEmpty` validator

This project models two parts of a REST backend for a small social-posting
application (the "devconnector" posts API) and proves properties of them.

- **The private post handlers** (`routes/api/posts.js`). A post document has
  an owner, a text, an author name and avatar, an ordered array of likes
  (each holding a user id) and an ordered array of comments (each holding its
  own id, a text, a name, an avatar and the author's user id). The create
  handler saves a new document. The delete handler fetches one post by id and,
  after an ownership check, removes it. The like, unlike, add-comment and
  remove-comment handlers each fetch one post by id, test a membership
  condition, change the post's `likes` or `comments` array in place (`push`,
  `splice`, `unshift`) and save the whole document back. The collection of documents
  is the class `Posts.PostStore`, whose field `posts` maps post ids to posts;
  each handler is a method of it that returns an `Outcome` (`Ok`,
  `AlreadyLiked`, `NotLiked`, `CommentNotFound`, `NotAuthorized`,
  `PostNotFound`, `ValidationFailed`) and, on `Ok`, adds the new post to the
  map, removes the deleted one or commits the changed one. The lookups the handlers do with `filter(..).length`,
  `map(..).indexOf(..)` and `splice(i, 1)` are the functions of module
  `JsArrays`, with JavaScript's `splice` semantics for a negative start.
  The store keeps the invariant that no user likes a post twice.
- **`isEmpty`** (`validation/is-empty.js`), a total predicate over JavaScript
  values: undefined, null, an object (arrays included) with no own keys and a
  string that `trim()` reduces to nothing are empty; every other value is
  not. Values are the datatype `Validation.JsValue`; `trim` strips exactly the
  ECMAScript WhiteSpace and LineTerminator code points.

Files: `js_arrays.dfy` (module `JsArrays`), `posts.dfy` (module `Posts`),
`is_empty.dfy` (module `Validation`).

User ids and comment ids are compared in the source through their
`toString()` forms, so they are strings here. A post id is an opaque key that
the database looks up (`Post.findById`); it is a string key of the map. The
acting user is the id the authentication layer attached to the request; the verdict of the request-body
validator is a boolean parameter; the ids that the database generates for a
new post or comment are parameters (a new post's id is not yet in the store).

The unlike handler's "not yet liked" rejection is sent under the error key
`alreadyliked` (`Posts.ErrorKey`); a missing comment is answered with 404
`commentnotexists`; any authenticated user may remove any comment.

## Model

| member | source | states |
|---|---|---|
| `JsArrays.Count` | routes/api/posts.js:97 | the length of `filter(y => y === x)` is at most the length of the array and is 0 exactly when `x` does not occur |
| `JsArrays.IndexOf` | routes/api/posts.js:129-131 | `indexOf` gives -1 exactly when `x` does not occur, otherwise a position holding `x` with no earlier occurrence |
| `JsArrays.ActualStart` | routes/api/posts.js:133 | `splice`'s start is clamped to the array: a start in range is kept, a negative one counts back from the end, a start past the end becomes the length and one before `-len` becomes 0 |
| `JsArrays.SpliceOne` | routes/api/posts.js:133 | `splice(start, 1)` removes one entry (the multiset loses exactly it) when the actual start is inside the array and nothing otherwise; for a start in range, the entries before keep their positions and the ones after move down by one |
| `JsArrays.CountIsMultiplicity` | routes/api/posts.js:97 | the `filter(..).length` count equals the multiplicity of the value in the array |
| `JsArrays.FilterGuardMeansFound` | routes/api/posts.js:125-131 | the `filter(..).length` guard holds exactly when `indexOf` returns a position inside the array |
| `JsArrays.SpliceMinusOneDropsLast` | routes/api/posts.js:133 | without the guard, `splice(-1, 1)` would drop the last entry of a non-empty array |
| `JsArrays.IndexOfPushed` | routes/api/posts.js:102 | after pushing a value not yet present, `indexOf` finds it at the last position |
| `JsArrays.IndexOfUnshifted` | routes/api/posts.js:166 | after `unshift(x)`, `indexOf(x)` is 0 |
| `JsArrays.CountAfterSplice` | routes/api/posts.js:133 | splicing out position `i` lowers the count of the value at `i` by one and leaves every other count unchanged |
| `JsArrays.CountAfterPush` | routes/api/posts.js:102 | pushing `x` raises the count of `x` by one and leaves every other count unchanged |
| `Posts.Status` | routes/api/posts.js:99 | the answers are sent with 200 exactly on success, 400 for already liked, not yet liked and failed validation, 401 for a non-owner's delete, 404 for a missing post or comment |
| `Posts.ErrorKey` | routes/api/posts.js:126 | the "already liked" and the "not yet liked" rejections share the error key `alreadyliked`, and no other rejection uses it |
| `Posts.LikerIds` | routes/api/posts.js:129-130 | `likes.map(item => item.user.toString())` has one entry per like, the like's user id |
| `Posts.CommentIds` | routes/api/posts.js:191-192 | `comments.map(item => item._id.toString())` has one entry per comment, the comment's id |
| `Posts.NewPost` | routes/api/posts.js:47-52 | a created post is owned by the acting user, carries the body's text, name and avatar, and starts with no likes and no comments |
| `Posts.HasLiked` | routes/api/posts.js:97 | the `filter(..).length > 0` test holds exactly when some like of the post carries the user's id (the unlike test at line 125 is its negation) |
| `Posts.HasComment` | routes/api/posts.js:188 | the `filter(..).length` test finds a comment exactly when some comment of the post carries the id |
| `Posts.WithoutLike` | routes/api/posts.js:129-133 | when the user has a like, splicing at `indexOf` leaves one entry fewer, exactly one like of that user fewer, and the same likes otherwise (as a multiset); without such a like the splice would drop the last like |
| `Posts.WithoutComment` | routes/api/posts.js:191-193 | when a comment carries the id, splicing at `indexOf` leaves one comment fewer and exactly one comment with that id fewer; without one the splice would drop the last comment |
| `Posts.NewComment` | routes/api/posts.js:159-164 | a new comment carries the given id, the acting user's id and the body's text, name and avatar |
| `Posts.LikeKeepsOneLikePerUser` | routes/api/posts.js:97-102 | pushing a like for a user with no like keeps every user at one like at most and gives that user exactly one |
| `Posts.UnlikeRemovesFirstLike` | routes/api/posts.js:125-133 | when the user has a like, the removed position is the first one holding the user, and the result is the likes before it followed by the likes after it |
| `Posts.UncommentRemovesFirst` | routes/api/posts.js:188-193 | when a comment carries the id, the removed position is the first one holding it, and the result is the comments before it followed by the comments after it |
| `Posts.UnlikeKeepsOneLikePerUser` | routes/api/posts.js:125-133 | under the one-like invariant, unliking leaves the user with no like and keeps the invariant |
| `Posts.LikeThenUnlike` | routes/api/posts.js:97-133 | for a user with no like, pushing a like and then splicing out the user's first like gives back the original likes |
| `Posts.CommentThenUncomment` | routes/api/posts.js:166-193 | a comment put in front is the first one found by its id, so removing that id gives back the original comments |
| `Posts.CreateThenDeleteInStore` | routes/api/posts.js:47-75 | a post saved under a fresh id is owned by its creator, and removing it again gives back the store |
| `Posts.LikeThenUnlikeInStore` | routes/api/posts.js:97-133 | in a whole store, adding the user's like to one post and then removing the user's first like from it gives back the store |
| `Posts.CommentThenUncommentInStore` | routes/api/posts.js:166-193 | in a whole store, prepending a comment to one post and then removing the first comment with its id gives back the store |
| `Posts.PostStore.Create` | routes/api/posts.js:41-58 | a body that fails validation is rejected with nothing saved; otherwise the new post is stored under its fresh id and nothing else changes |
| `Posts.PostStore.Delete` | routes/api/posts.js:64-83 | a missing post gives PostNotFound, a non-owner gets NotAuthorized and the post stays; the owner's delete removes exactly that post |
| `Posts.PostStore.LikePost` | routes/api/posts.js:88-115 | a user who already likes the post gets AlreadyLiked and nothing changes; otherwise exactly one like for the user is appended and the rest of the store is unchanged; the invariant is kept |
| `Posts.PostStore.UnlikePost` | routes/api/posts.js:120-145 | a user with no like gets NotLiked and nothing changes; otherwise the like at the first matching position is removed, the count drops by one and the user no longer likes the post |
| `Posts.PostStore.AddComment` | routes/api/posts.js:151-177 | invalid input is rejected before the post is looked up; a missing post gives PostNotFound; otherwise the new comment is prepended and the old comments follow unchanged |
| `Posts.PostStore.RemoveComment` | routes/api/posts.js:183-205 | an id no comment carries gives CommentNotFound and nothing changes; otherwise the first comment with that id is removed and the rest stay in order (with `UncommentRemovesFirst`) |
| `Posts.CreateThenDelete` | routes/api/posts.js:41-83 | after a valid create, another user's delete is refused with NotAuthorized and the owner's delete succeeds, leaving the store as it was |
| `Posts.LikeTwice` | routes/api/posts.js:97-102 | a second like by the same user is refused with AlreadyLiked and the user still likes the post |
| `Posts.LikeThenUnlikeRestores` | routes/api/posts.js:97-133 | like then unlike by a user who had not liked the post both succeed and leave the store as it was |
| `Posts.CommentThenUncommentRestores` | routes/api/posts.js:152-193 | adding a valid comment and removing it by its id both succeed and leave the store as it was |
| `Validation.IsEmpty` | validation/is-empty.js:2-18 | undefined and null are always empty, and no value other than them, an object, an array or a string is; `IsEmptyExactly` is its complete independent reference |
| `Validation.OwnKeyCount` | validation/is-empty.js:7 | `Object.keys(value).length` is 0 exactly for a primitive without indices, the empty string, the empty array and the object with no own keys |
| `Validation.TypeOf` | validation/is-empty.js:7-12 | `typeof` answers "object" exactly for null, arrays and plain objects, and "string" exactly for strings |
| `Validation.IsWhiteSpace` | validation/is-empty.js:12 | the code points `trim()` strips are exactly ECMAScript's WhiteSpace (tab, vertical tab, form feed, the byte order mark and the Zs space separators) and LineTerminator (line feed, carriage return, line and paragraph separator); space, tab, line feed and carriage return are among them and no visible ASCII character is |
| `Validation.LeadingWhiteSpace` | validation/is-empty.js:12 | the characters `trim()` drops at the start are all white space and the first one kept is not |
| `Validation.TrailingWhiteSpace` | validation/is-empty.js:12 | the characters `trim()` drops at the end are all white space and the last one kept is not |
| `Validation.Trim` | validation/is-empty.js:12 | `trim()` keeps a contiguous window of the input, drops only white space around it, leaves no white space at either end, and is empty exactly when the input is all white space |
| `Validation.TrimIdempotent` | validation/is-empty.js:12 | trimming a trimmed string changes nothing |
| `Validation.NullishIsEmpty` | validation/is-empty.js:3-5 | undefined and null are empty |
| `Validation.ObjectEmptyIffNoKeys` | validation/is-empty.js:7-9 | an object or array is empty exactly when it has no own keys; `[]` and `{}` are empty |
| `Validation.StringEmptyIffWhiteSpace` | validation/is-empty.js:12-14 | a string is empty exactly when its trimmed form has length 0, that is, when it is white space throughout |
| `Validation.StringEmptyIgnoresTrim` | validation/is-empty.js:12-14 | a string and its trimmed form get the same verdict |
| `Validation.OtherValuesAreNotEmpty` | validation/is-empty.js:16 | numbers, booleans, functions, objects with a key, non-empty arrays and strings with a non-white-space character are not empty |
| `Validation.IsEmptyExactly` | validation/is-empty.js:2-18 | the verdict agrees with an independent case-by-case statement of which values are empty |

## Left out

- Authentication: the handlers take the acting user's id; the bearer-token check and the user lookup of `config/passport.js` are library plumbing, and a request that fails them never reaches a handler.
- `validatePostInput` (`validation/post.js`) is not part of this model: its verdict on the request body is the boolean `bodyValid`, and its field-level error messages are not modelled.
- Persistence: a successful `save()` is the commit of the new or changed post to the map, a successful `remove()` the removal of its key. Their failure branches (answered with 401 or 404, or only logged after a create) are I/O and are not modelled. An id with no stored post, including one the database cannot parse, is answered with `PostNotFound` (404); the separate cast-error path by which the database rejects such an id is not modelled.
- Post-id casting: `Post.findById` casts the id string to a database ObjectId, so two spellings of one ObjectId (upper- and lower-case hex, say) find the same post; the model's map treats them as different keys.
- Id generation: the database's fresh ids for a new post or a new comment are parameters. The creation dates of posts and comments are not modelled.
- The public read routes (`GET /`, `GET /:id`, `GET /test`): they only return what the database finds, sorted by date by the database.
- The `Profile.findOne` lookups at the start of the delete, like and unlike handlers: their result is never used.
- Concurrency: each handler is one atomic step on the store. The lost update between two concurrent read-modify-write requests on one post is not modelled, and the one-like-per-user invariant holds only for sequential requests.
- Request-body fields that are missing (`undefined`) are not modelled: the body's text, name and avatar are strings.
- `Validation.JsValue`: numbers are reals (NaN and the infinities are not represented; every number is non-empty either way), arrays are dense (an array's own keys are its indices), and symbols and big integers are left out; like functions, they are never empty.
- Strings: a `string` is a sequence of Unicode scalar values, so lengths count code points, not UTF-16 code units (`OwnKeyCount` gives 1 for a string of one astral character where `Object.keys` gives 2), and lone surrogates cannot be represented. No `isEmpty` verdict depends on this: strings never reach `Object.keys`, and every code point `trim()` strips lies in the Basic Multilingual Plane.
- `routes/api/users.js` (registration and login) is not part of this model: it wraps a database lookup, password hashing and token signing in foreign libraries.
