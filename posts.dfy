/** The private post handlers of the posts API: create, delete, like, unlike,
    add a comment and remove a comment. Create saves a new document; delete
    fetches one post by id and, after an ownership check, removes it. The
    other four fetch one post by id, test a membership condition, change the
    post's embedded `likes` or `comments` array and save the whole document
    back. The store of documents is a map from post id to post; a successful
    save puts the post under its id, a successful remove deletes the key. */
module Posts {
  import opened JsArrays

  /** User and comment ids are compared through their `toString()` forms,
      so they are strings here; a post id is an opaque key of the store. */
  type UserId = string
  type PostId = string
  type CommentId = string

  datatype Like = Like(user: UserId)

  datatype Comment = Comment(id: CommentId, text: string, name: string, avatar: string, user: UserId)

  /** A post document; `owner` is its `user` field, the id of the author. */
  datatype Post = Post(
    owner: UserId,
    text: string,
    name: string,
    avatar: string,
    likes: seq<Like>,
    comments: seq<Comment>)

  /** The fields of a request body that the handlers copy into a document. */
  datatype PostBody = PostBody(text: string, name: string, avatar: string)

  /** What a handler answers. */
  datatype Outcome =
    | Ok
    | AlreadyLiked
    | NotLiked
    | CommentNotFound
    | NotAuthorized
    | PostNotFound
    | ValidationFailed

  /** The HTTP status each answer is sent with. */
  function Status(o: Outcome): (code: nat)
    ensures code == 200 <==> o.Ok?
    ensures code == 400 <==> o.AlreadyLiked? || o.NotLiked? || o.ValidationFailed?
    ensures code == 401 <==> o.NotAuthorized?
    ensures code == 404 <==> o.CommentNotFound? || o.PostNotFound?
  {
    match o
    case Ok => 200
    case AlreadyLiked => 400
    case NotLiked => 400
    case ValidationFailed => 400
    case NotAuthorized => 401
    case CommentNotFound => 404
    case PostNotFound => 404
  }

  /** The key of the JSON error object sent with a rejection (the keys of a
      failed validation come from the validator and are not modelled). The
      "not yet liked" answer reuses the key of the "already liked" one. */
  function ErrorKey(o: Outcome): (key: string)
    requires !o.Ok? && !o.ValidationFailed?
    ensures key == "alreadyliked" <==> o.AlreadyLiked? || o.NotLiked?
  {
    match o
    case AlreadyLiked => "alreadyliked"
    case NotLiked => "alreadyliked"
    case NotAuthorized => "notauthorized"
    case CommentNotFound => "commentnotexists"
    case PostNotFound => "postnotfound"
  }

  /** `likes.map(item => item.user.toString())` */
  function LikerIds(likes: seq<Like>): (ids: seq<UserId>)
    ensures |ids| == |likes|
    ensures forall i :: 0 <= i < |likes| ==> ids[i] == likes[i].user
  {
    seq(|likes|, i requires 0 <= i < |likes| => likes[i].user)
  }

  /** `comments.map(item => item._id.toString())` */
  function CommentIds(comments: seq<Comment>): (ids: seq<CommentId>)
    ensures |ids| == |comments|
    ensures forall i :: 0 <= i < |comments| ==> ids[i] == comments[i].id
  {
    seq(|comments|, i requires 0 <= i < |comments| => comments[i].id)
  }

  /** The handlers' test `likes.filter(like => like.user.toString() === user).length > 0`. */
  function HasLiked(p: Post, user: UserId): (b: bool)
    ensures b <==> exists i :: 0 <= i < |p.likes| && p.likes[i].user == user
  {
    var ids := LikerIds(p.likes);
    assert forall i :: 0 <= i < |p.likes| ==> ids[i] == p.likes[i].user;
    Count(ids, user) > 0
  }

  /** The handler's test `comments.filter(c => c._id.toString() === id).length > 0`. */
  function HasComment(p: Post, commentId: CommentId): (b: bool)
    ensures b <==> exists i :: 0 <= i < |p.comments| && p.comments[i].id == commentId
  {
    var ids := CommentIds(p.comments);
    assert forall i :: 0 <= i < |p.comments| ==> ids[i] == p.comments[i].id;
    Count(ids, commentId) > 0
  }

  /** The likes the unlike handler leaves behind:
      `likes.splice(likes.map(..).indexOf(user), 1)`. */
  function WithoutLike(likes: seq<Like>, user: UserId): (rest: seq<Like>)
    ensures Count(LikerIds(likes), user) > 0 ==>
              |rest| == |likes| - 1 &&
              Count(LikerIds(rest), user) == Count(LikerIds(likes), user) - 1 &&
              multiset(rest) + multiset{Like(user)} == multiset(likes)
    ensures Count(LikerIds(likes), user) == 0 && likes != [] ==> rest == likes[..|likes| - 1]
  {
    var i := IndexOf(LikerIds(likes), user);
    if 0 <= i then
      LikerIdsSplice(likes, i);
      CountAfterSplice(LikerIds(likes), i, user);
      SpliceOne(likes, i)
    else if likes == [] then SpliceOne(likes, i)
    else
      SpliceMinusOneDropsLast(likes);
      SpliceOne(likes, i)
  }

  /** The comments the remove-comment handler leaves behind:
      `comments.splice(comments.map(..).indexOf(commentId), 1)`. */
  function WithoutComment(comments: seq<Comment>, commentId: CommentId): (rest: seq<Comment>)
    ensures Count(CommentIds(comments), commentId) > 0 ==>
              |rest| == |comments| - 1 &&
              Count(CommentIds(rest), commentId) == Count(CommentIds(comments), commentId) - 1
    ensures Count(CommentIds(comments), commentId) == 0 && comments != [] ==>
              rest == comments[..|comments| - 1]
  {
    var i := IndexOf(CommentIds(comments), commentId);
    if 0 <= i then
      CommentIdsSplice(comments, i);
      CountAfterSplice(CommentIds(comments), i, commentId);
      SpliceOne(comments, i)
    else if comments == [] then SpliceOne(comments, i)
    else
      SpliceMinusOneDropsLast(comments);
      SpliceOne(comments, i)
  }

  /** The invariant the like handlers keep: no user appears twice in `likes`. */
  ghost predicate OneLikePerUser(likes: seq<Like>) {
    forall u :: Count(LikerIds(likes), u) <= 1
  }

  /** The document a create request saves. */
  function NewPost(user: UserId, body: PostBody): (p: Post)
    ensures p.owner == user && p.likes == [] && p.comments == []
    ensures p.text == body.text && p.name == body.name && p.avatar == body.avatar
    ensures OneLikePerUser(p.likes)
  {
    Post(user, body.text, body.name, body.avatar, [], [])
  }

  /** The comment an add-comment request puts in front of the others. */
  function NewComment(commentId: CommentId, user: UserId, body: PostBody): (c: Comment)
    ensures c.id == commentId && c.user == user
    ensures c.text == body.text && c.name == body.name && c.avatar == body.avatar
  {
    Comment(commentId, body.text, body.name, body.avatar, user)
  }

  lemma LikerIdsPush(likes: seq<Like>, like: Like)
    ensures LikerIds(likes + [like]) == LikerIds(likes) + [like.user]
  {
  }

  lemma CommentIdsUnshift(c: Comment, comments: seq<Comment>)
    ensures CommentIds([c] + comments) == [c.id] + CommentIds(comments)
  {
  }

  lemma LikerIdsSplice(likes: seq<Like>, i: nat)
    requires i < |likes|
    ensures LikerIds(SpliceOne(likes, i)) == SpliceOne(LikerIds(likes), i)
  {
  }

  lemma CommentIdsSplice(comments: seq<Comment>, i: nat)
    requires i < |comments|
    ensures CommentIds(SpliceOne(comments, i)) == SpliceOne(CommentIds(comments), i)
  {
  }

  /** Liking by a user who has not liked the post adds exactly one like for
      that user, and keeps every user at one like at most. */
  lemma {:induction false} LikeKeepsOneLikePerUser(likes: seq<Like>, user: UserId)
    requires OneLikePerUser(likes)
    requires Count(LikerIds(likes), user) == 0
    ensures OneLikePerUser(likes + [Like(user)])
    ensures Count(LikerIds(likes + [Like(user)]), user) == 1
  {
    LikerIdsPush(likes, Like(user));
    forall u
      ensures Count(LikerIds(likes + [Like(user)]), u) == Count(LikerIds(likes), u) + (if user == u then 1 else 0)
    {
      CountAfterPush(LikerIds(likes), user, u);
    }
  }

  /** Unlike takes out the like at the first position whose user matches,
      and only that one: the entries before it and after it stay in order. */
  lemma UnlikeRemovesFirstLike(likes: seq<Like>, user: UserId)
    requires Count(LikerIds(likes), user) > 0
    ensures var i := IndexOf(LikerIds(likes), user);
            && 0 <= i < |likes|
            && likes[i].user == user
            && (forall j :: 0 <= j < i ==> likes[j].user != user)
            && WithoutLike(likes, user) == likes[..i] + likes[i + 1..]
  {
    var ids := LikerIds(likes);
    var i := IndexOf(ids, user);
    FilterGuardMeansFound(ids, user);
    forall j | 0 <= j < i ensures likes[j].user != user {
      assert ids[j] == ids[..i][j];
    }
  }

  /** Removing a comment takes out the first comment carrying the id, and
      only that one: the comments before it and after it stay in order. */
  lemma UncommentRemovesFirst(comments: seq<Comment>, commentId: CommentId)
    requires Count(CommentIds(comments), commentId) > 0
    ensures var i := IndexOf(CommentIds(comments), commentId);
            && 0 <= i < |comments|
            && comments[i].id == commentId
            && (forall j :: 0 <= j < i ==> comments[j].id != commentId)
            && WithoutComment(comments, commentId) == comments[..i] + comments[i + 1..]
  {
    var ids := CommentIds(comments);
    var i := IndexOf(ids, commentId);
    FilterGuardMeansFound(ids, commentId);
    forall j | 0 <= j < i ensures comments[j].id != commentId {
      assert ids[j] == ids[..i][j];
    }
  }

  /** Unliking by a user who has liked the post leaves that user with no
      like, and keeps every user at one like at most. */
  lemma {:induction false} UnlikeKeepsOneLikePerUser(likes: seq<Like>, user: UserId)
    requires OneLikePerUser(likes)
    requires Count(LikerIds(likes), user) > 0
    ensures var rest := WithoutLike(likes, user);
            OneLikePerUser(rest) && Count(LikerIds(rest), user) == 0
  {
    var ids := LikerIds(likes);
    var i := IndexOf(ids, user);
    FilterGuardMeansFound(ids, user);
    LikerIdsSplice(likes, i);
    forall u
      ensures Count(LikerIds(SpliceOne(likes, i)), u) == Count(ids, u) - (if ids[i] == u then 1 else 0)
    {
      CountAfterSplice(ids, i, u);
    }
  }

  /** For a user who has not liked the post, a like followed by an unlike
      gives back the original `likes`. */
  lemma {:induction false} LikeThenUnlike(likes: seq<Like>, user: UserId)
    requires Count(LikerIds(likes), user) == 0
    ensures var liked := likes + [Like(user)];
            Count(LikerIds(liked), user) > 0 &&
            WithoutLike(liked, user) == likes
  {
    var liked := likes + [Like(user)];
    LikerIdsPush(likes, Like(user));
    IndexOfPushed(LikerIds(likes), user);
    assert SpliceOne(liked, |likes|) == liked[..|likes|];
  }

  /** A comment put in front of the others is the first one found by its
      id, so removing that id gives back the original `comments`, whatever
      comments already carry the same id. */
  lemma {:induction false} CommentThenUncomment(c: Comment, comments: seq<Comment>)
    ensures var commented := [c] + comments;
            Count(CommentIds(commented), c.id) > 0 &&
            WithoutComment(commented, c.id) == comments
  {
    var commented := [c] + comments;
    CommentIdsUnshift(c, comments);
    IndexOfUnshifted(c.id, CommentIds(comments));
    assert commented[1..] == comments;
  }

  /** A post saved under a fresh id and then removed by its owner leaves
      the store as it was; anyone else cannot remove it. */
  lemma {:induction false} CreateThenDeleteInStore(posts: map<PostId, Post>, id: PostId, user: UserId, body: PostBody)
    requires id !in posts
    ensures var created := posts[id := NewPost(user, body)];
            && id in created && created[id].owner == user
            && created - {id} == posts
  {
    var created := posts[id := NewPost(user, body)];
    assert created.Keys - {id} == posts.Keys;
  }

  /** Overwriting an entry and then writing its old value back restores the map. */
  lemma RestoreEntry<K, V>(m: map<K, V>, k: K, v: V)
    requires k in m
    ensures m[k := v][k := m[k]] == m
  {
  }

  /** The round trip of `LikeThenUnlike`, on a whole store of posts. */
  lemma LikeThenUnlikeInStore(posts: map<PostId, Post>, id: PostId, user: UserId)
    requires id in posts && !HasLiked(posts[id], user)
    ensures var liked := posts[id := posts[id].(likes := posts[id].likes + [Like(user)])];
            && HasLiked(liked[id], user)
            && liked[id := liked[id].(likes := WithoutLike(liked[id].likes, user))] == posts
  {
    LikeThenUnlike(posts[id].likes, user);
    RestoreEntry(posts, id, posts[id].(likes := posts[id].likes + [Like(user)]));
  }

  /** The round trip of `CommentThenUncomment`, on one post. */
  lemma CommentThenUncommentOnPost(p: Post, c: Comment)
    ensures var q := p.(comments := [c] + p.comments);
            HasComment(q, c.id) && q.(comments := WithoutComment(q.comments, c.id)) == p
  {
    CommentThenUncomment(c, p.comments);
  }

  /** The round trip of `CommentThenUncomment`, on a whole store of posts. */
  lemma CommentThenUncommentInStore(posts: map<PostId, Post>, id: PostId, c: Comment)
    requires id in posts
    ensures var commented := posts[id := posts[id].(comments := [c] + posts[id].comments)];
            && HasComment(commented[id], c.id)
            && commented[id := commented[id].(comments := WithoutComment(commented[id].comments, c.id))] == posts
  {
    var p := posts[id];
    var q := p.(comments := [c] + p.comments);
    CommentThenUncommentOnPost(p, c);
    RestoreEntry(posts, id, q);
  }

  /** The collection of post documents. */
  class PostStore {
    var posts: map<PostId, Post>

    /** Every stored post has at most one like per user. */
    ghost predicate Valid()
      reads this
    {
      forall id :: id in posts ==> OneLikePerUser(posts[id].likes)
    }

    constructor ()
      ensures Valid() && posts == map[]
    {
      posts := map[];
    }

    /** POST /api/posts: a body that fails validation is rejected before
        anything is saved; otherwise a new post owned by the acting user,
        with no likes and no comments, is saved under a fresh id. */
    method Create(id: PostId, user: UserId, body: PostBody, bodyValid: bool) returns (o: Outcome)
      requires Valid()
      requires id !in posts
      modifies this
      ensures Valid()
      ensures o == (if bodyValid then Ok else ValidationFailed)
      ensures posts == if o.Ok? then old(posts)[id := NewPost(user, body)] else old(posts)
    {
      if !bodyValid {
        return ValidationFailed;
      }
      var newPost := NewPost(user, body);
      posts := posts[id := newPost];
      o := Ok;
    }

    /** DELETE /api/posts/:id: only the owner may remove the post. */
    method Delete(id: PostId, user: UserId) returns (o: Outcome)
      requires Valid()
      modifies this
      ensures Valid()
      ensures o == if id !in old(posts) then PostNotFound
                   else if old(posts)[id].owner != user then NotAuthorized
                   else Ok
      ensures posts == if o.Ok? then old(posts) - {id} else old(posts)
      ensures o.Ok? ==> id !in posts
    {
      if id !in posts {
        return PostNotFound;
      }
      var singlePost := posts[id];
      if singlePost.owner != user {
        return NotAuthorized;
      }
      posts := posts - {id};
      o := Ok;
    }

    /** POST /api/posts/like/:id: a user who already likes the post is
        refused; otherwise one like for the user is pushed at the end. */
    method LikePost(id: PostId, user: UserId) returns (o: Outcome)
      requires Valid()
      modifies this
      ensures Valid()
      ensures o == if id !in old(posts) then PostNotFound
                   else if HasLiked(old(posts)[id], user) then AlreadyLiked
                   else Ok
      ensures !o.Ok? ==> posts == old(posts)
      ensures o.Ok? ==>
                posts == old(posts)[id := old(posts)[id].(likes := old(posts)[id].likes + [Like(user)])]
      ensures o.Ok? ==> Count(LikerIds(posts[id].likes), user) == 1
    {
      if id !in posts {
        return PostNotFound;
      }
      var singlePost := posts[id];
      if HasLiked(singlePost, user) {
        return AlreadyLiked;
      }
      LikeKeepsOneLikePerUser(singlePost.likes, user);
      singlePost := singlePost.(likes := singlePost.likes + [Like(user)]);
      posts := posts[id := singlePost];
      o := Ok;
    }

    /** POST /api/posts/unlike/:id: a user who does not like the post is
        refused; otherwise the like at the first position holding the user
        is spliced out. */
    method UnlikePost(id: PostId, user: UserId) returns (o: Outcome)
      requires Valid()
      modifies this
      ensures Valid()
      ensures o == if id !in old(posts) then PostNotFound
                   else if !HasLiked(old(posts)[id], user) then NotLiked
                   else Ok
      ensures !o.Ok? ==> posts == old(posts)
      ensures o.Ok? ==>
                posts == old(posts)[id := old(posts)[id].(likes := WithoutLike(old(posts)[id].likes, user))]
      ensures o.Ok? ==> !HasLiked(posts[id], user) && |posts[id].likes| == |old(posts)[id].likes| - 1
    {
      if id !in posts {
        return PostNotFound;
      }
      var singlePost := posts[id];
      if !HasLiked(singlePost, user) {
        return NotLiked;
      }
      var removeIndex := IndexOf(LikerIds(singlePost.likes), user);
      UnlikeKeepsOneLikePerUser(singlePost.likes, user);
      FilterGuardMeansFound(LikerIds(singlePost.likes), user);
      singlePost := singlePost.(likes := SpliceOne(singlePost.likes, removeIndex));
      posts := posts[id := singlePost];
      o := Ok;
    }

    /** POST /api/posts/comment/:id: a body that fails validation is
        rejected before the post is looked up; otherwise a new comment by
        the acting user is put in front of the others. */
    method AddComment(id: PostId, user: UserId, body: PostBody, bodyValid: bool, commentId: CommentId)
      returns (o: Outcome)
      requires Valid()
      modifies this
      ensures Valid()
      ensures o == if !bodyValid then ValidationFailed
                   else if id !in old(posts) then PostNotFound
                   else Ok
      ensures !o.Ok? ==> posts == old(posts)
      ensures o.Ok? ==>
                var c := NewComment(commentId, user, body);
                posts == old(posts)[id := old(posts)[id].(comments := [c] + old(posts)[id].comments)]
    {
      if !bodyValid {
        return ValidationFailed;
      }
      if id !in posts {
        return PostNotFound;
      }
      var singlePost := posts[id];
      var newComment := NewComment(commentId, user, body);
      singlePost := singlePost.(comments := [newComment] + singlePost.comments);
      posts := posts[id := singlePost];
      o := Ok;
    }

    /** DELETE /api/posts/comment/:id/:comment_id: an id that no comment
        carries is refused; otherwise the first comment with that id is
        spliced out. Any authenticated user may do this. */
    method RemoveComment(id: PostId, commentId: CommentId) returns (o: Outcome)
      requires Valid()
      modifies this
      ensures Valid()
      ensures o == if id !in old(posts) then PostNotFound
                   else if !HasComment(old(posts)[id], commentId) then CommentNotFound
                   else Ok
      ensures !o.Ok? ==> posts == old(posts)
      ensures o.Ok? ==>
                posts == old(posts)[id := old(posts)[id].(comments := WithoutComment(old(posts)[id].comments, commentId))]
      ensures o.Ok? ==> |posts[id].comments| == |old(posts)[id].comments| - 1
    {
      if id !in posts {
        return PostNotFound;
      }
      var singlePost := posts[id];
      if !HasComment(singlePost, commentId) {
        return CommentNotFound;
      }
      var removeIndex := IndexOf(CommentIds(singlePost.comments), commentId);
      FilterGuardMeansFound(CommentIds(singlePost.comments), commentId);
      singlePost := singlePost.(comments := SpliceOne(singlePost.comments, removeIndex));
      posts := posts[id := singlePost];
      o := Ok;
    }
  }

  /** A post created with a valid body and deleted by its owner leaves the
      store as it was; a delete by another user before that is refused. */
  method CreateThenDelete(store: PostStore, id: PostId, user: UserId, other: UserId, body: PostBody)
    returns (created: Outcome, refused: Outcome, deleted: Outcome)
    requires store.Valid() && id !in store.posts && other != user
    modifies store
    ensures created.Ok? && refused == NotAuthorized && deleted.Ok?
    ensures store.posts == old(store.posts)
  {
    CreateThenDeleteInStore(store.posts, id, user, body);
    created := store.Create(id, user, body, true);
    refused := store.Delete(id, other);
    deleted := store.Delete(id, user);
  }

  /** Liking twice: the second like is refused and changes nothing. */
  method LikeTwice(store: PostStore, id: PostId, user: UserId) returns (first: Outcome, second: Outcome)
    requires store.Valid() && id in store.posts
    modifies store
    ensures first.Ok? <==> !HasLiked(old(store.posts)[id], user)
    ensures second == AlreadyLiked
    ensures id in store.posts && HasLiked(store.posts[id], user)
  {
    first := store.LikePost(id, user);
    ghost var afterFirst := store.posts;
    second := store.LikePost(id, user);
    assert store.posts == afterFirst;
  }

  /** A like followed by an unlike from a user who had not liked the post
      leaves the store as it was. */
  method LikeThenUnlikeRestores(store: PostStore, id: PostId, user: UserId) returns (liked: Outcome, unliked: Outcome)
    requires store.Valid() && id in store.posts
    requires !HasLiked(store.posts[id], user)
    modifies store
    ensures liked.Ok? && unliked.Ok?
    ensures store.posts == old(store.posts)
  {
    LikeThenUnlikeInStore(store.posts, id, user);
    liked := store.LikePost(id, user);
    unliked := store.UnlikePost(id, user);
  }

  /** A comment added and then removed by the id it was given leaves the
      store as it was. */
  method CommentThenUncommentRestores(store: PostStore, id: PostId, user: UserId, body: PostBody, commentId: CommentId)
    returns (added: Outcome, removed: Outcome)
    requires store.Valid() && id in store.posts
    modifies store
    ensures added.Ok? && removed.Ok?
    ensures store.posts == old(store.posts)
  {
    CommentThenUncommentInStore(store.posts, id, NewComment(commentId, user, body));
    added := store.AddComment(id, user, body, true, commentId);
    removed := store.RemoveComment(id, commentId);
  }
}
