/**
  controllers/feed.js: the post handlers over the in-memory database. Each
  handler gets the authenticated user id, the route parameters, the body as
  the route's validators left it, the errors they recorded and the stored
  upload, if any. Reads are functions of the database; writes are methods
  whose contracts give the whole new state.
 */
module Feed {
  import opened Wrappers
  import opened Text
  import opened Helpers
  import opened Models
  import opened FeedRoutes
  import opened App

  const PageSize := 2

  const NoImageMessage := "No image provided."
  const NoFileMessage := "No file picked."
  const NotFoundMessage := "Could not find post."
  const NotAuthorizedMessage := "Not authorized."
  /** The TypeError a handler raises when it dereferences a user that
      findById did not find; it carries no status. Its text depends on the
      JavaScript engine: this is the wording of older V8 releases, newer ones
      say "Cannot read properties of null (reading 'posts')". */
  const NullUserMessage := "Cannot read property 'posts' of null"

  function NotFound(): Thrown { Thrown(NotFoundMessage, 404, []) }
  function NotAuthorized(): Thrown { Thrown(NotAuthorizedMessage, 403, []) }
  function NullUser(): Thrown { Thrown(NullUserMessage, 0, []) }

  /** A stored post as the list and create responses show it. */
  datatype PostDoc = PostDoc(id: PostId, post: Post)

  datatype PostsPage = PostsPage(posts: seq<PostDoc>, totalItems: nat)

  /** The create response: the new post and its creator's id and name. */
  datatype Created = Created(post: PostDoc, creatorId: UserId, creatorName: string)

  /** `skip(n)` on a query result. */
  function Skip(s: seq<PostId>, n: nat): (r: seq<PostId>)
    ensures n < |s| ==> r == s[n..]
    ensures n >= |s| ==> r == []
  {
    if n < |s| then s[n..] else []
  }

  /** `limit(n)` on a query result, for n >= 1 (`limit(0)` means no limit
      and is never used here). */
  function Limit(s: seq<PostId>, n: nat): (r: seq<PostId>)
    requires n >= 1
    ensures |r| == if |s| < n then |s| else n
    ensures r == s[..|r|]
  {
    if |s| <= n then s else s[..n]
  }

  /** The ids on page `page` (counted from 1) of the natural order: a run
      of at most two consecutive ids, starting after the earlier pages. */
  function PageOf(order: seq<PostId>, page: nat): (r: seq<PostId>)
    requires page >= 1
    ensures |r| <= PageSize
    ensures forall k :: 0 <= k < |r| ==> (page - 1) * PageSize + k < |order| && r[k] == order[(page - 1) * PageSize + k]
  {
    Limit(Skip(order, (page - 1) * PageSize), PageSize)
  }

  /** A page holds at most two ids: those at positions (page-1)*2 and
      (page-1)*2+1 of the natural order, as far as they exist. */
  lemma PageContents(order: seq<PostId>, page: nat)
    requires page >= 1
    ensures var r := PageOf(order, page); var start := (page - 1) * PageSize;
      && |r| <= PageSize
      && |r| == (if start >= |order| then 0 else if |order| - start < PageSize then |order| - start else PageSize)
      && forall i :: 0 <= i < |r| ==> start + i < |order| && r[i] == order[start + i]
  {
  }

  /** Every post is on exactly the page its position says: position i is
      entry i % 2 of page i / 2 + 1. */
  lemma {:induction false} PostOnItsPage(order: seq<PostId>, i: nat)
    requires i < |order|
    ensures var r := PageOf(order, i / PageSize + 1); i % PageSize < |r| && r[i % PageSize] == order[i]
  {
    PageContents(order, i / PageSize + 1);
    assert (i / PageSize + 1 - 1) * PageSize + i % PageSize == i;
  }

  /** In a list without repeats, a post is on no page but its own. */
  lemma {:induction false} PostOnlyOnItsPage(order: seq<PostId>, i: nat, page: nat)
    requires Distinct(order) && i < |order| && page >= 1
    requires order[i] in PageOf(order, page)
    ensures page == i / PageSize + 1
  {
    var r := PageOf(order, page);
    var k :| 0 <= k < |r| && r[k] == order[i];
    assert order[(page - 1) * PageSize + k] == order[i];
    assert (page - 1) * PageSize + k == i;
  }

  /** Pages after the last one are empty: with N posts, page ceil(N/2)+1 and
      every later one list nothing. */
  lemma {:induction false} PastTheLastPage(order: seq<PostId>, page: nat)
    requires page > (|order| + PageSize - 1) / PageSize
    ensures PageOf(order, page) == []
  {
    assert (page - 1) * PageSize >= |order|;
  }

  /** getPosts: the requested page (1 when the query gives none) of the
      natural order, and the total count of posts whatever the page. */
  function GetPosts(db: Db, page: Option<nat>): (r: Outcome<PostsPage>)
    reads db
    requires db.Valid()
    requires page.Some? ==> page.value >= 1
    ensures r.Done? && r.status == 200
    ensures r.value.totalItems == |db.order|
    ensures |r.value.posts| <= PageSize
    ensures var ids := PageOf(db.order, page.GetOr(1));
      |r.value.posts| == |ids|
      && forall i :: 0 <= i < |ids| ==> ids[i] in db.posts && r.value.posts[i] == PostDoc(ids[i], db.posts[ids[i]])
  {
    var ids := PageOf(db.order, page.GetOr(1));
    PageContents(db.order, page.GetOr(1));
    Done(200, PostsPage(Docs(ids, db.posts), |db.order|))
  }

  /** The stored documents for a list of ids, in that order. */
  function Docs(ids: seq<PostId>, posts: map<PostId, Post>): (docs: seq<PostDoc>)
    requires forall id :: id in ids ==> id in posts
    ensures |docs| == |ids|
    ensures forall i :: 0 <= i < |ids| ==> docs[i] == PostDoc(ids[i], posts[ids[i]])
  {
    if ids == [] then [] else [PostDoc(ids[0], posts[ids[0]])] + Docs(ids[1..], posts)
  }

  /** getPost: the stored post, or the not-found rejection. No ownership
      check: anyone may read. */
  function GetPost(db: Db, postId: PostId): (r: Outcome<Post>)
    reads db
    ensures r.Done? <==> postId in db.posts
    ensures r.Done? ==> r.status == 200 && r.value == db.posts[postId]
    ensures !r.Done? ==> r == AsyncReject(NotFound())
  {
    if postId in db.posts then Done(200, db.posts[postId]) else AsyncReject(NotFound())
  }

  /** postPosts. The validation gate runs first, then the image check, both
      synchronous and before any write. Then the post is saved, and only
      afterwards is its creator looked up and the id appended to the
      creator's list; when the creator is not a stored user that second step
      fails and the saved post stays behind. */
  method PostPosts(db: Db, userId: UserId, body: PostBody, file: Option<UploadedFile>, validationErrors: seq<FieldError>)
    returns (r: Outcome<Created>)
    requires db.Valid()
    modifies db
    ensures db.Valid()
    ensures validationErrors != [] ==> r == SyncThrow(ThrowErrorIfInvalid(validationErrors).value) && unchanged(db)
    ensures validationErrors == [] && file.None? ==> r == SyncThrow(Thrown(NoImageMessage, 400, [])) && unchanged(db)
    ensures validationErrors == [] && file.Some? ==>
      var id := old(db.nextId);
      var post := Post(body.title, body.content, ReplaceFirst(file.value.path, '\\', '/'), userId);
      && id !in old(db.posts)
      && db.posts == old(db.posts)[id := post]
      && db.order == old(db.order) + [id]
      && (userId in old(db.users) ==>
            db.users == AppendOwned(old(db.users), userId, id)
            && r == Done(201, Created(PostDoc(id, post), userId, old(db.users)[userId].name)))
      && (userId !in old(db.users) ==> db.users == old(db.users) && r == AsyncReject(NullUser()))
    ensures Linked(old(db.posts), old(db.users)) && userId in old(db.users) ==> Linked(db.posts, db.users)
    ensures validationErrors == [] && file.Some? && userId !in old(db.users) ==> !Linked(db.posts, db.users)
  {
    var invalid := ThrowErrorIfInvalid(validationErrors);
    if invalid.Some? {
      return SyncThrow(invalid.value);
    }
    if file.None? {
      return SyncThrow(Thrown(NoImageMessage, 400, []));
    }
    var url := ReplaceFirst(file.value.path, '\\', '/');
    var post := Post(body.title, body.content, url, userId);
    var id := db.SaveNewPost(post);
    if userId !in db.users {
      CreateByUnknownOrphans(old(db.posts), db.users, id, post);
      return AsyncReject(NullUser());
    }
    var creator := db.users[userId];
    db.PushOwned(userId, id);
    if Linked(old(db.posts), old(db.users)) {
      CreateKeepsLinked(old(db.posts), old(db.users), id, post);
    }
    r := Done(201, Created(PostDoc(id, post), userId, creator.name));
  }

  /** The image URL putPost settles on: a newly stored upload wins over the
      `image` body field. */
  function ChosenImage(image: Option<string>, file: Option<UploadedFile>): (url: Option<string>)
    ensures file.Some? ==> url == Some(ReplaceFirst(file.value.path, '\\', '/'))
    ensures file.None? ==> url == image
  {
    if file.Some? then Some(ReplaceFirst(file.value.path, '\\', '/')) else image
  }

  /** JavaScript truthiness of an optional string: present and not empty. */
  predicate Truthy(s: Option<string>) {
    s.Some? && s.value != ""
  }

  /** putPost. Validation, then the image choice (no image at all is a
      synchronous 400 before any lookup), then existence (404) and ownership
      (403), which touch nothing. On success only the post's title, content
      and image change, and the old image is cleared exactly when the image
      URL changed. */
  method PutPost(db: Db, disk: Disk, userId: UserId, postId: PostId, body: PostBody,
                 file: Option<UploadedFile>, validationErrors: seq<FieldError>)
    returns (r: Outcome<Post>)
    requires db.Valid()
    modifies db, disk
    ensures db.Valid()
    ensures validationErrors != [] ==> r == SyncThrow(ThrowErrorIfInvalid(validationErrors).value) && unchanged(db, disk)
    ensures validationErrors == [] && !Truthy(ChosenImage(body.image, file)) ==>
      r == SyncThrow(Thrown(NoFileMessage, 400, [])) && unchanged(db, disk)
    ensures validationErrors == [] && Truthy(ChosenImage(body.image, file)) && postId !in old(db.posts) ==>
      r == AsyncReject(NotFound()) && unchanged(db, disk)
    ensures validationErrors == [] && Truthy(ChosenImage(body.image, file)) && postId in old(db.posts)
            && old(db.posts[postId].creator) != userId ==>
      r == AsyncReject(NotAuthorized()) && unchanged(db, disk)
    ensures validationErrors == [] && Truthy(ChosenImage(body.image, file)) && postId in old(db.posts)
            && old(db.posts[postId].creator) == userId ==>
      var was := old(db.posts[postId]);
      var url := ChosenImage(body.image, file).value;
      var now := was.(title := body.title, content := body.content, imageUrl := url);
      && db.posts == old(db.posts)[postId := now]
      && db.order == old(db.order) && db.users == old(db.users) && db.nextId == old(db.nextId)
      && disk.unlinked == old(disk.unlinked) + (if url != was.imageUrl then [ResolveFromRoot(disk.root, was.imageUrl)] else [])
      && r == Done(200, now)
    ensures Linked(old(db.posts), old(db.users)) ==> Linked(db.posts, db.users)
  {
    var invalid := ThrowErrorIfInvalid(validationErrors);
    if invalid.Some? {
      return SyncThrow(invalid.value);
    }
    var imageUrl := body.image;
    if file.Some? {
      imageUrl := Some(ReplaceFirst(file.value.path, '\\', '/'));
    }
    if !Truthy(imageUrl) {
      return SyncThrow(Thrown(NoFileMessage, 400, []));
    }
    if postId !in db.posts {
      return AsyncReject(NotFound());
    }
    var result := db.posts[postId];
    if result.creator != userId {
      return AsyncReject(NotAuthorized());
    }
    if imageUrl.value != result.imageUrl {
      ClearImage(disk, result.imageUrl);
    }
    if Linked(db.posts, db.users) {
      EditKeepsLinked(db.posts, db.users, postId, body.title, body.content, imageUrl.value);
    }
    result := result.(title := body.title, content := body.content, imageUrl := imageUrl.value);
    db.posts := db.posts[postId := result];
    r := Done(200, result);
  }

  const DeletedMessage := "Deleted message"

  /** deletePost. Existence (404) and ownership (403) first, touching nothing.
      Then the image is cleared once, the post removed, and only then is the
      user looked up and the id pulled from its list. */
  method DeletePost(db: Db, disk: Disk, userId: UserId, postId: PostId) returns (r: Outcome<string>)
    requires db.Valid()
    modifies db, disk
    ensures db.Valid()
    ensures postId !in old(db.posts) ==> r == AsyncReject(NotFound()) && unchanged(db, disk)
    ensures postId in old(db.posts) && old(db.posts[postId].creator) != userId ==>
      r == AsyncReject(NotAuthorized()) && unchanged(db, disk)
    ensures postId in old(db.posts) && old(db.posts[postId].creator) == userId ==>
      && disk.unlinked == old(disk.unlinked) + [ResolveFromRoot(disk.root, old(db.posts[postId].imageUrl))]
      && db.posts == old(db.posts) - {postId}
      && db.order == Without(old(db.order), postId)
      && db.nextId == old(db.nextId)
      && (userId in old(db.users) ==> db.users == PullOwned(old(db.users), userId, postId) && r == Done(200, DeletedMessage))
      && (userId !in old(db.users) ==> db.users == old(db.users) && r == AsyncReject(NullUser()))
    ensures Linked(old(db.posts), old(db.users)) ==> Linked(db.posts, db.users) && r.Done? == (postId in old(db.posts) && old(db.posts[postId].creator) == userId)
  {
    if postId !in db.posts {
      return AsyncReject(NotFound());
    }
    var result := db.posts[postId];
    if result.creator != userId {
      return AsyncReject(NotAuthorized());
    }
    ClearImage(disk, result.imageUrl);
    if Linked(db.posts, db.users) {
      DeleteKeepsLinked(db.posts, db.users, postId);
    }
    db.RemovePost(postId);
    if userId !in db.users {
      return AsyncReject(NullUser());
    }
    db.PullFromOwner(userId, postId);
    r := Done(200, DeletedMessage);
  }

  /** getStatus: the user's status, or a rejection (with the post handlers'
      not-found message) for an unknown user. */
  function GetStatus(db: Db, userId: UserId): (r: Outcome<string>)
    reads db
    ensures r.Done? <==> userId in db.users
    ensures r.Done? ==> r.status == 200 && r.value == db.users[userId].status
    ensures !r.Done? ==> r == AsyncReject(NotFound())
  {
    if userId in db.users then Done(200, db.users[userId].status) else AsyncReject(NotFound())
  }

  /** patchStatus: sets the user's status and nothing else; afterwards
      getStatus answers the new status. */
  method PatchStatus(db: Db, userId: UserId, newStatus: string) returns (r: Outcome<string>)
    requires db.Valid()
    modifies db
    ensures db.Valid()
    ensures userId !in old(db.users) ==> r == AsyncReject(NotFound()) && unchanged(db)
    ensures userId in old(db.users) ==>
      && db.users == old(db.users)[userId := old(db.users)[userId].(status := newStatus)]
      && db.posts == old(db.posts) && db.order == old(db.order) && db.nextId == old(db.nextId)
      && r == Done(200, newStatus)
      && GetStatus(db, userId) == Done(200, newStatus)
    ensures Linked(old(db.posts), old(db.users)) ==> Linked(db.posts, db.users)
  {
    if userId !in db.users {
      return AsyncReject(NotFound());
    }
    var user := db.users[userId];
    if Linked(db.posts, db.users) {
      StatusKeepsLinked(db.posts, db.users, userId, newStatus);
    }
    db.users := db.users[userId := user.(status := newStatus)];
    r := Done(200, newStatus);
  }

  /** What the client sees of the handlers' errors. The synchronous 400s
      keep their status; the 404 and 403 travel as rejections and arrive as
      500, and would arrive as set if handleAsyncError read `statusCode`. */
  lemma {:induction false} ClientStatuses(errors: seq<FieldError>)
    requires errors != []
    ensures ClientResponse(ThrowErrorIfInvalid(errors).value, false).status == 400
    ensures ClientResponse(ThrowErrorIfInvalid(errors).value, false).errors == errors
    ensures ClientResponse(Thrown(NoImageMessage, 400, []), false).status == 400
    ensures ClientResponse(NotFound(), true).status == 500 && IntendedClientResponse(NotFound(), true).status == 404
    ensures ClientResponse(NotAuthorized(), true).status == 500 && IntendedClientResponse(NotAuthorized(), true).status == 403
    ensures ClientResponse(NullUser(), true).status == 500 && IntendedClientResponse(NullUser(), true).status == 500
  {
  }
}
