# node-rest feed backend — a Dafny model of its handlers

This project models the core of a small Express blogging backend: the post
handlers of the feed controller (list, create, read, update, delete, status
get/set), the helpers they share (validation gate, asynchronous error
rewrite, image removal), the route table with its body validators, the
upload filter and error middleware of the application, the signup handler
and the GraphQL `createUser` resolver.

The database is an in-memory store (`Models.Db`): a map of posts with the
collection's natural order, a map of users each listing the ids of its posts,
and a counter that hands out fresh ids. The authenticated user id is an input
of every handler. Image removal is recorded in a ghost log of the paths
passed to unlink (`Helpers.Disk`). Each feed handler returns an `Outcome`:

- `Done(status, value)` is a reply.
- `SyncThrow(error)` is an error thrown before the first promise. Express
  hands it to the error middleware unchanged.
- `AsyncReject(error)` is a promise rejection. It passes through
  `handleAsyncError` first.

`App.Respond` turns an error into what the client receives.

Modules follow the source files:

- `Helpers` models utils/helpers.js.
- `FeedRoutes` models routes/feed.js.
- `App` models app.js.
- `Feed` models controllers/feed.js.
- `Auth` models controllers/auth.js.
- `Resolvers` models graphql/resolvers.js.
- `Models` holds the records, the store and its integrity relation.
- `Text` holds trimming, first-match replacement and id text.
- `Wrappers` holds `Option`.

Beyond each operation's own contract, the model proves:

- Creating, editing and deleting a post keeps posts and users linked
  (`Models.Linked`). So do changing a status and inserting a user.
- Creating a post for an unknown user leaves an orphan post.
- `createUser` keeps emails unique. `signup` keeps them unique only when the
  email was free.
- Pagination puts every post of a repeat-free order on its own page and on
  no other, and pages past the end are empty.
- The trimming validator ignores surrounding whitespace.
- A stored upload's URL is `images/<uuid>.jpg` whatever the platform's path
  separator.

## Model

| member | source | states |
|---|---|---|
| `Text.TrimStart` | routes/feed.js:13-15 | the result is a suffix of the input that is empty or starts with a non-space |
| `Text.TrimStartDropsSpaces` | routes/feed.js:13-15 | only spaces are dropped at the front |
| `Text.TrimEnd` | routes/feed.js:13-15 | the result is a prefix of the input that is empty or ends with a non-space |
| `Text.TrimEndDropsSpaces` | routes/feed.js:13-15 | only spaces are dropped at the back |
| `Text.Trim` | routes/feed.js:13-15 | the trimmed value has no space at either end and is no longer than the input |
| `Text.TrimSurrounded` | routes/feed.js:13-18 | trimming a core wrapped in whitespace gives back exactly the core |
| `Text.ReplaceFirst` | controllers/feed.js:41 | the length is kept and a path without a backslash is unchanged |
| `Text.ReplaceFirstSplits` | controllers/feed.js:41 | only the first backslash becomes '/': everything before and after it is kept, later backslashes included |
| `Text.ReplaceFirstAfter` | controllers/feed.js:98 | a prefix without a backslash is copied unchanged by the replacement |
| `Text.IdText` | graphql/resolvers.js:41 | a user id's textual form is a non-empty string of decimal digits |
| `Text.IdTextRoundTrip` | graphql/resolvers.js:41 | the textual id reads back to the id it came from |
| `Text.IdTextInjective` | graphql/resolvers.js:41 | equal textual ids come from equal ids |
| `Helpers.ThrowErrorIfInvalid` | utils/helpers.js:13-23 | returns normally iff the validation list is empty; otherwise the error has status 400, the fixed message and the full list in order |
| `Helpers.AsyncStatus` | utils/helpers.js:6-9 | as written: an unset `sttatusCode` forces 500 whatever `statusCode` was |
| `Helpers.IntendedAsyncStatus` | utils/helpers.js:6-9 | with `statusCode` tested: a set status survives, an unset one becomes 500 |
| `Helpers.HandleAsyncError` | utils/helpers.js:6-11 | rewrites the status in place, leaves message and errors, and forwards the same object to `next` exactly once; without `next` nothing is forwarded |
| `Helpers.HandleAsyncErrorIntended` | utils/helpers.js:6-11 | the same, testing the intended field |
| `Helpers.ResolveFromRoot` | utils/helpers.js:26 | the unlinked path is the project root, a separator, then the stored path |
| `Helpers.ClearImage` | utils/helpers.js:25-28 | appends exactly one resolved path to the unlink log and reports nothing back |
| `Models.Without` | controllers/feed.js:161 | pull removes every occurrence of the id and keeps every other id with its multiplicity; a duplicate-free list stays duplicate-free |
| `Models.WithoutAppend` | controllers/feed.js:161 | pull distributes over concatenation, so the remaining ids keep their relative order |
| `Models.Db.SaveNewPost` | controllers/feed.js:44-51 | the post is stored under a fresh id at the end of the natural order; users unchanged; the store stays well formed |
| `Models.Db.RemovePost` | controllers/feed.js:155 | the post leaves the map and the natural order; users unchanged |
| `Models.Db.PushOwned` | controllers/feed.js:58-59 | the id is appended to that user's list, nothing else changes |
| `Models.Db.PullFromOwner` | controllers/feed.js:161-162 | every occurrence of the id leaves that user's list, nothing else changes |
| `Models.Db.SaveNewUser` | controllers/auth.js:18-24 | one new user under a fresh id, with the default status and no posts; posts unchanged |
| `Models.CreateKeepsLinked` | controllers/feed.js:44-59 | saving a post and pushing its id onto its creator's list keeps every post listed by its creator and every listed id a post of that user |
| `Models.CreateByUnknownOrphans` | controllers/feed.js:51-58 | a post saved for a user id with no user record breaks that link |
| `Models.DeleteKeepsLinked` | controllers/feed.js:153-162 | removing a post and pulling its id from the owner's list keeps the collections linked, and the owner exists |
| `Models.EditKeepsLinked` | controllers/feed.js:125-128 | rewriting title, content and image keeps the collections linked |
| `Models.StatusKeepsLinked` | controllers/feed.js:195-196 | changing a user's status keeps the collections linked |
| `Models.InsertUserKeepsLinked` | controllers/auth.js:18-24 | inserting a fresh user with no posts keeps the collections linked |
| `Models.InsertUserUnique` | graphql/resolvers.js:27-40 | inserting a user keeps emails unique iff the email was not already taken |
| `FeedRoutes.FeedRouter` | routes/feed.js:8-38 | five routes, all under /posts, and exactly the POST and PUT routes check the body |
| `FeedRoutes.Lookup` | routes/feed.js:8-38 | the route found is registered for that verb and path; none found means none is registered |
| `FeedRoutes.FieldErrors` | routes/feed.js:13-15 | a chain records an error iff the trimmed value is shorter than 5: one entry with location body, the field's name, the trimmed value and the default message |
| `FeedRoutes.CheckField` | routes/feed.js:13-15 | a chain leaves its field trimmed, the other field and the image as they were, and records the errors of the trimmed value |
| `FeedRoutes.RunChecks` | routes/feed.js:12-19 | the chains leave the image alone and record at most one error each |
| `FeedRoutes.RunOne` | routes/feed.js:13-15 | a single chain's run is that chain's trimmed body and errors |
| `FeedRoutes.RunTwo` | routes/feed.js:12-19 | two chains run one after the other: the second sees the body the first left, and the errors are the first's then the second's |
| `FeedRoutes.PostRulesTrim` | routes/feed.js:12-19 | after the POST and PUT rules both title and content are trimmed and the image is unchanged |
| `FeedRoutes.PostRulesErrors` | routes/feed.js:12-19 | the POST and PUT rules record one error per field shorter than 5 after trimming, title first |
| `FeedRoutes.PostRulesDecide` | routes/feed.js:12-19 | the request passes the POST and PUT rules iff both trimmed lengths are at least 5 |
| `FeedRoutes.PutChecksLikePost` | routes/feed.js:25-36 | PUT /posts/:postId applies exactly the POST /posts rules, title then content |
| `FeedRoutes.ReadAndDeleteUnchecked` | routes/feed.js:8-38 | GET /posts, GET /posts/:postId and DELETE /posts/:postId validate no body field |
| `FeedRoutes.NoStatusRoute` | routes/feed.js:8-40 | the feed router registers no /status route |
| `FeedRoutes.FiveAfterTrimming` | routes/feed.js:13-15 | a padded title with 4 characters after trimming fails, one with 5 passes |
| `FeedRoutes.BothFieldsFail` | routes/feed.js:12-19 | title and content are checked independently: when both are too short, both errors are reported with their trimmed values, title first |
| `FeedRoutes.BothShort` | routes/feed.js:12-19 | two short values give the title error then the content error, each with its value |
| `App.FileFilter` | app.js:24-34 | a file is kept iff its MIME type is image/png, image/jpeg or image/jpg |
| `App.Upload` | app.js:15-37 | a part is stored iff the filter keeps it, in `images`; a refused part leaves the request without a file |
| `App.StoredAsJpg` | app.js:16-21 | every kept upload is named `<uuid>.jpg` in `images`, whatever its MIME type |
| `App.UploadUrl` | app.js:15-22 | with either path separator the derived image URL is `images/<uuid>.jpg` |
| `App.JoinedUrl` | controllers/feed.js:41 | directory, separator and name become `directory/name` after the first-backslash rewrite |
| `App.OtherTypesDropped` | app.js:31-33 | any other MIME type stores nothing and raises no error |
| `App.ErrorHandler` | app.js:53-62 | the reply status is the error's status when set, else 500; message and errors pass unchanged |
| `App.ClientResponse` | app.js:53-62 | as written, a rejection reaches the client as 500 and a throw with its own status or 500; message and errors pass unchanged |
| `App.IntendedClientResponse` | utils/helpers.js:6-11 | with the corrected field, both paths answer the error's own status or 500; message and errors pass unchanged |
| `App.AsyncStatusLost` | utils/helpers.js:6-10 | as written, the reply to a rejection does not depend on the status the handler set: any two statuses give the same reply |
| `App.IntendedKeepsStatus` | utils/helpers.js:6-10 | with the corrected field, a rejected error gets exactly the reply the same error gets when thrown synchronously |
| `App.TypoChangesExactly` | utils/helpers.js:7 | the written and intended replies differ exactly for rejections whose status is set and not 500 |
| `App.Respond` | app.js:53-62 | running an error object through handleAsyncError, `next` and the middleware yields the as-written reply |
| `App.RespondIntended` | utils/helpers.js:6-11 | the same run with the corrected handleAsyncError yields the intended reply |
| `Feed.Skip` | controllers/feed.js:20 | skip drops the first n ids, or all of them |
| `Feed.Limit` | controllers/feed.js:21 | limit keeps a prefix of at most n ids |
| `Feed.PageOf` | controllers/feed.js:19-21 | a page is a run of at most 2 consecutive ids of the natural order, starting after the earlier pages |
| `Feed.PageContents` | controllers/feed.js:19-21 | a page holds at most 2 ids, those at positions (page-1)*2 and (page-1)*2+1 as far as they exist |
| `Feed.PostOnItsPage` | controllers/feed.js:19-21 | the post at position i is entry i mod 2 of page i div 2 + 1 |
| `Feed.PostOnlyOnItsPage` | controllers/feed.js:19-21 | in an order without repeats, a post appears on no page but its own |
| `Feed.PastTheLastPage` | controllers/feed.js:19-21 | any page after ceil(N/2) is empty |
| `Feed.GetPosts` | controllers/feed.js:9-30 | status 200, at most 2 posts, exactly those of the page (1 by default), and totalItems the store size whatever the page |
| `Feed.Docs` | controllers/feed.js:24-26 | the listed documents are the stored posts of the page's ids, in order |
| `Feed.GetPost` | controllers/feed.js:74-88 | the stored post with 200, or the 404 rejection iff the id is absent; no ownership check |
| `Feed.PostPosts` | controllers/feed.js:32-72 | validation gate, then missing image (400), neither writing; otherwise the post is saved with the creator and first-backslash URL, its id appended to the creator's list, reply 201; an unknown creator leaves the saved post orphaned and rejects |
| `Feed.ChosenImage` | controllers/feed.js:95-99 | an uploaded file wins over the body's image field |
| `Feed.PutPost` | controllers/feed.js:90-134 | validation, then no image (400) before any lookup, then 404 and 403 touching nothing; success changes only that post's title, content and image and clears the old image iff the URL changed |
| `Feed.DeletePost` | controllers/feed.js:136-168 | 404 and 403 touch nothing; success clears the image once, removes the post, pulls its id from the owner's list and leaves other posts unchanged |
| `Feed.GetStatus` | controllers/feed.js:170-182 | the user's status with 200, or a 404 rejection iff the user is unknown |
| `Feed.PatchStatus` | controllers/feed.js:184-202 | sets only the user's status, after which GetStatus answers it; an unknown user is rejected with nothing changed |
| `Feed.ClientStatuses` | controllers/feed.js:32-151 | the validation and missing-image 400s reach the client; the 404 and 403 arrive as 500 as written, as set when corrected |
| `Auth.Signup` | controllers/auth.js:10-30 | a validation failure throws before hashing or writing; otherwise the user is inserted with the request's email and name and the hash of the request's password, with no duplicate check, reply 201 with the id; a rejected hash produces no reply |
| `Resolvers.InputErrors` | graphql/resolvers.js:8-18 | at most two input errors are recorded |
| `Resolvers.InputAccepted` | graphql/resolvers.js:13-20 | the input passes iff the email is valid and the password has at least 5 characters; exactly 5 is accepted |
| `Resolvers.ErrorsReported` | graphql/resolvers.js:8-18 | each error appears iff its rule fails; both failing gives the email error then the password error |
| `Resolvers.CreateUser` | graphql/resolvers.js:7-42 | input errors give "Invalid input." with code 400 and the list, before any lookup; a taken email gives "User exists already!"; neither writes; otherwise exactly one user is added with the hash of the input password and returned with a textual id |

## Left out

- Database failures and query semantics are left out. Every save, find and remove succeeds in memory. Id casting errors for malformed ids and the documents' timestamps are not modelled.
- Promise interleaving across requests is left out. Each handler runs as one sequential method, so lost updates on a user record are not modelled.
- bcrypt and the email validator are foreign code. Each handler takes `bcrypt.hash(·, 12)` as an input function from a password to a `Digest`, standing for the call with the salt it draws. The email check is an input function too.
- Which user `User.findOne` returns is not modelled, only whether one exists.
- uuid generation, multer's disk writes and the real `fs.unlink` are left out. The uuid is an input, and unlink is a ghost log entry. Failed unlinks are only logged by the source, so they have no effect here.
- `path.join` normalisation of `..` and repeated separators is not modelled. A resolved path is root, '/', then the stored path.
- Express plumbing is left out: body parsing, static files, CORS headers, `mongoose.connect`, `listen` and socket.io (app.js:36-48, 64-73).
- The token service and the authentication gate are not part of this model. Neither is routes/auth.js, whose signup validators only reach `Auth.Signup` as a list of recorded errors.
- models/user.js is not part of this model. The schema's default status is a construction parameter of `Models.Db`.
- Feed.GetPosts: requires the page, when given, to be at least 1. The string-to-number coercion of `req.query.page` is not modelled.
- Text.IsSpace: covers the ASCII blanks, no-break space, byte-order mark and line/paragraph separators. The other Unicode space separators that `trim` also strips are not included.
- Body fields the client omits are modelled as empty strings for title and content, and as `None` for `image`.
- Text.IdText: gives a decimal rendering of the id, not the 24-digit hexadecimal form of an object id. Only the facts that it is text and that distinct ids give distinct texts are relied on.
- Auth.Signup: a rejection of the user save is not modelled, only a rejected hash. Both end the same way: no reply and nothing stored.
- Success reply bodies are reduced to the values they carry: the created post and creator, the page, the post, the status, the message.

## Findings

| source | as written | input that shows it | evidently intended | confidence | as-written member | corrected member |
|---|---|---|---|---|---|---|
| utils/helpers.js:7 | `if (!err.sttatusCode)` tests a field nothing sets, so every rejection is answered with status 500 | GET /feed/posts/:postId for an id with no post: the handler sets 404, the client receives 500 (likewise 403 for a non-owner's PUT or DELETE) | `if (!err.statusCode)`, keeping the handler's status and defaulting to 500 | high; not executed | `App.AsyncStatusLost` | `App.IntendedKeepsStatus` |
