/**
  routes/feed.js: which handler answers which verb and path, and the body
  checks that run before it. Each check is an express-validator chain
  `body(field).trim().isLength({ min: 5 })`: it first replaces the field by
  its trimmed value on the request, then records an error if the trimmed
  value is shorter than five characters.
 */
module FeedRoutes {
  import opened Wrappers
  import opened Text
  import opened Helpers

  datatype Verb = GET | POST | PUT | DELETE

  datatype Handler = GetPosts | PostPosts | GetPost | PutPost | DeletePost

  /** The body fields a chain can name. */
  datatype Field = Title | Content

  datatype Route = Route(verb: Verb, path: string, checks: seq<Field>, handler: Handler)

  const MinLength := 5

  /** The router, in registration order: five routes under /posts, and
      only the create and update routes check the body. */
  function FeedRouter(): (r: seq<Route>)
    ensures |r| == 5
    ensures forall i :: 0 <= i < |r| ==> r[i].path in {"/posts", "/posts/:postId"}
    ensures forall i :: 0 <= i < |r| ==> (r[i].checks != [] <==> r[i].verb == POST || r[i].verb == PUT)
  {
    [ Route(GET, "/posts", [], GetPosts),
      Route(POST, "/posts", [Title, Content], PostPosts),
      Route(GET, "/posts/:postId", [], GetPost),
      Route(PUT, "/posts/:postId", [Title, Content], PutPost),
      Route(DELETE, "/posts/:postId", [], DeletePost) ]
  }

  /** The first route registered for a verb and path pattern. */
  function Lookup(routes: seq<Route>, verb: Verb, path: string): (r: Option<Route>)
    ensures r.Some? ==> r.value in routes && r.value.verb == verb && r.value.path == path
    ensures r.None? ==> forall i :: 0 <= i < |routes| ==> !(routes[i].verb == verb && routes[i].path == path)
  {
    if routes == [] then None
    else if routes[0].verb == verb && routes[0].path == path then Some(routes[0])
    else Lookup(routes[1..], verb, path)
  }

  /** The body a post handler reads: title, content and the optional
      `image` text field. */
  datatype PostBody = PostBody(title: string, content: string, image: Option<string>)

  function FieldName(f: Field): string {
    match f
    case Title => "title"
    case Content => "content"
  }

  function FieldValue(b: PostBody, f: Field): string {
    match f
    case Title => b.title
    case Content => b.content
  }

  function WithField(b: PostBody, f: Field, v: string): PostBody {
    match f
    case Title => b.(title := v)
    case Content => b.(content := v)
  }

  /** The request body after the chains ran, and the errors they recorded. */
  datatype Checked = Checked(body: PostBody, errors: seq<FieldError>)

  /** The error entry a chain records for the (trimmed) value `v`: one
      entry, with express-validator's default message, exactly when `v` is
      shorter than five. */
  function FieldErrors(f: Field, v: string): (errors: seq<FieldError>)
    ensures errors == [] <==> |v| >= MinLength
    ensures errors != [] ==> errors == [FieldError("body", FieldName(f), v, "Invalid value")]
  {
    if |v| < MinLength then [FieldError("body", FieldName(f), v, "Invalid value")] else []
  }

  /** One chain: trim the field in place, then check its length. */
  function CheckField(f: Field, b: PostBody): (c: Checked)
    ensures FieldValue(c.body, f) == Trim(FieldValue(b, f))
    ensures c.body.image == b.image
    ensures f == Title ==> c.body.content == b.content
    ensures f == Content ==> c.body.title == b.title
    ensures c.errors == FieldErrors(f, Trim(FieldValue(b, f)))
  {
    var v := Trim(FieldValue(b, f));
    Checked(WithField(b, f, v), FieldErrors(f, v))
  }

  /** The chains of a route, run in order; each sees the body the previous
      ones left. */
  function RunChecks(checks: seq<Field>, b: PostBody): (c: Checked)
    ensures c.body.image == b.image
    ensures |c.errors| <= |checks|
  {
    if checks == [] then Checked(b, [])
    else
      var first := CheckField(checks[0], b);
      var rest := RunChecks(checks[1..], first.body);
      Checked(rest.body, first.errors + rest.errors)
  }

  /** The errors the POST and PUT rules should record: one per field whose
      trimmed value is shorter than five, title first. */
  function ExpectedErrors(b: PostBody): seq<FieldError> {
    FieldErrors(Title, Trim(b.title)) + FieldErrors(Content, Trim(b.content))
  }

  /** The POST and PUT rules leave both fields trimmed. */
  lemma PostRulesTrim(b: PostBody)
    ensures RunChecks([Title, Content], b).body == PostBody(Trim(b.title), Trim(b.content), b.image)
  {
    RunTwo(Title, Content, b);
  }

  /** The POST and PUT rules record one error per field whose trimmed value
      is shorter than five, title first. */
  lemma PostRulesErrors(b: PostBody)
    ensures RunChecks([Title, Content], b).errors == ExpectedErrors(b)
  {
    RunTwo(Title, Content, b);
  }

  /** The POST and PUT rules let a request through exactly when both trimmed
      lengths reach five. */
  lemma PostRulesDecide(b: PostBody)
    ensures RunChecks([Title, Content], b).errors == [] <==> |Trim(b.title)| >= MinLength && |Trim(b.content)| >= MinLength
  {
    PostRulesErrors(b);
  }

  /** A single chain. */
  lemma RunOne(g: Field, b: PostBody)
    ensures RunChecks([g], b) == Checked(CheckField(g, b).body, CheckField(g, b).errors)
  {
    assert [g][1..] == [];
  }

  /** Two chains run one after the other. */
  lemma RunTwo(f: Field, g: Field, b: PostBody)
    ensures var t := CheckField(f, b); var u := CheckField(g, t.body);
      RunChecks([f, g], b) == Checked(u.body, t.errors + u.errors)
  {
    var t := CheckField(f, b);
    assert [f, g][1..] == [g];
    RunOne(g, t.body);
  }

  /** PUT /posts/:postId checks the body exactly as POST /posts does. */
  lemma PutChecksLikePost()
    ensures Lookup(FeedRouter(), POST, "/posts").Some?
    ensures Lookup(FeedRouter(), PUT, "/posts/:postId").Some?
    ensures Lookup(FeedRouter(), PUT, "/posts/:postId").value.checks == Lookup(FeedRouter(), POST, "/posts").value.checks == [Title, Content]
  {
  }

  /** Listing, reading and deleting posts check no body field. */
  lemma ReadAndDeleteUnchecked()
    ensures Lookup(FeedRouter(), GET, "/posts").Some? && Lookup(FeedRouter(), GET, "/posts").value.checks == []
    ensures Lookup(FeedRouter(), GET, "/posts/:postId").Some? && Lookup(FeedRouter(), GET, "/posts/:postId").value.checks == []
    ensures Lookup(FeedRouter(), DELETE, "/posts/:postId").Some? && Lookup(FeedRouter(), DELETE, "/posts/:postId").value.checks == []
  {
  }

  /** The feed router registers no status route. */
  lemma NoStatusRoute(verb: Verb)
    ensures Lookup(FeedRouter(), verb, "/status").None?
  {
  }

  /** Surrounding whitespace does not count: a title whose trimmed core has
      four characters fails however it is padded, one with five passes. */
  lemma {:induction false} FiveAfterTrimming(pre: string, core: string, post: string, content: string)
    requires AllSpace(pre) && AllSpace(post) && Tight(core)
    requires |Trim(content)| >= MinLength
    ensures |core| == 4 ==> RunChecks([Title, Content], PostBody(pre + core + post, content, None)).errors != []
    ensures |core| == 5 ==> RunChecks([Title, Content], PostBody(pre + core + post, content, None)).errors == []
  {
    TrimSurrounded(pre, core, post);
    PostRulesDecide(PostBody(pre + core + post, content, None));
  }

  /** Title and content are checked independently: both can fail in one
      request, and then both errors are reported, title first. */
  lemma BothFieldsFail(b: PostBody)
    requires |Trim(b.title)| < MinLength && |Trim(b.content)| < MinLength
    ensures var c := RunChecks([Title, Content], b);
      && |c.errors| == 2
      && c.errors[0] == FieldError("body", "title", Trim(b.title), "Invalid value")
      && c.errors[1] == FieldError("body", "content", Trim(b.content), "Invalid value")
  {
    PostRulesErrors(b);
    BothShort(Trim(b.title), Trim(b.content));
  }

  /** Two short values give both errors, title first. */
  lemma BothShort(t: string, u: string)
    requires |t| < MinLength && |u| < MinLength
    ensures FieldErrors(Title, t) + FieldErrors(Content, u) ==
      [FieldError("body", "title", t, "Invalid value"), FieldError("body", "content", u, "Invalid value")]
  {
    var e1, e2 := FieldErrors(Title, t), FieldErrors(Content, u);
    assert e1 + e2 == [e1[0], e2[0]];
  }
}
