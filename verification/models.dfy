/**
  The two collections the handlers read and write, kept in memory: posts by
  id in the collection's natural order, and users by id, each user listing
  the ids of the posts it owns. Also the integrity relation between the two
  (every post is listed by its creator, every listed id is a post of that
  user), which the handlers keep or break depending on the path taken.
 */
module Models {

  type PostId = nat
  type UserId = nat

  /** The output of bcrypt.hash. Its own type keeps a plain password from
      ever being stored in its place. */
  datatype Digest = Digest(text: string)

  datatype Post = Post(title: string, content: string, imageUrl: string, creator: UserId)

  datatype User = User(email: string, name: string, password: Digest, status: string, posts: seq<PostId>)

  predicate Distinct(s: seq<PostId>) {
    forall i, j :: 0 <= i < j < |s| ==> s[i] != s[j]
  }

  /** Mongoose's `pull`: every occurrence of `x` leaves, the rest keep their
      order. */
  function Without(s: seq<PostId>, x: PostId): (r: seq<PostId>)
    ensures forall y :: y in r <==> y in s && y != x
    ensures |r| <= |s|
    ensures x !in s ==> r == s
    ensures Distinct(s) ==> Distinct(r)
    ensures multiset(r) == multiset(s)[x := 0]
  {
    if s == [] then []
    else if s[0] == x then
      assert s == [s[0]] + s[1..];
      Without(s[1..], x)
    else
      var rest := Without(s[1..], x);
      assert s == [s[0]] + s[1..];
      assert Distinct(s) ==> Distinct(s[1..]) && s[0] !in s[1..];
      assert forall k :: 0 < k < |[s[0]] + rest| ==> ([s[0]] + rest)[k] == rest[k - 1];
      [s[0]] + rest
  }

  /** Pulling distributes over concatenation, so the ids that stay keep
      their relative order. */
  lemma {:induction false} WithoutAppend(s: seq<PostId>, t: seq<PostId>, x: PostId)
    ensures Without(s + t, x) == Without(s, x) + Without(t, x)
  {
    if s == [] {
      assert s + t == t;
    } else {
      var st := s + t;
      assert st[0] == s[0] && st[1..] == s[1..] + t;
      WithoutAppend(s[1..], t, x);
      var a, b := Without(s[1..], x), Without(t, x);
      if s[0] != x {
        assert [s[0]] + (a + b) == ([s[0]] + a) + b;
      }
    }
  }

  /** `user.posts.push(post)` on the stored user `uid`. */
  function AppendOwned(users: map<UserId, User>, uid: UserId, pid: PostId): map<UserId, User>
    requires uid in users
  {
    users[uid := users[uid].(posts := users[uid].posts + [pid])]
  }

  /** `user.posts.pull(postId)` on the stored user `uid`. */
  function PullOwned(users: map<UserId, User>, uid: UserId, pid: PostId): map<UserId, User>
    requires uid in users
  {
    users[uid := users[uid].(posts := Without(users[uid].posts, pid))]
  }

  /** Referential integrity between the collections: a post's creator exists
      and lists it, and every listed id is a post created by the lister. */
  ghost predicate Linked(posts: map<PostId, Post>, users: map<UserId, User>) {
    (forall p :: p in posts ==> posts[p].creator in users && p in users[posts[p].creator].posts)
    && (forall u, p :: u in users && p in users[u].posts ==> p in posts && posts[p].creator == u)
  }

  /** Saving a fresh post and appending it to its (existing) creator's list
      keeps the collections linked. */
  lemma CreateKeepsLinked(posts: map<PostId, Post>, users: map<UserId, User>, id: PostId, post: Post)
    requires Linked(posts, users) && id !in posts && post.creator in users
    ensures Linked(posts[id := post], AppendOwned(users, post.creator, id))
  {
    var posts', users' := posts[id := post], AppendOwned(users, post.creator, id);
    forall u, p | u in users' && p in users'[u].posts
      ensures p in posts' && posts'[p].creator == u
    {
      if u == post.creator && p == id {
      } else if u == post.creator {
        assert p in users[u].posts;
      } else {
        assert users'[u] == users[u];
      }
    }
  }

  /** Saving a post whose creator is not a stored user leaves an orphan: the
      collections are no longer linked, whatever they were before. */
  lemma CreateByUnknownOrphans(posts: map<PostId, Post>, users: map<UserId, User>, id: PostId, post: Post)
    requires post.creator !in users
    ensures !Linked(posts[id := post], users)
  {
    assert id in posts[id := post] && posts[id := post][id].creator !in users;
  }

  /** Removing a post and pulling its id from its creator's list keeps the
      collections linked. */
  lemma DeleteKeepsLinked(posts: map<PostId, Post>, users: map<UserId, User>, id: PostId)
    requires Linked(posts, users) && id in posts
    ensures posts[id].creator in users
    ensures Linked(posts - {id}, PullOwned(users, posts[id].creator, id))
  {
    var owner := posts[id].creator;
    var posts', users' := posts - {id}, PullOwned(users, owner, id);
    forall p | p in posts'
      ensures posts'[p].creator in users' && p in users'[posts'[p].creator].posts
    {
      assert p in posts && p != id;
    }
    forall u, p | u in users' && p in users'[u].posts
      ensures p in posts' && posts'[p].creator == u
    {
      if u == owner {
        assert p in users[u].posts && p != id;
      } else {
        assert users'[u] == users[u];
        assert p != id;
      }
    }
  }

  /** Rewriting a post's title, content and image keeps the collections
      linked, since the creator stays. */
  lemma EditKeepsLinked(posts: map<PostId, Post>, users: map<UserId, User>, id: PostId, title: string, content: string, imageUrl: string)
    requires Linked(posts, users) && id in posts
    ensures Linked(posts[id := posts[id].(title := title, content := content, imageUrl := imageUrl)], users)
  {
    var posts' := posts[id := posts[id].(title := title, content := content, imageUrl := imageUrl)];
    forall u, p | u in users && p in users[u].posts
      ensures p in posts' && posts'[p].creator == u
    {
      assert p in posts && posts[p].creator == u;
    }
  }

  /** Changing a user's status keeps the collections linked. */
  lemma StatusKeepsLinked(posts: map<PostId, Post>, users: map<UserId, User>, uid: UserId, status: string)
    requires Linked(posts, users) && uid in users
    ensures Linked(posts, users[uid := users[uid].(status := status)])
  {
    var users' := users[uid := users[uid].(status := status)];
    forall p | p in posts
      ensures posts[p].creator in users' && p in users'[posts[p].creator].posts
    {
      assert posts[p].creator in users;
    }
    forall u, p | u in users' && p in users'[u].posts
      ensures p in posts && posts[p].creator == u
    {
      assert p in users[u].posts;
    }
  }

  /** Inserting a fresh user who owns nothing keeps the collections linked. */
  lemma InsertUserKeepsLinked(posts: map<PostId, Post>, users: map<UserId, User>, uid: UserId, user: User)
    requires Linked(posts, users) && uid !in users && user.posts == []
    ensures Linked(posts, users[uid := user])
  {
    var users' := users[uid := user];
    forall p | p in posts
      ensures posts[p].creator in users' && p in users'[posts[p].creator].posts
    {
      assert posts[p].creator in users && posts[p].creator != uid;
    }
  }

  /** Whether a stored user already has this email (`User.findOne`). */
  predicate EmailTaken(users: map<UserId, User>, email: string) {
    exists u :: u in users && users[u].email == email
  }

  /** No two stored users share an email. */
  ghost predicate UniqueEmails(users: map<UserId, User>) {
    forall u, v :: u in users && v in users && users[u].email == users[v].email ==> u == v
  }

  /** Inserting a user under a fresh id keeps emails unique exactly when the
      email was not taken. */
  lemma InsertUserUnique(users: map<UserId, User>, uid: UserId, user: User)
    requires UniqueEmails(users) && uid !in users
    ensures UniqueEmails(users[uid := user]) <==> !EmailTaken(users, user.email)
  {
    var users' := users[uid := user];
    if EmailTaken(users, user.email) {
      var u :| u in users && users[u].email == user.email;
      assert users'[u].email == users'[uid].email && u != uid;
    } else {
      forall u, v | u in users' && v in users' && users'[u].email == users'[v].email
        ensures u == v
      {
        if u != uid && v != uid {
          assert users[u].email == users[v].email;
        }
      }
    }
  }

  /** The in-memory database. `order` is the posts collection's natural
      order; `nextId` is the next fresh id, shared by both collections as
      object ids are; `statusDefault` is the schema's default status. */
  class Db {
    var posts: map<PostId, Post>
    var order: seq<PostId>
    var users: map<UserId, User>
    var nextId: nat
    const statusDefault: string

    ghost predicate Valid()
      reads this
    {
      Distinct(order)
      && (forall id :: id in order <==> id in posts)
      && (forall id :: id in posts ==> id < nextId)
      && (forall id :: id in users ==> id < nextId)
    }

    constructor (statusDefault: string)
      ensures Valid()
      ensures posts == map[] && order == [] && users == map[] && this.statusDefault == statusDefault
    {
      posts, order, users, nextId := map[], [], map[], 0;
      this.statusDefault := statusDefault;
    }

    /** `new Post({...}).save()`: the post is stored under a fresh id at the
        end of the natural order; users are untouched. */
    method SaveNewPost(post: Post) returns (id: PostId)
      requires Valid()
      modifies this
      ensures Valid()
      ensures id == old(nextId) && id !in old(posts)
      ensures posts == old(posts)[id := post] && order == old(order) + [id]
      ensures users == old(users)
    {
      id := nextId;
      assert id !in order;
      assert forall i :: 0 <= i < |order| ==> (order + [id])[i] == order[i];
      posts := posts[id := post];
      order := order + [id];
      nextId := nextId + 1;
    }

    /** `Post.findByIdAndRemove(id)` for a stored post: it leaves the map
        and the natural order; users are untouched. */
    method RemovePost(id: PostId)
      requires Valid() && id in posts
      modifies this
      ensures Valid()
      ensures posts == old(posts) - {id} && order == Without(old(order), id)
      ensures users == old(users) && nextId == old(nextId)
    {
      var rest := Without(order, id);
      assert forall x :: x in rest <==> x in posts && x != id;
      posts := posts - {id};
      order := rest;
    }

    /** `user.posts.push(post); user.save()` on a stored user. */
    method PushOwned(uid: UserId, pid: PostId)
      requires Valid() && uid in users
      modifies this
      ensures Valid()
      ensures users == AppendOwned(old(users), uid, pid)
      ensures posts == old(posts) && order == old(order) && nextId == old(nextId)
    {
      users := AppendOwned(users, uid, pid);
    }

    /** `user.posts.pull(postId); user.save()` on a stored user. */
    method PullFromOwner(uid: UserId, pid: PostId)
      requires Valid() && uid in users
      modifies this
      ensures Valid()
      ensures users == PullOwned(old(users), uid, pid)
      ensures posts == old(posts) && order == old(order) && nextId == old(nextId)
    {
      users := PullOwned(users, uid, pid);
    }

    /** `new User({email, name, password}).save()`: one new user, with a
        fresh id, the schema's default status and no posts; nothing else
        changes. */
    method SaveNewUser(email: string, name: string, password: Digest) returns (id: UserId)
      requires Valid()
      modifies this
      ensures Valid()
      ensures id == old(nextId) && id !in old(users)
      ensures users == old(users)[id := User(email, name, password, statusDefault, [])]
      ensures posts == old(posts) && order == old(order)
    {
      id := nextId;
      users := users[id := User(email, name, password, statusDefault, [])];
      nextId := nextId + 1;
    }
  }
}
