/**
  controllers/auth.js: signup. The route's validators (routes/auth.js, not
  part of this model) record their errors on the request; the handler runs
  the validation gate, hashes the password and saves a new user.
 */
module Auth {
  import opened Helpers
  import opened Models

  /** How signup ends: the 201 reply with the new id, the validation error
      thrown synchronously, or no reply at all. The last happens when the
      hash-and-save chain rejects: its `.catch` calls handleAsyncError
      without `next`, which rewrites the error (kept here as `lost`) and then
      fails itself. */
  datatype SignupResult = Created(status: int, userId: UserId) | Threw(error: Thrown) | NoResponse(lost: Thrown)

  /** signup. `hash` stands for bcrypt.hash(·, 12) with the salt this call
      draws; `hashRejected` says that the hash rejected, with `hashError`.
      There is no check for an existing user with the same email: the insert
      is unconditional. */
  method Signup(db: Db, validationErrors: seq<FieldError>, email: string, name: string, password: string,
                hash: string -> Digest, hashRejected: bool, hashError: Thrown)
    returns (r: SignupResult)
    requires db.Valid()
    modifies db
    ensures db.Valid()
    ensures validationErrors != [] ==> r == Threw(ThrowErrorIfInvalid(validationErrors).value) && unchanged(db)
    ensures validationErrors == [] && hashRejected ==>
      r == NoResponse(hashError.(statusCode := 500)) && unchanged(db)
    ensures validationErrors == [] && !hashRejected ==>
      var id := old(db.nextId);
      && id !in old(db.users)
      && db.users == old(db.users)[id := User(email, name, hash(password), db.statusDefault, [])]
      && db.posts == old(db.posts) && db.order == old(db.order)
      && r == Created(201, id)
    ensures Linked(old(db.posts), old(db.users)) ==> Linked(db.posts, db.users)
    ensures validationErrors == [] && !hashRejected && UniqueEmails(old(db.users)) ==>
      (UniqueEmails(db.users) <==> !EmailTaken(old(db.users), email))
  {
    var invalid := ThrowErrorIfInvalid(validationErrors);
    if invalid.Some? {
      return Threw(invalid.value);
    }
    if hashRejected {
      var err := new ErrorObject(hashError);
      var _ := HandleAsyncError(err, null);
      return NoResponse(Thrown(err.message, err.statusCode, err.errors));
    }
    var id := db.SaveNewUser(email, name, hash(password));
    if UniqueEmails(old(db.users)) {
      InsertUserUnique(old(db.users), id, db.users[id]);
    }
    if Linked(old(db.posts), old(db.users)) {
      InsertUserKeepsLinked(old(db.posts), old(db.users), id, db.users[id]);
    }
    r := Created(201, id);
  }
}
