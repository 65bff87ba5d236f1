/**
  graphql/resolvers.js: the createUser mutation. It collects input errors,
  refuses them all at once, refuses an email already in use, and otherwise
  saves the user with a hashed password.
 */
module Resolvers {
  import opened Text
  import opened Models

  const EmailInvalid := "E-Mail is invalid."
  const PasswordTooShort := "Password too short."
  const MinPasswordLength := 5

  datatype UserInput = UserInput(email: string, name: string, password: string)

  /** A GraphQL error: message, `code` (0 when unset) and `data`, the list of
      input error messages (empty when unset). */
  datatype GraphQLError = GraphQLError(message: string, code: int, data: seq<string>)

  /** The created user as the resolver returns it, its id as text. */
  datatype CreatedUser = CreatedUser(id: string, email: string, name: string, password: Digest, status: string, posts: seq<PostId>)

  datatype Resolved = Ok(user: CreatedUser) | Err(error: GraphQLError)

  /** The password rule as written: empty, or shorter than five. */
  predicate TooShort(password: string) {
    password == "" || |password| < MinPasswordLength
  }

  /** The input errors in the order the resolver records them: the email
      error first, then the password error. `isEmail` is the email
      validator's verdict. */
  function InputErrors(isEmail: bool, password: string): (errors: seq<string>)
    ensures |errors| <= 2
  {
    (if !isEmail then [EmailInvalid] else []) + (if TooShort(password) then [PasswordTooShort] else [])
  }

  /** The input passes exactly when the email is valid and the password has
      at least five characters; five is enough. */
  lemma InputAccepted(isEmail: bool, password: string)
    ensures InputErrors(isEmail, password) == [] <==> isEmail && |password| >= MinPasswordLength
    ensures |password| == MinPasswordLength ==> PasswordTooShort !in InputErrors(isEmail, password)
  {
  }

  /** Both errors can be reported together, email first; each is reported
      exactly when its own rule fails. */
  lemma ErrorsReported(isEmail: bool, password: string)
    ensures (EmailInvalid in InputErrors(isEmail, password)) <==> !isEmail
    ensures (PasswordTooShort in InputErrors(isEmail, password)) <==> |password| < MinPasswordLength
    ensures !isEmail && |password| < MinPasswordLength ==>
      InputErrors(isEmail, password) == [EmailInvalid, PasswordTooShort]
  {
  }

  /** createUser. `isEmail` stands for the email validator, `hash` for
      bcrypt.hash(·, 12) with the salt this call draws. Input errors are refused before
      any lookup; a taken email is refused next; neither writes anything.
      Otherwise exactly one user is added and returned, its id as text. */
  method CreateUser(db: Db, input: UserInput, isEmail: string -> bool, hash: string -> Digest) returns (r: Resolved)
    requires db.Valid()
    modifies db
    ensures db.Valid()
    ensures InputErrors(isEmail(input.email), input.password) != [] ==>
      r == Err(GraphQLError("Invalid input.", 400, InputErrors(isEmail(input.email), input.password))) && unchanged(db)
    ensures InputErrors(isEmail(input.email), input.password) == [] && EmailTaken(old(db.users), input.email) ==>
      r == Err(GraphQLError("User exists already!", 0, [])) && unchanged(db)
    ensures InputErrors(isEmail(input.email), input.password) == [] && !EmailTaken(old(db.users), input.email) ==>
      var id := old(db.nextId);
      var user := User(input.email, input.name, hash(input.password), db.statusDefault, []);
      && id !in old(db.users)
      && db.users == old(db.users)[id := user]
      && db.posts == old(db.posts) && db.order == old(db.order)
      && r == Ok(CreatedUser(IdText(id), user.email, user.name, user.password, user.status, user.posts))
    ensures UniqueEmails(old(db.users)) ==> UniqueEmails(db.users)
    ensures Linked(old(db.posts), old(db.users)) ==> Linked(db.posts, db.users)
  {
    var errors: seq<string> := [];
    if !isEmail(input.email) {
      errors := errors + [EmailInvalid];
    }
    if input.password == "" || |input.password| < MinPasswordLength {
      errors := errors + [PasswordTooShort];
    }
    if |errors| > 0 {
      return Err(GraphQLError("Invalid input.", 400, errors));
    }
    if exists u | u in db.users :: db.users[u].email == input.email {
      return Err(GraphQLError("User exists already!", 0, []));
    }
    var id := db.SaveNewUser(input.email, input.name, hash(input.password));
    if UniqueEmails(old(db.users)) {
      InsertUserUnique(old(db.users), id, db.users[id]);
    }
    if Linked(old(db.posts), old(db.users)) {
      InsertUserKeepsLinked(old(db.posts), old(db.users), id, db.users[id]);
    }
    var saved := db.users[id];
    r := Ok(CreatedUser(IdText(id), saved.email, saved.name, saved.password, saved.status, saved.posts));
  }
}
