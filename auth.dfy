/** Registration, password login and profile update. Password hashing is bcrypt's: `hash`
    maps a password to its salted hash (`None` when bcrypt rejects the argument) and
    `compare` checks a password against a stored hash (`None` when bcrypt rejects the
    arguments, as for a user without a password). Token signing is left abstract: a token is
    its claims. */
module Auth {
  import opened Values
  import opened Db
  import opened Http
  import opened Users

  /** The user document `register` stores. */
  function NewUser(email: Value, hashed: string, name: Value, now: int): Doc {
    map["email" := email, "password" := Str(hashed), "name" := name, "role" := Str("farmer"),
        "createdAt" := Time(now)]
  }

  /** A registered user holds the hash and not the password, the "farmer" role, the given
      name or else the email's local part, and no `_id` of its own. */
  lemma NewUserFields(email: Value, hashed: string, name: Value, now: int)
    ensures var d := NewUser(email, hashed, name, now);
      Get(d, "email") == email && Get(d, "password") == Str(hashed) &&
      Get(d, "role") == Str("farmer") && Get(d, "name") == name && "_id" !in d
  {
  }

  /** What `register` does for an email no user has: 500 with nothing stored when hashing
      fails or the name cannot be derived, otherwise one new farmer is appended to `users`
      and a session for it is answered. */
  ghost predicate RegisteredNew(before: map<string, seq<Doc>>, users: seq<Doc>, body: Doc,
                                hash: Value -> Option<string>, now: int, generated: string,
                                after: map<string, seq<Doc>>, reply: Reply<Session>)
  {
    var email := Get(body, "email");
    var name := NameOr(Get(body, "name"), email);
    if hash(Get(body, "password")).None? || name.None? then
      reply.Error? && reply.status == 500 && after == before[UsersCollection := users]
    else
      var doc := NewUser(email, hash(Get(body, "password")).value, name.value, now);
      reply == Ok(Session(Claims(generated, email, Str("farmer")),
                          UserView(generated, email, name.value, Str("farmer")))) &&
      after == before[UsersCollection := InsertIn(users, doc, generated)]
  }

  /** `register`. */
  method Register(db: MemoryDb, body: Doc, hash: Value -> Option<string>, now: int, generated: string)
    returns (reply: Reply<Session>)
    modifies db
    ensures !Truthy(Get(body, "email")) || !Truthy(Get(body, "password")) ==>
      reply == Error(400, "Email and password required") && db.collections == old(db.collections)
    ensures Truthy(Get(body, "email")) && Truthy(Get(body, "password")) &&
            FindOneIn(old(db.Docs(UsersCollection)), ByEmail(Get(body, "email"))).Some? ==>
      reply == Error(409, "Email already registered") &&
      db.collections == old(db.collections)[UsersCollection := old(db.Docs(UsersCollection))]
    ensures Truthy(Get(body, "email")) && Truthy(Get(body, "password")) &&
            FindOneIn(old(db.Docs(UsersCollection)), ByEmail(Get(body, "email"))).None? ==>
      RegisteredNew(old(db.collections), old(db.Docs(UsersCollection)), body, hash, now, generated,
                    db.collections, reply)
    ensures UniqueEmails(old(db.Docs(UsersCollection))) ==> UniqueEmails(db.Docs(UsersCollection))
  {
    var email, password := Get(body, "email"), Get(body, "password");
    if !Truthy(email) || !Truthy(password) {
      return Error(400, "Email and password required");
    }
    var existing := db.FindOne(UsersCollection, ByEmail(email));
    if existing.Some? {
      return Error(409, "Email already registered");
    }
    var hashed := hash(password);
    if hashed.None? {
      return Error(500, "Illegal arguments");
    }
    var name := NameOr(Get(body, "name"), email);
    if name.None? {
      return Error(500, "email.split is not a function");
    }
    var doc := NewUser(email, hashed.value, name.value, now);
    if UniqueEmails(db.Docs(UsersCollection)) {
      InsertNewEmailKeepsUnique(db.Docs(UsersCollection), doc, generated);
    }
    var insertedId := db.InsertOne(UsersCollection, doc, generated);
    var id := TextOf(insertedId);
    reply := Ok(Session(Claims(id, email, Str("farmer")), UserView(id, email, name.value, Str("farmer"))));
  }

  /** The session `login` answers for a stored user. */
  function LoginSession(user: Doc, email: Value): Option<Session> {
    match NameOr(Get(user, "name"), email)
    case None => None
    case Some(name) =>
      var id := TextOf(Get(user, "_id"));
      var role := RoleOr(Get(user, "role"));
      Some(Session(Claims(id, Get(user, "email"), role), UserView(id, Get(user, "email"), name, role)))
  }

  /** `login`: an unknown email and a wrong password get the same 401; a user stored without
      a password makes `compare` throw, which answers 500. The store is only read. */
  method Login(db: MemoryDb, body: Doc, compare: (Value, Value) -> Option<bool>)
    returns (reply: Reply<Session>)
    modifies db
    ensures !Truthy(Get(body, "email")) || !Truthy(Get(body, "password")) ==>
      reply == Error(400, "Email and password required") && db.collections == old(db.collections)
    ensures Truthy(Get(body, "email")) && Truthy(Get(body, "password")) ==>
      db.collections == old(db.collections)[UsersCollection := old(db.Docs(UsersCollection))]
    ensures Truthy(Get(body, "email")) && Truthy(Get(body, "password")) ==>
      var found := FindOneIn(old(db.Docs(UsersCollection)), ByEmail(Get(body, "email")));
      if found.None? then reply == Error(401, "Invalid credentials")
      else
        var ok := compare(Get(body, "password"), Get(found.value, "password"));
        if ok.None? then reply.Error? && reply.status == 500
        else if !ok.value then reply == Error(401, "Invalid credentials")
        else if LoginSession(found.value, Get(body, "email")).None? then reply.Error? && reply.status == 500
        else reply == Ok(LoginSession(found.value, Get(body, "email")).value)
  {
    var email, password := Get(body, "email"), Get(body, "password");
    if !Truthy(email) || !Truthy(password) {
      return Error(400, "Email and password required");
    }
    var user := db.FindOne(UsersCollection, ByEmail(email));
    if user.None? {
      return Error(401, "Invalid credentials");
    }
    var ok := compare(password, Get(user.value, "password"));
    if ok.None? {
      return Error(500, "Illegal arguments");
    }
    if !ok.value {
      return Error(401, "Invalid credentials");
    }
    var session := LoginSession(user.value, email);
    if session.None? {
      return Error(500, "email.split is not a function");
    }
    reply := Ok(session.value);
  }

  /** A login session carries the stored role, or "farmer" when none is stored, both in the
      token and in the user view, and the same id in both. */
  lemma LoginRoleDefaults(user: Doc, email: Value)
    ensures var s := LoginSession(user, email);
      s.Some? ==>
        s.value.token.role == s.value.user.role && s.value.token.id == s.value.user.id &&
        (Truthy(Get(user, "role")) ==> s.value.token.role == Get(user, "role")) &&
        (!Truthy(Get(user, "role")) ==> s.value.token.role == Str("farmer"))
  {
  }

  /** `{ $set: { ...(name ? { name } : {}) } }`: only the name, and only a truthy one. */
  function ProfilePatch(body: Doc): (patch: Doc)
    ensures patch.Keys <= {"name"}
    ensures "name" in patch <==> Truthy(Get(body, "name"))
    ensures "name" in patch ==> patch["name"] == Get(body, "name")
  {
    if Truthy(Get(body, "name")) then map["name" := Get(body, "name")] else map[]
  }

  /** `{ _id: payload._id }`. */
  function ById(id: string): Query {
    map["_id" := Eq(Str(id))]
  }

  /** The user view `profileUpdate` answers with; `None` when building it throws. */
  function ProfileView(user: Option<Doc>): Option<UserView> {
    match user
    case None => None
    case Some(u) =>
      match NameOr(Get(u, "name"), Get(u, "email"))
      case None => None
      case Some(name) => Some(UserView(TextOf(Get(u, "_id")), Get(u, "email"), name, RoleOr(Get(u, "role"))))
  }

  /** `profileUpdate`: 401 without a token, 400 when the token does not verify; otherwise the
      caller's record gets the patch (at most a new name), and the answer is the re-read
      record, or 400 when there is none. The `verify` parameter gives the `_id` claim of a
      valid token. */
  method ProfileUpdate(db: MemoryDb, authorization: string, verify: string -> Option<string>, body: Doc)
    returns (reply: Reply<UserView>)
    modifies db
    ensures BearerToken(authorization).None? ==>
      reply == Error(401, "Missing token") && db.collections == old(db.collections)
    ensures BearerToken(authorization).Some? && verify(BearerToken(authorization).value).None? ==>
      reply.Error? && reply.status == 400 && db.collections == old(db.collections)
    ensures BearerToken(authorization).Some? && verify(BearerToken(authorization).value).Some? ==>
      var id := verify(BearerToken(authorization).value).value;
      var updated := UpdateIn(old(db.Docs(UsersCollection)), ById(id), Some(ProfilePatch(body))).0;
      db.collections == old(db.collections)[UsersCollection := updated] &&
      (ProfileView(FindOneIn(updated, ById(id))).Some? ==> reply == Ok(ProfileView(FindOneIn(updated, ById(id))).value)) &&
      (ProfileView(FindOneIn(updated, ById(id))).None? ==> reply.Error? && reply.status == 400)
    ensures UniqueEmails(old(db.Docs(UsersCollection))) ==> UniqueEmails(db.Docs(UsersCollection))
  {
    var token := BearerToken(authorization);
    if token.None? {
      return Error(401, "Missing token");
    }
    var id := verify(token.value);
    if id.None? {
      return Error(400, "invalid token");
    }
    var patch := ProfilePatch(body);
    if UniqueEmails(db.Docs(UsersCollection)) {
      UpdateWithoutEmailKeepsUnique(db.Docs(UsersCollection), ById(id.value), Some(patch));
    }
    var _, _ := db.UpdateOne(UsersCollection, ById(id.value), Some(patch));
    var user := db.FindOne(UsersCollection, ById(id.value));
    var view := ProfileView(user);
    if view.None? {
      return Error(400, "Cannot read properties of null (reading '_id')");
    }
    reply := Ok(view.value);
  }

  /** A profile update changes nothing but the name of the caller's record, and only when a
      truthy name is given; without one, the record is matched but left as it was. */
  lemma ProfileUpdateOnlyName(users: seq<Doc>, id: string, body: Doc)
    ensures var r := UpdateIn(users, ById(id), Some(ProfilePatch(body))).0;
      |r| == |users| &&
      (forall i :: 0 <= i < |users| ==>
        r[i].Keys <= users[i].Keys + {"name"} &&
        (forall k :: k in users[i] && k != "name" ==> r[i][k] == users[i][k])) &&
      (!Truthy(Get(body, "name")) ==> r == users)
  {
    var patch := ProfilePatch(body);
    var r := UpdateIn(users, ById(id), Some(patch));
    if !Truthy(Get(body, "name")) && r.1 == 1 {
      var i := FirstMatch(users, ById(id)).value;
      assert r.0[i] == users[i];
      assert r.0 == users;
    }
  }
}
