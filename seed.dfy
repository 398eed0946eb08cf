/** `ensureAdmin`, run once at start-up: when both `ADMIN_EMAIL` and `ADMIN_PASSWORD` are set
    and no user has that email, an "admin" account is created with the bcrypt hash of the
    password. The environment is given as parameters (`None` for an unset variable), and
    bcrypt as `hash`. */
module Seed {
  import opened Values
  import opened Db
  import opened Users

  /** The account `ensureAdmin` creates. */
  function AdminUser(email: string, hashed: string, now: int): Doc {
    map["email" := Str(email), "password" := Str(hashed), "name" := Str("Admin"),
        "role" := Str("admin"), "createdAt" := Time(now)]
  }

  /** An environment variable is usable when it is set and not empty. */
  predicate Usable(v: Option<string>) {
    v.Some? && v.value != ""
  }

  /** The `users` collection after `ensureAdmin`, when both variables are usable. */
  function SeededUsers(users: seq<Doc>, email: string, password: string, hash: string -> string,
                       now: int, generated: string): (r: seq<Doc>)
    ensures |r| <= |users| + 1
  {
    if FindOneIn(users, ByEmail(Str(email))).Some? then users
    else InsertIn(users, AdminUser(email, hash(password), now), generated)
  }

  /** `ensureAdmin`: nothing at all happens unless both variables are usable; then `users`
      gets the admin account unless one of its users already has that email. */
  method EnsureAdmin(db: MemoryDb, adminEmail: Option<string>, adminPassword: Option<string>,
                     hash: string -> string, now: int, generated: string)
    modifies db
    ensures !Usable(adminEmail) || !Usable(adminPassword) ==> db.collections == old(db.collections)
    ensures Usable(adminEmail) && Usable(adminPassword) ==>
      db.collections == old(db.collections)[UsersCollection :=
        SeededUsers(old(db.Docs(UsersCollection)), adminEmail.value, adminPassword.value, hash, now, generated)]
  {
    if !Usable(adminEmail) || !Usable(adminPassword) {
      return;
    }
    var existing := db.FindOne(UsersCollection, ByEmail(Str(adminEmail.value)));
    if existing.Some? {
      return;
    }
    var hashed := hash(adminPassword.value);
    var _ := db.InsertOne(UsersCollection, AdminUser(adminEmail.value, hashed, now), generated);
  }

  /** Seeding keeps every earlier account as it was and adds one exactly when no user had
      that email; afterwards some user has it. */
  lemma SeedKeepsUsers(users: seq<Doc>, email: string, password: string, hash: string -> string,
                       now: int, generated: string)
    ensures var r := SeededUsers(users, email, password, hash, now, generated);
      r[..|users|] == users &&
      (|r| == |users| + 1 <==> forall d :: d in users ==> Get(d, "email") != Str(email)) &&
      FindOneIn(r, ByEmail(Str(email))).Some?
  {
    var q := ByEmail(Str(email));
    forall d | d in users ensures Matches(d, q) <==> Get(d, "email") == Str(email) {
      EqualityQuery(d, "email", email);
    }
    if FindOneIn(users, q).None? {
      var admin := AdminUser(email, hash(password), now);
      FindOneAfterAppend(users, admin["_id" := IdFor(admin, generated)], q);
      EqualityQuery(admin["_id" := IdFor(admin, generated)], "email", email);
    } else {
      assert users[..|users|] == users;
    }
  }

  /** The one account seeding can add is an "admin" with that email, the name "Admin" and the
      hash of the password. */
  lemma SeedAddsOneAdmin(users: seq<Doc>, email: string, password: string, hash: string -> string,
                         now: int, generated: string)
    ensures var r := SeededUsers(users, email, password, hash, now, generated);
      |r| == |users| + 1 ==>
        Get(r[|users|], "role") == Str("admin") && Get(r[|users|], "email") == Str(email) &&
        Get(r[|users|], "password") == Str(hash(password)) && Get(r[|users|], "name") == Str("Admin")
  {
  }

  /** Seeding is idempotent: a second start-up, at any time and with any generated id,
      leaves `users` as the first one did. */
  lemma SeedIdempotent(users: seq<Doc>, email: string, password: string, hash: string -> string,
                       now: int, generated: string, now': int, generated': string)
    ensures var once := SeededUsers(users, email, password, hash, now, generated);
      SeededUsers(once, email, password, hash, now', generated') == once
  {
    SeedKeepsUsers(users, email, password, hash, now, generated);
  }

  /** Seeding keeps every email unique. */
  lemma SeedKeepsEmailsUnique(users: seq<Doc>, email: string, password: string, hash: string -> string,
                              now: int, generated: string)
    requires UniqueEmails(users)
    ensures UniqueEmails(SeededUsers(users, email, password, hash, now, generated))
  {
    var admin := AdminUser(email, hash(password), now);
    assert Get(admin, "email") == Str(email);
    if FindOneIn(users, ByEmail(Str(email))).None? {
      InsertNewEmailKeepsUnique(users, admin, generated);
    }
  }
}
