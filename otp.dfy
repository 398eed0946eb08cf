/** Sign-in by one-time code. `start` stores a record holding the SHA-256 of a fresh
    six-digit code, valid for ten minutes and unused, and mails the code; `verify` accepts a
    code whose record is unused and unexpired, marks that record used, and signs the caller
    in, creating a "farmer" account on first use. SHA-256 is a parameter (`sha256`), as are
    the clock, `Math.random` and the mailer's outcome. */
module Otp {
  import opened Values
  import opened Db
  import opened Http
  import opened Users

  const OtpsCollection: string := "otps"

  /** `10 * 60 * 1000`: a code is valid for ten minutes. */
  const ValidForMs: int := 600000

  // ---------------------------------------------------------------- the code

  function Pow10(k: nat): nat {
    if k == 0 then 1 else 10 * Pow10(k - 1)
  }

  /** A number of `k` digits has a decimal text of length `k`. */
  lemma {:induction false} DecimalTextLength(n: nat, k: nat)
    requires 1 <= k && n < Pow10(k)
    requires k > 1 ==> Pow10(k - 1) <= n
    ensures |DecimalText(n)| == k
  {
    if k > 1 {
      assert n / 10 < Pow10(k - 1);
      if k > 2 {
        assert Pow10(k - 2) <= n / 10;
      }
      DecimalTextLength(n / 10, k - 1);
    }
  }

  /** `Math.floor(100000 + Math.random() * 900000)`. */
  function CodeOf(random: real): (code: nat)
    requires 0.0 <= random < 1.0
  {
    (100000.0 + random * 900000.0).Floor
  }

  /** Every code is a six-digit number, so its text is six decimal digits. */
  lemma CodeHasSixDigits(random: real)
    requires 0.0 <= random < 1.0
    ensures 100000 <= CodeOf(random) <= 999999
    ensures |DecimalText(CodeOf(random))| == 6
  {
    var c := CodeOf(random);
    assert random * 900000.0 < 900000.0;
    assert Pow10(6) == 1000000 && Pow10(5) == 100000;
    DecimalTextLength(c, 6);
  }

  // ---------------------------------------------------------------- start

  /** The record `start` stores: the hash and never the code, unused, expiring ten minutes
      after it is created. */
  function OtpRecord(email: Value, hash: string, now: int): Doc {
    map["email" := email, "hash" := Str(hash), "expiresAt" := Time(now + ValidForMs),
        "used" := Bool(false), "createdAt" := Time(now)]
  }

  /** `{ email, hash, used: false, expiresAt: { $gt: new Date() } }`. */
  function OtpQuery(email: Value, hash: string, now: int): Query {
    map["email" := CondOf(email), "hash" := Eq(Str(hash)), "used" := Eq(Bool(false)),
        "expiresAt" := Gt(Time(now))]
  }

  /** `start`: 400 without a truthy email, and then nothing is stored; otherwise one record
      is appended to `otps`. A mailer failure is thrown after the record is stored. */
  method Start(db: MemoryDb, body: Doc, random: real, now: int, sha256: string -> string,
               mailSent: bool, generated: string)
    returns (reply: Reply<bool>)
    requires 0.0 <= random < 1.0
    modifies db
    ensures !Truthy(Get(body, "email")) ==>
      reply == Error(400, "Email required") && db.collections == old(db.collections)
    ensures Truthy(Get(body, "email")) ==>
      var record := OtpRecord(Get(body, "email"), sha256(DecimalText(CodeOf(random))), now);
      db.collections == old(db.collections)[OtpsCollection := InsertIn(old(db.Docs(OtpsCollection)), record, generated)] &&
      reply == (if mailSent then Ok(true) else Crash("sendOtp failed"))
  {
    var email := Get(body, "email");
    if !Truthy(email) {
      return Error(400, "Email required");
    }
    var code := DecimalText(CodeOf(random));
    var hash := sha256(code);
    var _ := db.InsertOne(OtpsCollection, OtpRecord(email, hash, now), generated);
    if !mailSent {
      return Crash("sendOtp failed");
    }
    reply := Ok(true);
  }

  /** A stored record answers a later `verify` query exactly when the code hashes to the
      stored hash, the query is made strictly before the ten minutes are over, and the
      request's email is the same primitive value as the stored one or, when it is an object
      carrying `$gt`, a bound the stored email is greater than; `createdAt` and `_id` play
      no part. */
  lemma RecordMatchesUntilExpiry(email: Value, hash: string, created: int, id: Value,
                                 email': Value, hash': string, now: int)
    ensures Matches(OtpRecord(email, hash, created)["_id" := id], OtpQuery(email', hash', now))
      <==> (if email'.Obj? && "$gt" in email'.fields then Greater(email, email'.fields["$gt"])
            else StrictEq(email', email)) &&
           hash' == hash && now < created + ValidForMs
    ensures email'.Str? ==>
      (Matches(OtpRecord(email, hash, created)["_id" := id], OtpQuery(email', hash', now)) <==>
       email == email' && hash' == hash && now < created + ValidForMs)
  {
    var d := OtpRecord(email, hash, created)["_id" := id];
    var q := OtpQuery(email', hash', now);
    assert q.Keys == {"email", "hash", "used", "expiresAt"};
    assert Get(d, "email") == email && Get(d, "hash") == Str(hash);
    assert Get(d, "expiresAt") == Time(created + ValidForMs) && Get(d, "used") == Bool(false);
    var e, h, u, x := Holds(d, "email", q["email"]), Holds(d, "hash", q["hash"]),
                      Holds(d, "used", q["used"]), Holds(d, "expiresAt", q["expiresAt"]);
    assert Matches(d, q) <==> e && h && u && x;
    assert h <==> hash' == hash;
    assert u;
    assert x <==> now < created + ValidForMs;
  }

  // ---------------------------------------------------------------- verify

  /** `{ _id: doc._id }`. */
  function IdQuery(id: Value): Query {
    map["_id" := Eq(id)]
  }

  /** `{ $set: { used: true } }`. */
  const UsedPatch: Doc := map["used" := Bool(true)]

  /** The account `verify` creates on a first sign-in. */
  function OtpUser(email: string, now: int): Doc {
    map["email" := Str(email), "name" := Str(BeforeFirst(email, '@')), "role" := Str("farmer"),
        "createdAt" := Time(now)]
  }

  /** The session `verify` answers for an existing account; the token and the view carry the
      email of the request, and `None` is a name that cannot be built (the split throws). */
  function ExistingSession(user: Doc, email: Value): Option<Session> {
    match NameOr(Get(user, "name"), email)
    case None => None
    case Some(name) =>
      var id := TextOf(Get(user, "_id"));
      var role := RoleOr(Get(user, "role"));
      Some(Session(Claims(id, email, role), UserView(id, email, name, role)))
  }

  /** The session `verify` answers for an account it has just created with id `id`. */
  function NewSession(id: string, email: string): Session {
    Session(Claims(id, Str(email), Str("farmer")),
            UserView(id, Str(email), Str(BeforeFirst(email, '@')), Str("farmer")))
  }

  /** The sign-in half of `verify`, from the collections `before`, whose `users` are `users`,
      to the collections `after` and the answer `reply`: an existing account keeps its id,
      name and role (defaults filled in), and a new email gets a "farmer" account; a new
      email that is not text makes `split` throw before anything is stored. Only `users`
      changes, and only by that one insertion. */
  predicate SignedIn(before: map<string, seq<Doc>>, users: seq<Doc>, email: Value, now: int, generated: string,
                     after: map<string, seq<Doc>>, reply: Reply<Session>)
  {
    var found := FindOneIn(users, ByEmail(email));
    if found.Some? then
      after == before[UsersCollection := users] &&
      (ExistingSession(found.value, email).Some? ==> reply == Ok(ExistingSession(found.value, email).value)) &&
      (ExistingSession(found.value, email).None? ==> reply.Crash?)
    else if !email.Str? then
      reply.Crash? && after == before[UsersCollection := users]
    else
      reply == Ok(NewSession(generated, email.s)) &&
      after == before[UsersCollection := InsertIn(users, OtpUser(email.s, now), generated)]
  }

  /** The sign-in half of `verify`. */
  method SignIn(db: MemoryDb, email: Value, now: int, generated: string) returns (reply: Reply<Session>)
    modifies db
    ensures SignedIn(old(db.collections), old(db.Docs(UsersCollection)), email, now, generated, db.collections, reply)
    ensures UniqueEmails(old(db.Docs(UsersCollection))) ==> UniqueEmails(db.Docs(UsersCollection))
  {
    var user := db.FindOne(UsersCollection, ByEmail(email));
    if user.None? {
      if !email.Str? {
        return Crash("email.split is not a function");
      }
      var doc := OtpUser(email.s, now);
      assert Get(doc, "email") == email;
      if UniqueEmails(db.Docs(UsersCollection)) {
        InsertNewEmailKeepsUnique(db.Docs(UsersCollection), doc, generated);
      }
      var insertedId := db.InsertOne(UsersCollection, doc, generated);
      reply := Ok(NewSession(TextOf(insertedId), email.s));
      return;
    }
    var session := ExistingSession(user.value, email);
    if session.None? {
      return Crash("email.split is not a function");
    }
    reply := Ok(session.value);
  }

  /** `verify`. The request needs a truthy email and code; a code that is not text makes the
      hash throw. A code without an unused, unexpired record for that email answers 400.
      Otherwise the record is marked used first, and then the caller is signed in. */
  method Verify(db: MemoryDb, body: Doc, now: int, sha256: string -> string, generated: string)
    returns (reply: Reply<Session>)
    modifies db
    ensures !Truthy(Get(body, "email")) || !Truthy(Get(body, "code")) ==>
      reply == Error(400, "Email and code required") && db.collections == old(db.collections)
    ensures Truthy(Get(body, "email")) && Truthy(Get(body, "code")) && !Get(body, "code").Str? ==>
      reply.Crash? && db.collections == old(db.collections)
    ensures Truthy(Get(body, "email")) && Get(body, "code").Str? && Get(body, "code").s != "" &&
            FindOneIn(old(db.Docs(OtpsCollection)), OtpQuery(Get(body, "email"), sha256(Get(body, "code").s), now)).None? ==>
      reply == Error(400, "Invalid or expired code") &&
      db.collections == old(db.collections)[OtpsCollection := old(db.Docs(OtpsCollection))]
    ensures Truthy(Get(body, "email")) && Get(body, "code").Str? && Get(body, "code").s != "" &&
            FindOneIn(old(db.Docs(OtpsCollection)), OtpQuery(Get(body, "email"), sha256(Get(body, "code").s), now)).Some? ==>
      var email := Get(body, "email");
      var record := FindOneIn(old(db.Docs(OtpsCollection)), OtpQuery(email, sha256(Get(body, "code").s), now)).value;
      var otps := UpdateIn(old(db.Docs(OtpsCollection)), IdQuery(Get(record, "_id")), Some(UsedPatch)).0;
      SignedIn(old(db.collections)[OtpsCollection := otps], old(db.Docs(UsersCollection)), email, now, generated,
               db.collections, reply)
    ensures UniqueEmails(old(db.Docs(UsersCollection))) ==> UniqueEmails(db.Docs(UsersCollection))
  {
    var email, code := Get(body, "email"), Get(body, "code");
    if !Truthy(email) || !Truthy(code) {
      return Error(400, "Email and code required");
    }
    if !code.Str? {
      return Crash("Invalid data argument");
    }
    var hash := sha256(code.s);
    ghost var usersBefore := db.Docs(UsersCollection);
    var query := OtpQuery(email, hash, now);
    var record := db.FindOne(OtpsCollection, query);
    if record.None? {
      return Error(400, "Invalid or expired code");
    }
    assert record.value == FindOneIn(old(db.Docs(OtpsCollection)), query).value;
    var _, _ := db.UpdateOne(OtpsCollection, IdQuery(Get(record.value, "_id")), Some(UsedPatch));
    ghost var afterOtps := db.collections;
    assert afterOtps == old(db.collections)[OtpsCollection :=
      UpdateIn(old(db.Docs(OtpsCollection)), IdQuery(Get(record.value, "_id")), Some(UsedPatch)).0];
    assert db.Docs(UsersCollection) == usersBefore;
    reply := SignIn(db, email, now, generated);
  }

  // ---------------------------------------------------------------- a code for any account

  /** As written, a caller holding a valid code for their own email signs in as another
      account: the body email `{ "$gt": "" }` matches the caller's own record (its email is
      greater than ""), and the same object then finds the first stored user, typically the
      administrator, whose id and role the session carries whatever that user's email is. */
  lemma GtEmailSignsInAsFirstUser(users: seq<Doc>, ownEmail: string, hash: string, created: int, id: Value,
                                  now: int)
    requires ownEmail != "" && now < created + ValidForMs
    requires users != [] && Get(users[0], "email").Str? && Get(users[0], "email").s != ""
    ensures var own := OtpRecord(Str(ownEmail), hash, created)["_id" := id];
      var email := Obj(map["$gt" := Str("")]);
      FindOneIn([own], OtpQuery(email, hash, now)) == Some(own) &&
      FindOneIn(users, ByEmail(email)) == Some(users[0])
    ensures var email := Obj(map["$gt" := Str("")]);
      var first := users[0];
      var id := TextOf(Get(first, "_id"));
      Truthy(Get(first, "name")) ==>
        ExistingSession(first, email) ==
          Some(Session(Claims(id, email, RoleOr(Get(first, "role"))),
                       UserView(id, email, Get(first, "name"), RoleOr(Get(first, "role")))))
  {
    var own := OtpRecord(Str(ownEmail), hash, created)["_id" := id];
    var email := Obj(map["$gt" := Str("")]);
    RecordMatchesUntilExpiry(Str(ownEmail), hash, created, id, email, hash, now);
    assert Matches(own, OtpQuery(email, hash, now));
    var q := ByEmail(email);
    assert "email" in q;
    assert Holds(users[0], "email", q["email"]);
  }

  /** `{ email, hash, used: false, expiresAt: { $gt: now } }` as evidently intended: only a
      text email is looked up, and only by strict equality. */
  function TextOtpQuery(email: Value, hash: string, now: int): (q: Option<Query>)
    ensures q.Some? <==> email.Str?
  {
    if email.Str? then
      Some(map["email" := Eq(email), "hash" := Eq(Str(hash)), "used" := Eq(Bool(false)),
               "expiresAt" := Gt(Time(now))])
    else None
  }

  /** With the intended lookups a code signs in only the account of the email it was sent
      to: the accepted record holds the request's email, and the account found holds it too. */
  lemma TextQueriesSignInOwnAccount(otps: seq<Doc>, users: seq<Doc>, email: Value, hash: string, now: int)
    requires TextOtpQuery(email, hash, now).Some?
    requires FindOneIn(otps, TextOtpQuery(email, hash, now).value).Some?
    ensures var record := FindOneIn(otps, TextOtpQuery(email, hash, now).value).value;
      var found := FindOneIn(users, TextEmailQuery(email).value);
      Get(record, "email") == email &&
      (found.Some? ==> Get(found.value, "email") == Get(record, "email"))
  {
    var q := TextOtpQuery(email, hash, now).value;
    var record := FindOneIn(otps, q).value;
    assert "email" in q;
    assert Holds(record, "email", q["email"]);
  }

  // ---------------------------------------------------------------- single use

  /** Record ids are text and no two records share one, as `insertOne` keeps them when each
      generated id is fresh. */
  predicate UniqueIds(docs: seq<Doc>) {
    (forall i :: 0 <= i < |docs| ==> Get(docs[i], "_id").Str?) &&
    (forall i, j :: 0 <= i < j < |docs| ==> Get(docs[i], "_id") != Get(docs[j], "_id"))
  }

  /** Storing a record under a fresh generated id keeps the ids unique. */
  lemma InsertKeepsIdsUnique(docs: seq<Doc>, record: Doc, generated: string)
    requires UniqueIds(docs)
    requires "_id" !in record
    requires forall i :: 0 <= i < |docs| ==> Get(docs[i], "_id") != Str(generated)
    ensures UniqueIds(InsertIn(docs, record, generated))
  {
    var r := InsertIn(docs, record, generated);
    assert Get(r[|docs|], "_id") == Str(generated);
    forall i | 0 <= i < |docs| ensures r[i] == docs[i] {
      assert r[..|docs|][i] == docs[i];
    }
  }

  /** The number of records a query matches. */
  function MatchCount(docs: seq<Doc>, q: Query): (n: nat)
    ensures n <= |docs|
  {
    |FilterMatching(docs, q)|
  }

  /** Replacing one record changes the number of matches by that record alone. */
  lemma MatchCountReplace(docs: seq<Doc>, i: nat, x: Doc, q: Query)
    requires i < |docs|
    ensures MatchCount(docs[i := x], q) + (if Matches(docs[i], q) then 1 else 0)
      == MatchCount(docs, q) + (if Matches(x, q) then 1 else 0)
  {
    var r := docs[i := x];
    assert docs == docs[..i] + [docs[i]] + docs[i + 1..];
    assert r == docs[..i] + [x] + docs[i + 1..];
    FilterMatchingAppend(docs[..i] + [docs[i]], docs[i + 1..], q);
    FilterMatchingAppend(docs[..i], [docs[i]], q);
    FilterMatchingAppend(docs[..i] + [x], docs[i + 1..], q);
    FilterMatchingAppend(docs[..i], [x], q);
    assert [x][1..] == [] && [docs[i]][1..] == [];
  }

  /** A code is accepted once per record: marking the accepted record used takes exactly
      that record out of the matches of every later query for the same code, and adds no
      other match. */
  lemma MarkingUsedConsumesRecord(otps: seq<Doc>, email: Value, hash: string, now: int, later: int)
    requires UniqueIds(otps)
    requires FindOneIn(otps, OtpQuery(email, hash, now)).Some?
    ensures var record := FindOneIn(otps, OtpQuery(email, hash, now)).value;
      var r := UpdateIn(otps, IdQuery(Get(record, "_id")), Some(UsedPatch));
      r.1 == 1 &&
      (Matches(record, OtpQuery(email, hash, later)) ==>
        MatchCount(r.0, OtpQuery(email, hash, later)) + 1 == MatchCount(otps, OtpQuery(email, hash, later))) &&
      (!Matches(record, OtpQuery(email, hash, later)) ==>
        MatchCount(r.0, OtpQuery(email, hash, later)) == MatchCount(otps, OtpQuery(email, hash, later)))
  {
    var i := FirstMatch(otps, OtpQuery(email, hash, now)).value;
    var record := otps[i];
    var id := Get(record, "_id");
    var iq := IdQuery(id);
    assert "_id" in iq;
    assert Matches(record, iq);
    forall j | 0 <= j < |otps| && j != i ensures !Matches(otps[j], iq) {
      assert Get(otps[j], "_id") != id;
      assert !Holds(otps[j], "_id", iq["_id"]);
    }
    assert FirstMatch(otps, iq) == Some(i);
    var r := UpdateIn(otps, iq, Some(UsedPatch));
    var q := OtpQuery(email, hash, later);
    assert "used" in q;
    assert Get(r.0[i], "used") == Bool(true);
    assert !Holds(r.0[i], "used", q["used"]);
    assert r.0 == otps[i := r.0[i]];
    MatchCountReplace(otps, i, r.0[i], q);
  }
}
