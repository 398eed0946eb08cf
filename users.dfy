/** What the account routes share: the `users` collection, the user view and token claims
    they answer with, and the unique-email invariant every user-creating path keeps by
    looking the email up before inserting. */
module Users {
  import opened Values
  import opened Db

  const UsersCollection: string := "users"

  /** `user.role || "farmer"`. */
  function RoleOr(role: Value): (r: Value)
    ensures Truthy(r)
    ensures Truthy(role) ==> r == role
  {
    if Truthy(role) then role else Str("farmer")
  }

  /** `email.split("@")[0]`; `None` when `email` is not a string (the call throws). */
  function LocalPart(email: Value): (r: Option<string>)
    ensures email.Str? <==> r.Some?
    ensures r.Some? ==> r.value <= email.s && '@' !in r.value
  {
    if email.Str? then Some(BeforeFirst(email.s, '@')) else None
  }

  /** `name || email.split("@")[0]`; `None` when that split throws. */
  function NameOr(name: Value, email: Value): (r: Option<Value>)
    ensures Truthy(name) ==> r == Some(name)
    ensures !Truthy(name) ==> r == (if email.Str? then Some(Str(LocalPart(email).value)) else None)
  {
    if Truthy(name) then Some(name)
    else match LocalPart(email)
      case None => None
      case Some(local) => Some(Str(local))
  }

  /** The claims a signed token carries (`{ _id, email, role }`); signing itself is not
      modelled. */
  datatype Claims = Claims(id: string, email: Value, role: Value)

  /** The `user` object of an answer. */
  datatype UserView = UserView(id: string, email: Value, name: Value, role: Value)

  /** `{ token, user }`. */
  datatype Session = Session(token: Claims, user: UserView)

  /** `{ email }` with the email of a request: the users whose email is strictly equal to
      it, or, when the request sends an object carrying `$gt`, the users whose email is
      greater than that bound. */
  function ByEmail(email: Value): Query {
    map["email" := CondOf(email)]
  }

  /** As written, the body email `{ "$gt": "" }` is a comparison, not an email: it finds the
      first user whose email is non-empty text, whoever that user is. */
  lemma GtEmailFindsAnyUser(users: seq<Doc>, i: nat)
    requires i < |users| && Get(users[i], "email").Str? && Get(users[i], "email").s != ""
    ensures var found := FindOneIn(users, ByEmail(Obj(map["$gt" := Str("")])));
      found.Some? && found.value in users[..i + 1]
  {
    var q := ByEmail(Obj(map["$gt" := Str("")]));
    assert "email" in q;
    assert Matches(users[i], q);
    var j := FirstMatch(users, q).value;
    assert users[..i + 1][j] == users[j];
  }

  /** The lookup the account routes evidently intend: an email that is not text is refused
      (`None`, answered 400), and a text email finds only the users whose email is exactly
      that text. */
  function TextEmailQuery(email: Value): (q: Option<Query>)
    ensures q.Some? <==> email.Str?
    ensures q.Some? ==> forall d :: Matches(d, q.value) <==> Get(d, "email") == email
  {
    if email.Str? then
      var q := map["email" := Eq(email)];
      assert forall d :: Matches(d, q) <==> Holds(d, "email", q["email"]);
      Some(q)
    else None
  }

  /** No two users have strictly equal emails. */
  predicate UniqueEmails(users: seq<Doc>) {
    forall i, j :: 0 <= i < j < |users| ==> !StrictEq(Get(users[i], "email"), Get(users[j], "email"))
  }

  /** The guard every user-creating path uses: when `findOne({ email })` finds nobody,
      inserting a user with that email keeps the emails unique. */
  lemma InsertNewEmailKeepsUnique(users: seq<Doc>, doc: Doc, generated: string)
    requires UniqueEmails(users)
    requires FindOneIn(users, ByEmail(Get(doc, "email"))).None?
    ensures UniqueEmails(InsertIn(users, doc, generated))
  {
    var r := InsertIn(users, doc, generated);
    var e := Get(doc, "email");
    assert Get(r[|users|], "email") == e;
    forall i | 0 <= i < |users| ensures !StrictEq(Get(r[i], "email"), e) {
      assert r[i] == users[i];
      if CondOf(e).Eq? {
        assert !Matches(users[i], ByEmail(e));
        assert "email" in ByEmail(e);
      }
    }
    forall i, j | 0 <= i < j < |r| ensures !StrictEq(Get(r[i], "email"), Get(r[j], "email")) {
      if j < |users| {
        assert r[i] == users[i] && r[j] == users[j];
      } else {
        assert StrictEq(Get(r[i], "email"), e) <==> StrictEq(e, Get(r[i], "email"));
      }
    }
  }

  /** An update that does not set `email` keeps the emails unique. */
  lemma UpdateWithoutEmailKeepsUnique(users: seq<Doc>, q: Query, patch: Option<Doc>)
    requires UniqueEmails(users)
    requires patch.Some? ==> "email" !in patch.value
    ensures UniqueEmails(UpdateIn(users, q, patch).0)
  {
    var r := UpdateIn(users, q, patch);
    if r.1 == 1 {
      var k := FirstMatch(users, q).value;
      assert Get(r.0[k], "email") == Get(users[k], "email");
      forall i, j | 0 <= i < j < |users|
        ensures !StrictEq(Get(r.0[i], "email"), Get(r.0[j], "email"))
      {
        assert Get(r.0[i], "email") == Get(users[i], "email");
        assert Get(r.0[j], "email") == Get(users[j], "email");
      }
    }
  }
}
