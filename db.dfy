/** The in-memory document store the server falls back to when no MongoDB URI is configured:
    named collections of documents, a tiny query language (equality and `$gt`), and the
    six collection operations the routes use. The pure functions below say what each
    operation computes; the `MemoryDb` class performs them on its collections. */
module Db {
  import opened Values

  /** A query value: `{ $gt: bound }` or a plain value compared with `===`. */
  datatype Cond = Eq(v: Value) | Gt(bound: Value)

  /** A query object: property name to condition (`{}` is the empty map). */
  type Query = map<string, Cond>

  predicate Holds(d: Doc, k: string, c: Cond) {
    match c
    case Gt(bound) => Greater(Get(d, k), bound)
    case Eq(v) => StrictEq(Get(d, k), v)
  }

  /** How `match` reads a query value taken from a request: an object carrying `$gt` is a
      comparison with its bound, any other value (text included) is compared with `===`. */
  function CondOf(v: Value): (c: Cond)
    ensures c.Gt? <==> v.Obj? && "$gt" in v.fields
    ensures c.Gt? ==> c.bound == v.fields["$gt"]
    ensures c.Eq? ==> c.v == v
  {
    if v.Obj? && "$gt" in v.fields then Gt(v.fields["$gt"]) else Eq(v)
  }

  /** `match(doc, query)`: every query property holds of the document. */
  predicate Matches(d: Doc, q: Query) {
    forall k :: k in q ==> Holds(d, k, q[k])
  }

  /** A one-property equality query `{ k: Str(s) }` matches exactly the documents whose
      property `k` is that string; the empty query matches every document. */
  lemma EqualityQuery(d: Doc, k: string, s: string)
    ensures Matches(d, map[k := Eq(Str(s))]) <==> Get(d, k) == Str(s)
    ensures Matches(d, map[])
  {
    assert k in map[k := Eq(Str(s))];
  }

  /** `{ userId: id }`: the documents owned by one user. */
  function ByUser(id: string): Query {
    map["userId" := Eq(Str(id))]
  }

  /** `findIndex`: the position of the first matching document, if any. */
  function FirstMatch(docs: seq<Doc>, q: Query): (r: Option<nat>)
    ensures r.Some? ==> r.value < |docs| && Matches(docs[r.value], q)
    ensures r.Some? ==> forall j :: 0 <= j < r.value ==> !Matches(docs[j], q)
    ensures r.None? <==> forall j :: 0 <= j < |docs| ==> !Matches(docs[j], q)
  {
    if docs == [] then None
    else if Matches(docs[0], q) then Some(0)
    else
      match FirstMatch(docs[1..], q)
      case None => None
      case Some(i) => Some(i + 1)
  }

  /** `findOne`: the first matching document in insertion order, or null. */
  function FindOneIn(docs: seq<Doc>, q: Query): (r: Option<Doc>)
    ensures r.Some? <==> exists j :: 0 <= j < |docs| && Matches(docs[j], q)
    ensures r.Some? ==> r.value in docs && Matches(r.value, q)
  {
    match FirstMatch(docs, q)
    case None => None
    case Some(i) => Some(docs[i])
  }

  /** Appending a document never hides an earlier match: the first match of the longer
      collection is the old first match, else the new document when it matches. */
  lemma FindOneAfterAppend(docs: seq<Doc>, x: Doc, q: Query)
    ensures FindOneIn(docs + [x], q) ==
      if FindOneIn(docs, q).Some? then FindOneIn(docs, q)
      else if Matches(x, q) then Some(x) else None
  {
    var all := docs + [x];
    match FirstMatch(docs, q)
    case Some(i) =>
      assert all[i] == docs[i];
      assert forall j :: 0 <= j < i ==> all[j] == docs[j];
    case None =>
      assert forall j :: 0 <= j < |docs| ==> all[j] == docs[j];
      if Matches(x, q) {
        assert all[|docs|] == x;
      } else {
        assert forall j :: 0 <= j < |all| ==> !Matches(all[j], q);
      }
  }

  /** The `_id` an inserted document gets: its own when truthy, else the generated one. */
  function IdFor(doc: Doc, generated: string): (id: Value)
    ensures Truthy(Get(doc, "_id")) ==> id == doc["_id"]
    ensures !Truthy(Get(doc, "_id")) ==> id == Str(generated)
  {
    if Truthy(Get(doc, "_id")) then Get(doc, "_id") else Str(generated)
  }

  /** `insertOne`: a copy of the document carrying its `_id` goes at the end. */
  function InsertIn(docs: seq<Doc>, doc: Doc, generated: string): (r: seq<Doc>)
    ensures |r| == |docs| + 1 && r[..|docs|] == docs
    ensures r[|docs|] == doc["_id" := IdFor(doc, generated)]
    ensures forall k :: k in doc && k != "_id" ==> k in r[|docs|] && r[|docs|][k] == doc[k]
  {
    docs + [doc["_id" := IdFor(doc, generated)]]
  }

  /** `updateOne(filter, { $set })`: only the first match changes, and only in the `$set`
      (`patch`) properties; with no match or no `$set` the collection is unchanged and the count is 0. */
  function UpdateIn(docs: seq<Doc>, q: Query, patch: Option<Doc>): (r: (seq<Doc>, nat))
    ensures |r.0| == |docs|
    ensures r.1 == 1 <==> FirstMatch(docs, q).Some? && patch.Some?
    ensures r.1 == 0 ==> r.0 == docs
    ensures r.1 == 1 ==>
      var i := FirstMatch(docs, q).value;
      (forall j :: 0 <= j < |docs| && j != i ==> r.0[j] == docs[j]) &&
      r.0[i].Keys == docs[i].Keys + patch.value.Keys &&
      (forall k :: k in patch.value ==> r.0[i][k] == patch.value[k]) &&
      (forall k :: k in docs[i] && k !in patch.value ==> r.0[i][k] == docs[i][k])
    ensures r.1 <= 1
  {
    match FirstMatch(docs, q)
    case Some(i) =>
      if patch.Some? then (docs[i := docs[i] + patch.value], 1) else (docs, 0)
    case None => (docs, 0)
  }

  /** Removing the document at `i` takes exactly one copy of it out of the collection. */
  lemma RemoveAtCounts(docs: seq<Doc>, i: nat)
    requires i < |docs|
    ensures multiset(docs[..i] + docs[i + 1..]) + multiset{docs[i]} == multiset(docs)
  {
    assert docs == docs[..i] + [docs[i]] + docs[i + 1..];
  }

  /** `deleteOne`: only the first match goes, the rest keep their order; with no match
      nothing changes and the count is 0. */
  function DeleteIn(docs: seq<Doc>, q: Query): (r: (seq<Doc>, nat))
    ensures r.1 == 1 <==> FindOneIn(docs, q).Some?
    ensures r.1 == 0 ==> r.0 == docs
    ensures r.1 == 1 ==>
      var i := FirstMatch(docs, q).value;
      |r.0| == |docs| - 1 && r.0 == docs[..i] + docs[i + 1..] &&
      multiset(r.0) + multiset{docs[i]} == multiset(docs)
    ensures r.1 <= 1
  {
    match FirstMatch(docs, q)
    case Some(i) =>
      RemoveAtCounts(docs, i);
      (docs[..i] + docs[i + 1..], 1)
    case None => (docs, 0)
  }

  /** `find(query).toArray()`: the matching documents, in store order. */
  function FilterMatching(docs: seq<Doc>, q: Query): (r: seq<Doc>)
    ensures |r| <= |docs|
    ensures forall d :: d in r ==> d in docs && Matches(d, q)
  {
    if docs == [] then []
    else if Matches(docs[0], q) then [docs[0]] + FilterMatching(docs[1..], q)
    else FilterMatching(docs[1..], q)
  }

  /** `find` keeps every matching document, with its multiplicity, and nothing else. */
  lemma {:induction false} FilterMatchingCounts(docs: seq<Doc>, q: Query, d: Doc)
    ensures multiset(FilterMatching(docs, q))[d] ==
      if Matches(d, q) then multiset(docs)[d] else 0
  {
    if docs != [] {
      FilterMatchingCounts(docs[1..], q, d);
      assert docs == [docs[0]] + docs[1..];
    }
  }

  /** `find({})` returns the whole collection. */
  lemma {:induction false} FilterMatchingAll(docs: seq<Doc>)
    ensures FilterMatching(docs, map[]) == docs
  {
    if docs != [] {
      FilterMatchingAll(docs[1..]);
      EqualityQuery(docs[0], "", "");
      assert docs == [docs[0]] + docs[1..];
    }
  }

  /** `find` works element by element, so the result keeps store order. */
  lemma {:induction false} FilterMatchingAppend(a: seq<Doc>, b: seq<Doc>, q: Query)
    ensures FilterMatching(a + b, q) == FilterMatching(a, q) + FilterMatching(b, q)
  {
    if a != [] {
      assert (a + b)[0] == a[0];
      assert (a + b)[1..] == a[1..] + b;
      FilterMatchingAppend(a[1..], b, q);
      if Matches(a[0], q) {
        calc {
          FilterMatching(a + b, q);
          [a[0]] + FilterMatching(a[1..] + b, q);
          [a[0]] + (FilterMatching(a[1..], q) + FilterMatching(b, q));
          ([a[0]] + FilterMatching(a[1..], q)) + FilterMatching(b, q);
        }
      }
    } else {
      assert a + b == b;
    }
  }

  /** The store created by `createMemoryDb`: `users` and `otps` exist from the start, and
      any other collection is created empty the first time it is named. */
  class MemoryDb {
    var collections: map<string, seq<Doc>>

    constructor ()
      ensures collections == map["users" := [], "otps" := []]
    {
      collections := map["users" := [], "otps" := []];
    }

    /** The documents of a collection; one never named holds none. */
    function Docs(name: string): seq<Doc>
      reads this
    {
      if name in collections then collections[name] else []
    }

    /** `collection(name)`: `store[name] ||= []`. */
    method Touch(name: string)
      modifies this
      ensures collections == old(collections)[name := old(Docs(name))]
    {
      if name !in collections {
        collections := collections[name := []];
      }
    }

    method FindOne(name: string, q: Query) returns (r: Option<Doc>)
      modifies this
      ensures collections == old(collections)[name := old(Docs(name))]
      ensures r == FindOneIn(Docs(name), q)
    {
      Touch(name);
      r := FindOneIn(collections[name], q);
    }

    method InsertOne(name: string, doc: Doc, generated: string) returns (insertedId: Value)
      modifies this
      ensures insertedId == IdFor(doc, generated)
      ensures collections == old(collections)[name := InsertIn(old(Docs(name)), doc, generated)]
    {
      Touch(name);
      insertedId := IdFor(doc, generated);
      collections := collections[name := collections[name] + [doc["_id" := insertedId]]];
    }

    method UpdateOne(name: string, q: Query, patch: Option<Doc>) returns (matched: nat, modified: nat)
      modifies this
      ensures matched == modified == UpdateIn(old(Docs(name)), q, patch).1
      ensures collections == old(collections)[name := UpdateIn(old(Docs(name)), q, patch).0]
    {
      Touch(name);
      var r := UpdateIn(collections[name], q, patch);
      collections := collections[name := r.0];
      matched, modified := r.1, r.1;
    }

    method CountDocuments(name: string) returns (n: nat)
      modifies this
      ensures collections == old(collections)[name := old(Docs(name))]
      ensures n == |old(Docs(name))|
      ensures name !in old(collections) ==> n == 0
    {
      Touch(name);
      n := |collections[name]|;
    }

    method DeleteOne(name: string, q: Query) returns (deletedCount: nat)
      modifies this
      ensures deletedCount == DeleteIn(old(Docs(name)), q).1
      ensures collections == old(collections)[name := DeleteIn(old(Docs(name)), q).0]
    {
      Touch(name);
      var r := DeleteIn(collections[name], q);
      collections := collections[name := r.0];
      deletedCount := r.1;
    }

    method Find(name: string, q: Query) returns (r: seq<Doc>)
      modifies this
      ensures collections == old(collections)[name := old(Docs(name))]
      ensures r == FilterMatching(Docs(name), q)
    {
      Touch(name);
      r := FilterMatching(collections[name], q);
    }
  }

  /** The module-level `db` cache of `getDb`. */
  class Server {
    var db: MemoryDb?

    constructor ()
      ensures db == null
    {
      db := null;
    }

    /** `getDb` without a MongoDB URI: the first call creates the in-memory store, every
        later call returns that same object untouched. */
    method GetDb() returns (d: MemoryDb)
      modifies this
      ensures db == d
      ensures old(db) != null ==> d == old(db) && d.collections == old(d.collections)
      ensures old(db) == null ==> fresh(d) && d.collections == map["users" := [], "otps" := []]
    {
      if db != null {
        d := db;
        return;
      }
      d := new MemoryDb();
      db := d;
    }
  }
}
