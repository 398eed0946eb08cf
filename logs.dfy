/** The activity-log routes: list, add and delete, each scoped to the caller's `userId`. */
module Logs {
  import opened Values
  import opened Db
  import opened Http
  import opened LogFields

  /** `{ _id: id, userId }`: the caller's log with that id. */
  function OwnLog(userId: string, logId: string): Query {
    map["_id" := Eq(Str(logId)), "userId" := Eq(Str(userId))]
  }

  /** A listed log is exactly a stored log whose `userId` is the caller's. */
  lemma ListedAreOwn(docs: seq<Doc>, id: string, d: Doc)
    ensures d in FilterMatching(docs, ByUser(id)) <==> d in docs && Get(d, "userId") == Str(id)
  {
    FilterMatchingCounts(docs, ByUser(id), d);
    EqualityQuery(d, "userId", id);
  }

  /** `listLogs`: the caller's logs, in store order. */
  method ListLogs(db: MemoryDb, authorization: string, verify: string -> Option<string>)
    returns (reply: Reply<seq<Doc>>)
    modifies db
    ensures RequireUser(authorization, verify).None? ==>
      reply == Error(401, Unauthorized) && db.collections == old(db.collections)
    ensures RequireUser(authorization, verify).Some? ==>
      reply == Ok(FilterMatching(old(db.Docs(LogsCollection)), ByUser(RequireUser(authorization, verify).value))) &&
      db.collections == old(db.collections)[LogsCollection := old(db.Docs(LogsCollection))]
  {
    var user := RequireUser(authorization, verify);
    if user.None? {
      return Error(401, Unauthorized);
    }
    var logs := db.Find(LogsCollection, ByUser(user.value));
    reply := Ok(logs);
  }

  /** `v ?? d`. */
  function OrElse(v: Value, d: Value): Value {
    if v.Undefined? || v.Null? then d else v
  }

  /** The document `addLog` stores for the caller. */
  function NewLog(userId: string, body: Doc, now: int): Doc {
    map["userId" := Str(userId), "type" := Get(body, "type"), "date" := Get(body, "date"),
        "quantity" := OrElse(Get(body, "quantity"), Null),
        "unit" := OrElse(Get(body, "unit"), Null),
        "notes" := OrElse(Get(body, "notes"), Str("")),
        "createdAt" := Time(now)]
  }

  /** A new log belongs to the caller, keeps the given type and date, and has a null quantity
      and unit and empty notes when those are not given. */
  lemma NewLogFields(userId: string, body: Doc, now: int)
    ensures var d := NewLog(userId, body, now);
      Get(d, "userId") == Str(userId) && Get(d, "type") == Get(body, "type") &&
      Get(d, "date") == Get(body, "date") &&
      (Get(body, "quantity").Undefined? ==> Get(d, "quantity") == Null) &&
      (!Get(body, "quantity").Undefined? ==> Get(d, "quantity") == Get(body, "quantity")) &&
      (Get(body, "unit").Undefined? ==> Get(d, "unit") == Null) &&
      (Get(body, "notes").Undefined? || Get(body, "notes").Null? ==> Get(d, "notes") == Str("")) &&
      "_id" !in d
  {
  }

  /** `addLog`: 401 without a valid token, 400 unless `type` and `date` are truthy, else one
      new log at the end of the collection; the reply is the log with its id. */
  method AddLog(db: MemoryDb, authorization: string, verify: string -> Option<string>,
                body: Doc, now: int, generated: string)
    returns (reply: Reply<Doc>)
    modifies db
    ensures RequireUser(authorization, verify).None? ==>
      reply == Error(401, Unauthorized) && db.collections == old(db.collections)
    ensures RequireUser(authorization, verify).Some? &&
            (!Truthy(Get(body, "type")) || !Truthy(Get(body, "date"))) ==>
      reply == Error(400, "type and date required") && db.collections == old(db.collections)
    ensures RequireUser(authorization, verify).Some? &&
            Truthy(Get(body, "type")) && Truthy(Get(body, "date")) ==>
      var doc := NewLog(RequireUser(authorization, verify).value, body, now);
      reply == Ok(map["id" := Str(generated)] + doc) &&
      db.collections == old(db.collections)[LogsCollection := InsertIn(old(db.Docs(LogsCollection)), doc, generated)]
  {
    var user := RequireUser(authorization, verify);
    if user.None? {
      return Error(401, Unauthorized);
    }
    if !Truthy(Get(body, "type")) || !Truthy(Get(body, "date")) {
      return Error(400, "type and date required");
    }
    var doc := NewLog(user.value, body, now);
    var insertedId := db.InsertOne(LogsCollection, doc, generated);
    reply := Ok(map["id" := Str(TextOf(insertedId))] + doc);
  }

  /** `deleteLog`: removes the first log with that id owned by the caller, or answers 404 and
      changes nothing. (The first attempt, with an `ObjectId`, never matches a string id in
      the in-memory store, so the string-id attempt is the one that decides.) */
  method DeleteLog(db: MemoryDb, authorization: string, verify: string -> Option<string>, logId: string)
    returns (reply: Reply<bool>)
    modifies db
    ensures RequireUser(authorization, verify).None? ==>
      reply == Error(401, Unauthorized) && db.collections == old(db.collections)
    ensures RequireUser(authorization, verify).Some? ==>
      var r := DeleteIn(old(db.Docs(LogsCollection)), OwnLog(RequireUser(authorization, verify).value, logId));
      db.collections == old(db.collections)[LogsCollection := r.0] &&
      (r.1 == 0 ==> reply == Error(404, "Not found")) &&
      (r.1 == 1 ==> reply == Ok(true))
  {
    var user := RequireUser(authorization, verify);
    if user.None? {
      return Error(401, Unauthorized);
    }
    var deleted := db.DeleteOne(LogsCollection, OwnLog(user.value, logId));
    if deleted == 0 {
      return Error(404, "Not found");
    }
    reply := Ok(true);
  }

  /** A delete removes at most one log, and only one carrying that id and the caller's
      `userId`; every other log stays, in order. Without such a log nothing changes. */
  lemma DeleteOnlyOwn(docs: seq<Doc>, userId: string, logId: string)
    ensures var r := DeleteIn(docs, OwnLog(userId, logId));
      (r.1 == 0 <==> forall d :: d in docs ==> Get(d, "_id") != Str(logId) || Get(d, "userId") != Str(userId)) &&
      (r.1 == 1 ==>
        exists i :: 0 <= i < |docs| && Get(docs[i], "_id") == Str(logId) &&
          Get(docs[i], "userId") == Str(userId) && r.0 == docs[..i] + docs[i + 1..])
  {
    var q := OwnLog(userId, logId);
    assert "_id" in q && "userId" in q;
    forall d | d in docs
      ensures Matches(d, q) <==> Get(d, "_id") == Str(logId) && Get(d, "userId") == Str(userId)
    {
    }
    var r := DeleteIn(docs, q);
    if r.1 == 1 {
      var i := FirstMatch(docs, q).value;
      assert Matches(docs[i], q);
    }
  }
}
