/** What every route shares: the reply it sends, and `requireUser`, which reads the bearer
    token of the `Authorization` header. JWT verification is a parameter: it maps a token to
    the `_id` it was signed for, or to `None` when `jwt.verify` throws. */
module Http {
  import opened Values

  /** A JSON reply: `Ok` is a 200 with a body, `Error` a status code with `{ error }`.
      `Crash` is a handler that throws outside any `try` before answering. */
  datatype Reply<T> = Ok(body: T) | Error(status: nat, message: string) | Crash(reason: string)

  const BearerPrefix: string := "Bearer "

  /** The token after `Bearer `; a header without that prefix, or with nothing after it,
      carries no token. */
  function BearerToken(authorization: string): (t: Option<string>)
    ensures t.Some? <==> |authorization| > 7 && authorization[..7] == BearerPrefix
    ensures t.Some? ==> authorization == BearerPrefix + t.value && t.value != ""
  {
    if |authorization| > 7 && authorization[..7] == BearerPrefix then
      assert authorization == authorization[..7] + authorization[7..];
      Some(authorization[7..])
    else None
  }

  /** `requireUser`: the verified user id, or `None` (the route then answers 401). */
  function RequireUser(authorization: string, verify: string -> Option<string>): (r: Option<string>)
    ensures BearerToken(authorization).None? ==> r.None?
    ensures r.Some? ==> verify(BearerToken(authorization).value) == r
  {
    match BearerToken(authorization)
    case None => None
    case Some(token) => verify(token)
  }

  const Unauthorized: string := "Unauthorized"

  /** `{ type: "Point", coordinates: [longitude, latitude] }`: the location the weather and
      satellite routes store with a record. */
  function Location(latitude: Value, longitude: Value): Value {
    Obj(map["type" := Str("Point"), "coordinates" := Arr([longitude, latitude])])
  }
}
