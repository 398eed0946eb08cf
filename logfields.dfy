/** How the ledger (`credits.ts`) and the farmer report (`reports.ts`) read an activity-log
    document: its month bucket, its activity type and its normalized quantity. */
module LogFields {
  import opened Values

  /** The collection activity logs are kept in. */
  const LogsCollection: string := "activity_logs"

  /** The seven activity types that emit carbon. */
  const EmissionTypes: seq<string> :=
    ["plowing", "seeding", "harvesting", "fertilizer", "pesticide", "irrigation", "machinery"]

  /** The two activity types that store carbon. */
  const SequestrationTypes: seq<string> := ["tree_planting", "cover_cropping"]

  /** `String(l.date).slice(0, 7)`: the "YYYY-MM" bucket of a log. */
  function MonthKey(log: Doc): string {
    Prefix(TextOf(Get(log, "date")), 7)
  }

  /** The bucket is the first seven characters of the date's text, all of it when shorter:
      an ISO date "2024-03-15" falls in "2024-03". */
  lemma MonthKeyIsDatePrefix(log: Doc)
    ensures |MonthKey(log)| <= 7 && MonthKey(log) <= TextOf(Get(log, "date"))
    ensures Get(log, "date").Str? && |Get(log, "date").s| >= 7 ==>
      MonthKey(log) == Get(log, "date").s[..7]
  {
  }

  /** `String(l.type)`. */
  function TypeName(log: Doc): string {
    TextOf(Get(log, "type"))
  }

  /** `l.quantity ?? 1`, then `isNaN(Number(qty)) ? 1 : Number(qty)`: an absent, null or
      non-numeric quantity counts as 1, any other quantity as its numeric value. */
  function Quantity(log: Doc): (q: real)
    ensures Get(log, "quantity").Undefined? || Get(log, "quantity").Null? ==> q == 1.0
    ensures ToNumber(Get(log, "quantity")).None? ==> q == 1.0
    ensures !Get(log, "quantity").Null? && ToNumber(Get(log, "quantity")).Some? ==>
      q == ToNumber(Get(log, "quantity")).value
  {
    var qty := Get(log, "quantity");
    var given := if qty.Undefined? || qty.Null? then Num(1.0) else qty;
    match ToNumber(given)
    case None => 1.0
    case Some(x) => x
  }
}
