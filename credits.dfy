/** The carbon ledger (`getCredits`) and the payout workflow (`requestPayout`). Activity
    logs are folded into per-month sums and a total of signed tCO2e contributions; payouts
    are scored by the anomaly scorer and recorded with a status. */
module Ledger {
  import opened Values
  import opened Db
  import opened Http
  import opened LogFields
  import opened Anomaly
  import opened Tally

  /** The collection payout requests are kept in. */
  const PayoutsCollection: string := "payouts"

  // ---------------------------------------------------------------- coefficients

  /** `coeffFor`: tCO2e per unit of an activity type. */
  function CoeffFor(t: string): real {
    if t == "plowing" then -0.01
    else if t == "seeding" then -0.002
    else if t == "harvesting" then -0.005
    else if t == "fertilizer" then -0.001
    else if t == "pesticide" then -0.0005
    else if t == "irrigation" then -0.0008
    else if t == "machinery" then -0.02
    else if t == "tree_planting" then 0.1
    else if t == "cover_cropping" then 0.02
    else 0.0
  }

  /** The coefficient is negative for the seven emitting activities, positive for the two
      storing ones and 0 for any other type. */
  lemma CoeffSigns(t: string)
    ensures t in EmissionTypes ==> CoeffFor(t) < 0.0
    ensures t in SequestrationTypes ==> CoeffFor(t) > 0.0
    ensures t !in EmissionTypes && t !in SequestrationTypes ==> CoeffFor(t) == 0.0
  {
  }

  /** One log's signed contribution `c`. */
  function Contribution(log: Doc): real {
    CoeffFor(TypeName(log)) * Quantity(log)
  }

  /** A log with an absent, null or non-numeric quantity contributes its coefficient once. */
  lemma DefaultQuantityContribution(log: Doc)
    requires ToNumber(Get(log, "quantity")).None? || Get(log, "quantity").Null?
    ensures Contribution(log) == CoeffFor(TypeName(log))
  {
  }

  // ---------------------------------------------------------------- the fold

  /** A log as a ledger entry: its month bucket and its contribution. */
  function Entry(log: Doc): (string, real) {
    (MonthKey(log), Contribution(log))
  }

  /** `logs` as ledger entries, in order. */
  function Entries(logs: seq<Doc>): (es: seq<(string, real)>)
    ensures |es| == |logs|
  {
    if logs == [] then [] else Entries(logs[..|logs| - 1]) + [Entry(logs[|logs| - 1])]
  }

  lemma {:induction false} EntriesAt(logs: seq<Doc>, i: nat)
    requires i < |logs|
    ensures Entries(logs)[i] == Entry(logs[i])
  {
    if i < |logs| - 1 {
      EntriesAt(logs[..|logs| - 1], i);
    }
  }

  /** `monthly` after the loop over `logs`. */
  function MonthlyOf(logs: seq<Doc>): map<string, real> {
    Accumulate(Entries(logs))
  }

  /** `total` after the loop over `logs`. */
  function TotalOf(logs: seq<Doc>): real {
    Total(Entries(logs))
  }

  /** The `for (const l of logs)` loop of `getCredits`. */
  method FoldLogs(logs: seq<Doc>) returns (monthly: map<string, real>, total: real)
    ensures monthly == MonthlyOf(logs) && total == TotalOf(logs)
  {
    ghost var es := Entries(logs);
    monthly, total := map[], 0.0;
    for i := 0 to |logs|
      invariant monthly == Accumulate(es[..i])
      invariant total == Total(es[..i])
    {
      var e := Entry(logs[i]);
      EntriesAt(logs, i);
      FoldStep(es, i, monthly, total, e);
      monthly := monthly[e.0 := Bucket(monthly, e.0) + e.1];
      total := total + e.1;
    }
    assert es[..|logs|] == es;
  }

  /** One more entry adds its amount to its month's bucket and to the total. */
  lemma FoldStep(es: seq<(string, real)>, i: nat, monthly: map<string, real>, total: real, e: (string, real))
    requires i < |es| && e == es[i]
    requires monthly == Accumulate(es[..i]) && total == Total(es[..i])
    ensures monthly[e.0 := Bucket(monthly, e.0) + e.1] == Accumulate(es[..i + 1])
    ensures total + e.1 == Total(es[..i + 1])
  {
    assert es[..i + 1] == es[..i] + [es[i]];
    AccumulateSnoc(es[..i], es[i]);
  }

  /** A month has a bucket exactly when some log is dated in it, and the bucket holds the
      sum of the contributions of that month's logs (an absent bucket reads as 0). */
  lemma MonthlyBuckets(logs: seq<Doc>, k: string)
    ensures k in MonthlyOf(logs) <==> exists i :: 0 <= i < |logs| && MonthKey(logs[i]) == k
    ensures Bucket(MonthlyOf(logs), k) == KeySum(Entries(logs), k)
  {
    var es := Entries(logs);
    AccumulateDomain(es, k);
    AccumulateValue(es, k);
    if exists i :: 0 <= i < |logs| && MonthKey(logs[i]) == k {
      var i :| 0 <= i < |logs| && MonthKey(logs[i]) == k;
      EntriesAt(logs, i);
    }
    if k in MonthlyOf(logs) {
      var i :| 0 <= i < |es| && es[i].0 == k;
      EntriesAt(logs, i);
    }
  }

  /** Each log lands in exactly one monthly bucket, so the buckets, each counted once, add up
      to the total. */
  lemma MonthlySumsToTotal(logs: seq<Doc>)
    ensures forall k :: k in Keys(Entries(logs)) <==> k in MonthlyOf(logs)
    ensures SumValues(MonthlyOf(logs), Keys(Entries(logs))) == TotalOf(logs)
  {
    forall k {
      AccumulateDomain(Entries(logs), k);
    }
    BucketsSumToTotal(Entries(logs));
  }

  // ---------------------------------------------------------------- payouts

  /** `p.amount || 0`: stored amounts are numbers; anything else counts 0. */
  function AmountOf(payout: Doc): real {
    if Get(payout, "amount").Num? then Get(payout, "amount").x else 0.0
  }

  /** `paid`: every payout's amount, whatever its status. */
  function Paid(payouts: seq<Doc>): real {
    if payouts == [] then 0.0
    else Paid(payouts[..|payouts| - 1]) + AmountOf(payouts[|payouts| - 1])
  }

  lemma {:induction false} PaidSplits(a: seq<Doc>, b: seq<Doc>)
    ensures Paid(a + b) == Paid(a) + Paid(b)
  {
    if b != [] {
      assert (a + b)[..|a + b| - 1] == a + b[..|b| - 1];
      PaidSplits(a, b[..|b| - 1]);
    } else {
      assert a + b == a;
    }
  }

  /** The body of a `getCredits` answer. */
  datatype Credits =
    Credits(balance: real, total: real, paid: real, monthly: map<string, real>, payouts: seq<Doc>)

  /** `getCredits`: the caller's ledger from their logs and payouts; `balance = total - paid`. */
  method GetCredits(db: MemoryDb, authorization: string, verify: string -> Option<string>)
    returns (reply: Reply<Credits>)
    modifies db
    ensures RequireUser(authorization, verify).None? ==>
      reply == Error(401, Unauthorized) && db.collections == old(db.collections)
    ensures RequireUser(authorization, verify).Some? ==>
      var id := RequireUser(authorization, verify).value;
      var logs := FilterMatching(old(db.Docs(LogsCollection)), ByUser(id));
      var payouts := FilterMatching(old(db.Docs(PayoutsCollection)), ByUser(id));
      reply == Ok(Credits(TotalOf(logs) - Paid(payouts), TotalOf(logs), Paid(payouts),
                          MonthlyOf(logs), payouts)) &&
      db.collections == old(db.collections)[LogsCollection := old(db.Docs(LogsCollection))]
                                           [PayoutsCollection := old(db.Docs(PayoutsCollection))]
  {
    var user := RequireUser(authorization, verify);
    if user.None? {
      return Error(401, Unauthorized);
    }
    ghost var before := db.collections;
    ghost var oldLogs, oldPayouts := db.Docs(LogsCollection), db.Docs(PayoutsCollection);
    var logs := db.Find(LogsCollection, ByUser(user.value));
    assert db.collections == before[LogsCollection := oldLogs];
    assert logs == FilterMatching(oldLogs, ByUser(user.value));
    assert db.Docs(PayoutsCollection) == oldPayouts;
    var monthly, total := FoldLogs(logs);
    var payouts := db.Find(PayoutsCollection, ByUser(user.value));
    assert payouts == FilterMatching(oldPayouts, ByUser(user.value));
    var paid := Paid(payouts);
    reply := Ok(Credits(total - paid, total, paid, monthly, payouts));
  }

  datatype PayoutStatus = Requested | PendingReview | FlaggedHighRisk

  function StatusName(s: PayoutStatus): string {
    match s
    case Requested => "requested"
    case PendingReview => "pending_review"
    case FlaggedHighRisk => "flagged_high_risk"
  }

  /** The status rule: above 0.7 is high risk, above 0.4 needs review, else requested. */
  function StatusFor(riskScore: real): (s: PayoutStatus)
    ensures s == FlaggedHighRisk <==> riskScore > 0.7
    ensures s == PendingReview <==> 0.4 < riskScore <= 0.7
    ensures s == Requested <==> riskScore <= 0.4
  {
    if riskScore > 0.7 then FlaggedHighRisk
    else if riskScore > 0.4 then PendingReview
    else Requested
  }

  /** A payout is flagged exactly when its status is not `requested`. */
  predicate Flagged(s: PayoutStatus) {
    s != Requested
  }

  /** A payout is classified high risk only when the scorer saw all four signals: more than 50
      logs, fewer than 3 activity types, a temporal spike and a volume spike. */
  lemma HighRiskNeedsAllSignals(logs: seq<Doc>, now: int, parseDate: string -> Option<int>)
    ensures StatusFor(ReportOf(logs, "30d", now, parseDate).riskScore) == FlaggedHighRisk <==>
      |logs| > 50 && |AnalyzeActivityPatterns(logs).types| < 3 &&
      DetectTemporalAnomalies(logs, "30d", now, parseDate) == [TemporalSpike] &&
      DetectVolumeAnomalies(logs) == [VolumeSpike]
  {
    RiskScoreRange(logs, "30d", now, parseDate);
  }

  function SeverityName(s: Severity): string {
    match s
    case Low => "low"
    case Medium => "medium"
    case High => "high"
  }

  function AnomalyValue(a: ReportedAnomaly): Value {
    Obj(map["type" := Str(a.kind), "severity" := Str(SeverityName(a.severity)),
            "description" := Str(a.description)])
  }

  /** The payout document written: the scored record when the scorer answered (`Some`), the
      manual-review record when it failed (`None`). */
  function PayoutRecord(id: string, amount: real, scored: Option<AnomalyReport>, now: int): Doc {
    match scored
    case Some(r) =>
      var status := StatusFor(r.riskScore);
      map["userId" := Str(id), "amount" := Num(amount), "status" := Str(StatusName(status)),
          "flagged" := Bool(Flagged(status)), "riskScore" := Num(r.riskScore),
          "anomalies" := Arr(seq(|r.anomalies|, i requires 0 <= i < |r.anomalies| => AnomalyValue(r.anomalies[i]))),
          "mlRecommendations" := Texts(r.recommendations),
          "createdAt" := Time(now)]
    case None =>
      map["userId" := Str(id), "amount" := Num(amount), "status" := Str("pending_review"),
          "flagged" := Bool(true),
          "notes" := Str("ML anomaly detection unavailable - manual review required"),
          "createdAt" := Time(now)]
  }

  /** The body of a `requestPayout` answer (`ok` is always true). */
  datatype PayoutAnswer = PayoutAnswer(status: string, flagged: bool, message: string)

  /** The answer: flagged exactly when the status is not `requested`; a failed scorer always
      gives `pending_review`, flagged. */
  function AnswerFor(scored: Option<AnomalyReport>): (a: PayoutAnswer)
    ensures a.flagged <==> a.status != "requested"
    ensures scored.None? ==> a.status == "pending_review" && a.flagged
    ensures scored.Some? ==> a.status == StatusName(StatusFor(scored.value.riskScore))
  {
    match scored
    case Some(r) =>
      var status := StatusFor(r.riskScore);
      PayoutAnswer(StatusName(status), Flagged(status),
        if Flagged(status) then "Request submitted for review due to unusual activity patterns"
        else "Payout requested successfully")
    case None => PayoutAnswer("pending_review", true, "Request submitted for manual review")
  }

  /** The recorded payout belongs to the caller, carries the requested amount, and has the
      status and `flagged` the answer reports. */
  lemma PayoutRecordAgrees(id: string, amount: real, scored: Option<AnomalyReport>, now: int)
    ensures var rec := PayoutRecord(id, amount, scored, now);
      Get(rec, "userId") == Str(id) && AmountOf(rec) == amount &&
      Get(rec, "status") == Str(AnswerFor(scored).status) &&
      Get(rec, "flagged") == Bool(AnswerFor(scored).flagged)
  {
    var rec := PayoutRecord(id, amount, scored, now);
    match scored
    case Some(r) =>
      var status := StatusFor(r.riskScore);
      assert rec["userId"] == Str(id) && rec["amount"] == Num(amount);
      assert rec["status"] == Str(StatusName(status)) && rec["flagged"] == Bool(Flagged(status));
    case None =>
      assert rec["userId"] == Str(id) && rec["amount"] == Num(amount);
      assert rec["status"] == Str("pending_review") && rec["flagged"] == Bool(true);
  }

  /** `Number(amount)` is a positive number (NaN and 0 are falsy, negatives are refused). */
  predicate ValidAmount(amount: Value) {
    ToNumber(amount).Some? && ToNumber(amount).value > 0.0
  }

  /** `requestPayout`. The scorer is the anomaly-check route reached over HTTP: `scorerUp`
      says whether that call succeeds, and when it does its report is `detectAnomalies` on the
      caller's logs with a 30-day window. The amount is never compared with the balance. */
  method RequestPayout(db: MemoryDb, authorization: string, verify: string -> Option<string>,
                       body: Doc, scorerUp: bool, now: int, parseDate: string -> Option<int>,
                       generated: string)
    returns (reply: Reply<PayoutAnswer>)
    modifies db
    ensures RequireUser(authorization, verify).None? ==>
      reply == Error(401, Unauthorized) && db.collections == old(db.collections)
    ensures RequireUser(authorization, verify).Some? && !ValidAmount(Get(body, "amount")) ==>
      reply == Error(400, "Invalid amount") && db.collections == old(db.collections)
    ensures RequireUser(authorization, verify).Some? && ValidAmount(Get(body, "amount")) ==>
      var id := RequireUser(authorization, verify).value;
      var logs := FilterMatching(old(db.Docs(LogsCollection)), ByUser(id));
      var scored := if scorerUp then Some(ReportOf(logs, "30d", now, parseDate)) else None;
      var rec := PayoutRecord(id, ToNumber(Get(body, "amount")).value, scored, now);
      reply == Ok(AnswerFor(scored)) &&
      db.collections == old(db.collections)[LogsCollection := old(db.Docs(LogsCollection))]
                          [PayoutsCollection := InsertIn(old(db.Docs(PayoutsCollection)), rec, generated)]
  {
    var user := RequireUser(authorization, verify);
    if user.None? {
      return Error(401, Unauthorized);
    }
    var a := ToNumber(Get(body, "amount"));
    if a.None? || a.value == 0.0 || a.value <= 0.0 {
      return Error(400, "Invalid amount");
    }
    assert LogsCollection != PayoutsCollection;
    var logs := db.Find(LogsCollection, ByUser(user.value));
    assert db.Docs(PayoutsCollection) == old(db.Docs(PayoutsCollection));
    var scored: Option<AnomalyReport> := None;
    if scorerUp {
      var report := DetectAnomalies(CheckRequest(user.value, logs, "30d"), now, parseDate);
      scored := Some(report);
    }
    var _ := db.InsertOne(PayoutsCollection, PayoutRecord(user.value, a.value, scored, now), generated);
    reply := Ok(AnswerFor(scored));
  }

  /** An accepted payout request raises the caller's `paid` by exactly the amount, so it
      lowers the balance `getCredits` reports by that amount. */
  lemma PayoutRaisesPaid(payouts: seq<Doc>, id: string, amount: real,
                         scored: Option<AnomalyReport>, now: int, generated: string)
    ensures Paid(FilterMatching(InsertIn(payouts, PayoutRecord(id, amount, scored, now), generated), ByUser(id)))
      == Paid(FilterMatching(payouts, ByUser(id))) + amount
  {
    var rec := PayoutRecord(id, amount, scored, now);
    PayoutRecordAgrees(id, amount, scored, now);
    var stored := rec["_id" := IdFor(rec, generated)];
    assert Get(stored, "userId") == Str(id) && AmountOf(stored) == amount;
    EqualityQuery(stored, "userId", id);
    var mine := FilterMatching(payouts, ByUser(id));
    FilterMatchingAppend(payouts, [stored], ByUser(id));
    assert FilterMatching([stored], ByUser(id)) == [stored] by {
      assert [stored][1..] == [];
    }
    PaidSplits(mine, [stored]);
    assert Paid([stored]) == AmountOf(stored) by {
      assert [stored][..0] == [];
    }
  }
}
