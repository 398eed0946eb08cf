/** The farmer's monthly emissions/savings report and the admin region report. The farmer
    report adds raw quantities (no coefficient) into per-month buckets; the region report
    counts users per rounded coordinate pair. */
module Reports {
  import opened Values
  import opened Db
  import opened Http
  import opened LogFields
  import opened Tally
  import opened Users

  // ---------------------------------------------------------------- farmer report

  /** One month's bucket `{ emissions, savings }`. */
  datatype Split = Split(emissions: real, savings: real)

  /** `[...].includes(String(l.type))` over the seven emitting activities. */
  predicate IsEmission(log: Doc) {
    TypeName(log) in EmissionTypes
  }

  /** `byMonth[k] ||= { emissions: 0, savings: 0 }`. */
  function Part(byMonth: map<string, Split>, k: string): Split {
    if k in byMonth then byMonth[k] else Split(0.0, 0.0)
  }

  /** A log's quantity added to the right side of a bucket. */
  function AddLog(v: Split, log: Doc): Split {
    if IsEmission(log) then v.(emissions := v.emissions + Quantity(log))
    else v.(savings := v.savings + Quantity(log))
  }

  /** `byMonth` after the loop over `logs`. */
  function ByMonthOf(logs: seq<Doc>): map<string, Split> {
    if logs == [] then map[]
    else
      var b := ByMonthOf(logs[..|logs| - 1]);
      var x := logs[|logs| - 1];
      b[MonthKey(x) := AddLog(Part(b, MonthKey(x)), x)]
  }

  /** The loop of `farmerReport`. */
  method FoldByMonth(logs: seq<Doc>) returns (byMonth: map<string, Split>)
    ensures byMonth == ByMonthOf(logs)
  {
    byMonth := map[];
    for i := 0 to |logs|
      invariant byMonth == ByMonthOf(logs[..i])
    {
      ByMonthStep(logs, i);
      var k := MonthKey(logs[i]);
      var v := Part(byMonth, k);
      var value := Quantity(logs[i]);
      if IsEmission(logs[i]) {
        v := v.(emissions := v.emissions + value);
      } else {
        v := v.(savings := v.savings + value);
      }
      assert v == AddLog(Part(byMonth, k), logs[i]);
      byMonth := byMonth[k := v];
    }
    assert logs[..|logs|] == logs;
  }

  /** One more log adds its quantity to one side of its month's bucket. */
  lemma ByMonthStep(logs: seq<Doc>, i: nat)
    requires i < |logs|
    ensures var k := MonthKey(logs[i]);
      ByMonthOf(logs[..i + 1]) == ByMonthOf(logs[..i])[k := AddLog(Part(ByMonthOf(logs[..i]), k), logs[i])]
  {
    assert logs[..i + 1][..i] == logs[..i];
  }

  /** A log as a (month, quantity) entry, and the emitting and storing parts of it. */
  function QuantityEntry(log: Doc): (string, real) {
    (MonthKey(log), Quantity(log))
  }

  function EmissionEntry(log: Doc): (string, real) {
    (MonthKey(log), if IsEmission(log) then Quantity(log) else 0.0)
  }

  function SavingsEntry(log: Doc): (string, real) {
    (MonthKey(log), if IsEmission(log) then 0.0 else Quantity(log))
  }

  function Map(logs: seq<Doc>, f: Doc -> (string, real)): (es: seq<(string, real)>)
    ensures |es| == |logs|
  {
    if logs == [] then [] else Map(logs[..|logs| - 1], f) + [f(logs[|logs| - 1])]
  }

  lemma {:induction false} MapAt(logs: seq<Doc>, f: Doc -> (string, real), i: nat)
    requires i < |logs|
    ensures Map(logs, f)[i] == f(logs[i])
  {
    if i < |logs| - 1 {
      MapAt(logs[..|logs| - 1], f, i);
    }
  }

  /** Each month's bucket holds the emitting logs' quantities under `emissions` and every
      other log's (unknown types included) under `savings`; a bucket exists exactly for the
      months some log is dated in. */
  lemma {:induction false} ByMonthBuckets(logs: seq<Doc>, k: string)
    ensures k in ByMonthOf(logs) <==> k in Accumulate(Map(logs, QuantityEntry))
    ensures Part(ByMonthOf(logs), k) ==
      Split(KeySum(Map(logs, EmissionEntry), k), KeySum(Map(logs, SavingsEntry), k))
  {
    if logs != [] {
      var init := logs[..|logs| - 1];
      ByMonthBuckets(init, k);
      AccumulateSnoc(Map(init, QuantityEntry), QuantityEntry(logs[|logs| - 1]));
    }
  }

  /** A bucket exists for exactly the months some log is dated in. */
  lemma ByMonthDomain(logs: seq<Doc>, k: string)
    ensures k in ByMonthOf(logs) <==> exists i :: 0 <= i < |logs| && MonthKey(logs[i]) == k
  {
    var es := Map(logs, QuantityEntry);
    ByMonthBuckets(logs, k);
    AccumulateDomain(es, k);
    if exists i :: 0 <= i < |logs| && MonthKey(logs[i]) == k {
      var i :| 0 <= i < |logs| && MonthKey(logs[i]) == k;
      MapAt(logs, QuantityEntry, i);
    }
    if k in Accumulate(es) {
      var i :| 0 <= i < |es| && es[i].0 == k;
      MapAt(logs, QuantityEntry, i);
    }
  }

  lemma {:induction false} SidesAddUp(logs: seq<Doc>, k: string)
    ensures KeySum(Map(logs, EmissionEntry), k) + KeySum(Map(logs, SavingsEntry), k)
      == KeySum(Map(logs, QuantityEntry), k)
  {
    if logs != [] {
      SidesAddUp(logs[..|logs| - 1], k);
    }
  }

  /** For each month, emissions plus savings is the sum of that month's quantities as
      reported (a missing or non-numeric quantity counting 1); no coefficient is applied. */
  lemma MonthQuantities(logs: seq<Doc>, k: string)
    ensures Part(ByMonthOf(logs), k).emissions + Part(ByMonthOf(logs), k).savings
      == KeySum(Map(logs, QuantityEntry), k)
  {
    ByMonthBuckets(logs, k);
    SidesAddUp(logs, k);
  }

  /** `farmerReport`: the caller's logs folded into `byMonth`. */
  method FarmerReport(db: MemoryDb, authorization: string, verify: string -> Option<string>)
    returns (reply: Reply<map<string, Split>>)
    modifies db
    ensures RequireUser(authorization, verify).None? ==>
      reply == Error(401, Unauthorized) && db.collections == old(db.collections)
    ensures RequireUser(authorization, verify).Some? ==>
      var id := RequireUser(authorization, verify).value;
      reply == Ok(ByMonthOf(FilterMatching(old(db.Docs(LogsCollection)), ByUser(id)))) &&
      db.collections == old(db.collections)[LogsCollection := old(db.Docs(LogsCollection))]
  {
    var user := RequireUser(authorization, verify);
    if user.None? {
      return Error(401, Unauthorized);
    }
    var logs := db.Find(LogsCollection, ByUser(user.value));
    var byMonth := FoldByMonth(logs);
    reply := Ok(byMonth);
  }

  // ---------------------------------------------------------------- region report

  /** A region: latitude and longitude rounded to tenths, as integers of tenths; `None` is NaN. */
  type Region = (Option<int>, Option<int>)

  /** `parseFloat(v || 0)`: a falsy coordinate is 0; a number is itself; anything else is
      parsed from its text (`parseFloat` on text is a parameter, `None` for NaN). */
  function Coordinate(v: Value, parseFloat: string -> Option<real>): Option<real> {
    if !Truthy(v) then Some(0.0)
    else if v.Num? then Some(v.x)
    else parseFloat(TextOf(v))
  }

  /** `Math.round(c * 10)`, NaN staying NaN. */
  function Tenths(c: Option<real>): Option<int> {
    match c
    case None => None
    case Some(x) => Some(Round(x * 10.0))
  }

  /** The region key of a user. */
  function RegionOf(u: Doc, parseFloat: string -> Option<real>): Region {
    (Tenths(Coordinate(Get(u, "lat"), parseFloat)), Tenths(Coordinate(Get(u, "lng"), parseFloat)))
  }

  /** Each user as one count for its region. */
  function RegionEntries(users: seq<Doc>, parseFloat: string -> Option<real>): (es: seq<(Region, real)>)
    ensures |es| == |users|
  {
    if users == [] then []
    else RegionEntries(users[..|users| - 1], parseFloat) + [(RegionOf(users[|users| - 1], parseFloat), 1.0)]
  }

  /** The loop of `adminRegionReport`. */
  method CountRegions(users: seq<Doc>, parseFloat: string -> Option<real>) returns (regions: map<Region, real>)
    ensures regions == Accumulate(RegionEntries(users, parseFloat))
  {
    regions := map[];
    for i := 0 to |users|
      invariant regions == Accumulate(RegionEntries(users[..i], parseFloat))
    {
      assert users[..i + 1][..i] == users[..i];
      var key := RegionOf(users[i], parseFloat);
      AccumulateSnoc(RegionEntries(users[..i], parseFloat), (key, 1.0));
      regions := regions[key := Bucket(regions, key) + 1.0];
    }
    assert users[..|users|] == users;
  }

  lemma {:induction false} RegionEntriesTotal(users: seq<Doc>, parseFloat: string -> Option<real>)
    ensures Total(RegionEntries(users, parseFloat)) == |users| as real
  {
    if users != [] {
      RegionEntriesTotal(users[..|users| - 1], parseFloat);
    }
  }

  /** Every user is counted in exactly one region: the counts add up to the number of users. */
  lemma RegionCountsSumToUsers(users: seq<Doc>, parseFloat: string -> Option<real>)
    ensures var es := RegionEntries(users, parseFloat);
      (forall r :: r in Keys(es) <==> r in Accumulate(es)) &&
      SumValues(Accumulate(es), Keys(es)) == |users| as real
  {
    var es := RegionEntries(users, parseFloat);
    forall r {
      AccumulateDomain(es, r);
    }
    BucketsSumToTotal(es);
    RegionEntriesTotal(users, parseFloat);
  }

  /** `adminRegionReport`: every user counted under its region. */
  method AdminRegionReport(db: MemoryDb, parseFloat: string -> Option<real>)
    returns (regions: map<Region, real>)
    modifies db
    ensures regions == Accumulate(RegionEntries(old(db.Docs(UsersCollection)), parseFloat))
    ensures db.collections == old(db.collections)[UsersCollection := old(db.Docs(UsersCollection))]
  {
    var users := db.Find(UsersCollection, map[]);
    FilterMatchingAll(old(db.Docs(UsersCollection)));
    regions := CountRegions(users, parseFloat);
  }
}
