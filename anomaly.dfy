/** The rule-based fraud scorer behind `/api/ml/anomaly-check` and the deterministic helper
    rules of the estimation endpoints. Logs are the documents the payout workflow sends:
    their `type`, `date` (or `createdAt`) and `quantity` properties are read. The current
    instant and date-string parsing are parameters. */
module Anomaly {
  import opened Values
  import opened Http

  // ---------------------------------------------------------------- pattern analysis

  /** The part of `analyzeActivityPatterns` the score reads. */
  datatype Patterns = Patterns(frequency: nat, types: seq<Value>)

  /** `[...new Set(xs)]`, in order of first occurrence. A set merges values that are the
      same by SameValueZero, which for these values is `===`: a primitive is kept once, while
      every object, array and date in a request body is an instance of its own and is kept. */
  function Distinct(xs: seq<Value>): (r: seq<Value>)
    ensures forall v :: v in r <==> v in xs
    ensures forall i, j :: 0 <= i < j < |r| ==> !StrictEq(r[i], r[j])
    ensures forall v :: !IsPrimitive(v) ==> multiset(r)[v] == multiset(xs)[v]
    ensures |r| <= |xs|
  {
    if xs == [] then []
    else
      var r := Distinct(xs[..|xs| - 1]);
      var x := xs[|xs| - 1];
      assert xs == xs[..|xs| - 1] + [x];
      if IsPrimitive(x) && x in r then r else r + [x]
  }

  /** Objects are never merged: a list without primitives comes back whole. */
  lemma {:induction false} InstancesAllKept(xs: seq<Value>)
    requires forall i :: 0 <= i < |xs| ==> !IsPrimitive(xs[i])
    ensures Distinct(xs) == xs
  {
    if xs != [] {
      InstancesAllKept(xs[..|xs| - 1]);
      assert xs == xs[..|xs| - 1] + [xs[|xs| - 1]];
    }
  }

  /** `logs.map(l => l.type)`. */
  function TypesOf(logs: seq<Doc>): (ts: seq<Value>)
    ensures |ts| == |logs| && forall i :: 0 <= i < |logs| ==> ts[i] == Get(logs[i], "type")
  {
    seq(|logs|, i requires 0 <= i < |logs| => Get(logs[i], "type"))
  }

  /** `frequency` is the number of logs and `types` lists each distinct `type` once. */
  function AnalyzeActivityPatterns(logs: seq<Doc>): (p: Patterns)
    ensures p.frequency == |logs|
    ensures forall t :: t in p.types <==> exists i :: 0 <= i < |logs| && Get(logs[i], "type") == t
    ensures forall i, j :: 0 <= i < j < |p.types| ==> !StrictEq(p.types[i], p.types[j])
  {
    var ts := TypesOf(logs);
    assert forall i :: 0 <= i < |logs| ==> ts[i] == Get(logs[i], "type");
    Patterns(|logs|, Distinct(ts))
  }

  /** Logs whose types are all objects or arrays count one type each, however alike those
      objects look: `[{type: {}}, {type: {}}, {type: {}}]` has three types. */
  lemma ObjectTypesAllCounted(logs: seq<Doc>)
    requires forall i :: 0 <= i < |logs| ==> !IsPrimitive(Get(logs[i], "type"))
    ensures AnalyzeActivityPatterns(logs).types == TypesOf(logs)
    ensures |AnalyzeActivityPatterns(logs).types| == |logs|
  {
    InstancesAllKept(TypesOf(logs));
  }

  // ---------------------------------------------------------------- detectors

  /** An anomaly as a detector reports it. */
  datatype Detected = Detected(kind: string, score: real, description: string)

  const TemporalSpike: Detected :=
    Detected("temporal_spike", 0.7, "Unusual concentration of recent activities")
  const VolumeSpike: Detected :=
    Detected("volume_spike", 0.6, "Unusually large quantity reported in single entry")

  const DayMs: int := 24 * 60 * 60 * 1000

  /** The largest distance from the epoch a `Date` can hold, 8.64e15 ms (TimeClip). */
  const MaxTimeMs: int := 8640000000000000

  /** `new Date(v)` as an instant in milliseconds; `None` is an invalid date. A number is
      clipped to the date range and truncated toward zero, and an array or a plain object is
      read through its text, as its primitive value is that text. */
  function InstantOf(v: Value, parseDate: string -> Option<int>): (r: Option<int>)
    ensures v.Num? ==> (r.Some? <==> -(MaxTimeMs as real) <= v.x <= MaxTimeMs as real)
    ensures v.Num? && r.Some? ==> -MaxTimeMs <= r.value <= MaxTimeMs && Abs(r.value as real - v.x) < 1.0
    ensures v.Arr? || v.Obj? ==> r == parseDate(TextOf(v))
    ensures v.Str? ==> r == parseDate(v.s)
  {
    match v
    case Str(s) => parseDate(s)
    case Time(ms) => Some(ms)
    case Num(x) =>
      if x < -(MaxTimeMs as real) || x > MaxTimeMs as real then None
      else Some(if x >= 0.0 then x.Floor else -((-x).Floor))
    case Null => Some(0)
    case Bool(b) => Some(if b then 1 else 0)
    case Undefined => None
    case Arr(_) => parseDate(TextOf(v))
    case Obj(_) => parseDate(TextOf(v))
  }

  /** A log dated by a one-element array of text, as `addLog` lets through, is dated by that
      text. */
  lemma ArrayDateReadAsText(l: Doc, s: string, parseDate: string -> Option<int>)
    requires Get(l, "date") == Arr([Str(s)])
    ensures LogInstant(l, parseDate) == parseDate(s)
  {
    var items := [Str(s)];
    var parts := seq(|items|, i requires 0 <= i < |items| =>
      if items[i].Null? || items[i].Undefined? then "" else TextOf(items[i]));
    assert parts == [s];
    assert TextOf(Arr(items)) == JoinComma(parts) == s;
  }

  /** `new Date(l.date || l.createdAt)`. */
  function LogInstant(l: Doc, parseDate: string -> Option<int>): Option<int> {
    InstantOf(if Truthy(Get(l, "date")) then Get(l, "date") else Get(l, "createdAt"), parseDate)
  }

  /** Dated strictly after the cutoff, 30 days before `now`. */
  predicate IsRecent(l: Doc, now: int, parseDate: string -> Option<int>) {
    var t := LogInstant(l, parseDate);
    t.Some? && t.value > now - 30 * DayMs
  }

  /** `recentLogs.length`. */
  function RecentCount(logs: seq<Doc>, now: int, parseDate: string -> Option<int>): (n: nat)
    ensures n <= |logs|
  {
    if logs == [] then 0
    else
      var last := if IsRecent(logs[|logs| - 1], now, parseDate) then 1 else 0;
      RecentCount(logs[..|logs| - 1], now, parseDate) + last
  }

  /** `detectTemporalAnomalies`: a spike when strictly more than four in five logs are
      recent. The `timeWindow` argument is not consulted, and no logs means no spike. */
  function DetectTemporalAnomalies(logs: seq<Doc>, timeWindow: string, now: int,
                                   parseDate: string -> Option<int>): (r: seq<Detected>)
    ensures r == [] || r == [TemporalSpike]
    ensures r == [TemporalSpike] <==> 5 * RecentCount(logs, now, parseDate) > 4 * |logs|
    ensures logs == [] ==> r == []
  {
    if RecentCount(logs, now, parseDate) as real > |logs| as real * 0.8 then [TemporalSpike] else []
  }

  /** `Number(l.quantity) || 1`: zero and NaN both count as 1, any other number is itself. */
  function VolumeQuantity(l: Doc): (q: real)
    ensures q != 0.0
    ensures ToNumber(Get(l, "quantity")).None? ==> q == 1.0
    ensures ToNumber(Get(l, "quantity")) == Some(0.0) ==> q == 1.0
    ensures ToNumber(Get(l, "quantity")).Some? && ToNumber(Get(l, "quantity")).value != 0.0 ==>
      q == ToNumber(Get(l, "quantity")).value
  {
    match ToNumber(Get(l, "quantity"))
    case Some(x) => if x != 0.0 then x else 1.0
    case None => 1.0
  }

  function QuantitySum(logs: seq<Doc>): real {
    if logs == [] then 0.0
    else QuantitySum(logs[..|logs| - 1]) + VolumeQuantity(logs[|logs| - 1])
  }

  /** `Math.max(...quantities)` of a non-empty list. */
  function QuantityMax(logs: seq<Doc>): (m: real)
    requires logs != []
    ensures forall i :: 0 <= i < |logs| ==> VolumeQuantity(logs[i]) <= m
    ensures exists i :: 0 <= i < |logs| && VolumeQuantity(logs[i]) == m
  {
    if |logs| == 1 then VolumeQuantity(logs[0])
    else
      var m := QuantityMax(logs[..|logs| - 1]);
      var last := VolumeQuantity(logs[|logs| - 1]);
      assert forall i :: 0 <= i < |logs| - 1 ==> logs[..|logs| - 1][i] == logs[i];
      if last > m then last else m
  }

  /** `detectVolumeAnomalies`: a spike when the largest quantity exceeds five times the
      average. With no logs the average is NaN and no spike is reported. */
  function DetectVolumeAnomalies(logs: seq<Doc>): (r: seq<Detected>)
    ensures r == [] || r == [VolumeSpike]
    ensures logs == [] ==> r == []
  {
    if logs == [] then []
    else if QuantityMax(logs) > QuantitySum(logs) / |logs| as real * 5.0 then [VolumeSpike]
    else []
  }

  /** A volume spike is reported exactly when some single entry exceeds five times the
      average quantity. */
  lemma VolumeSpikeWitness(logs: seq<Doc>)
    ensures DetectVolumeAnomalies(logs) == [VolumeSpike] <==>
      exists i :: 0 <= i < |logs| &&
        VolumeQuantity(logs[i]) > QuantitySum(logs) / |logs| as real * 5.0
  {
    if logs != [] {
      var m := QuantityMax(logs);
      var bound := QuantitySum(logs) / |logs| as real * 5.0;
      if m > bound {
        var i :| 0 <= i < |logs| && VolumeQuantity(logs[i]) == m;
        assert VolumeQuantity(logs[i]) > bound;
      }
    }
  }

  // ---------------------------------------------------------------- risk score

  /** The sum of the detectors' scores. */
  function ScoreTotal(xs: seq<Detected>): real {
    if xs == [] then 0.0 else ScoreTotal(xs[..|xs| - 1]) + xs[|xs| - 1].score
  }

  lemma {:induction false} ScoreTotalNonNegative(xs: seq<Detected>)
    requires forall a :: a in xs ==> a.score >= 0.0
    ensures ScoreTotal(xs) >= 0.0
  {
    if xs != [] {
      assert forall a :: a in xs[..|xs| - 1] ==> a in xs;
      ScoreTotalNonNegative(xs[..|xs| - 1]);
      assert xs[|xs| - 1] in xs;
    }
  }

  /** The uncapped risk: +0.2 for more than 50 logs, +0.1 for fewer than 3 distinct types,
      0.3 of each temporal anomaly's score and 0.4 of each volume anomaly's score. */
  function RiskSum(p: Patterns, temporal: seq<Detected>, volume: seq<Detected>): real {
    (if p.frequency > 50 then 0.2 else 0.0) + (if |p.types| < 3 then 0.1 else 0.0)
      + 0.3 * ScoreTotal(temporal) + 0.4 * ScoreTotal(volume)
  }

  /** `calculateRiskScore`: the risk accumulated term by term, capped at 1. */
  method CalculateRiskScore(p: Patterns, temporal: seq<Detected>, volume: seq<Detected>)
    returns (risk: real)
    ensures risk == Min(1.0, RiskSum(p, temporal, volume))
    ensures risk <= 1.0
    ensures (forall a :: a in temporal + volume ==> a.score >= 0.0) ==> risk >= 0.0
  {
    risk := 0.0;
    if p.frequency > 50 { risk := risk + 0.2; }
    if |p.types| < 3 { risk := risk + 0.1; }
    ghost var base := risk;
    for i := 0 to |temporal|
      invariant risk == base + 0.3 * ScoreTotal(temporal[..i])
    {
      assert temporal[..i + 1][..i] == temporal[..i];
      risk := risk + temporal[i].score * 0.3;
    }
    assert temporal[..|temporal|] == temporal;
    ghost var mid := risk;
    for i := 0 to |volume|
      invariant risk == mid + 0.4 * ScoreTotal(volume[..i])
    {
      assert volume[..i + 1][..i] == volume[..i];
      risk := risk + volume[i].score * 0.4;
    }
    assert volume[..|volume|] == volume;
    if forall a :: a in temporal + volume ==> a.score >= 0.0 {
      assert forall a :: a in temporal ==> a in temporal + volume;
      assert forall a :: a in volume ==> a in temporal + volume;
      ScoreTotalNonNegative(temporal);
      ScoreTotalNonNegative(volume);
    }
    risk := Min(1.0, risk);
  }

  /** The score `detectAnomalies` computes for a list of logs. */
  function RiskScoreOf(logs: seq<Doc>, timeWindow: string, now: int,
                       parseDate: string -> Option<int>): real {
    Min(1.0, RiskSum(AnalyzeActivityPatterns(logs),
                     DetectTemporalAnomalies(logs, timeWindow, now, parseDate),
                     DetectVolumeAnomalies(logs)))
  }

  /** The four contributions add up to at most 0.75, so the cap of 1 never applies, and a
      score above 0.7 needs all four: more than 50 logs, fewer than 3 types, a temporal
      spike and a volume spike. */
  lemma RiskScoreRange(logs: seq<Doc>, timeWindow: string, now: int,
                       parseDate: string -> Option<int>)
    ensures 0.0 <= RiskScoreOf(logs, timeWindow, now, parseDate) <= 0.75
    ensures RiskScoreOf(logs, timeWindow, now, parseDate) > 0.7 <==>
      |logs| > 50 && |AnalyzeActivityPatterns(logs).types| < 3 &&
      DetectTemporalAnomalies(logs, timeWindow, now, parseDate) == [TemporalSpike] &&
      DetectVolumeAnomalies(logs) == [VolumeSpike]
  {
    var t := DetectTemporalAnomalies(logs, timeWindow, now, parseDate);
    var v := DetectVolumeAnomalies(logs);
    assert ScoreTotal([TemporalSpike]) == 0.7 by {
      assert [TemporalSpike][..0] == [];
    }
    assert ScoreTotal([VolumeSpike]) == 0.6 by {
      assert [VolumeSpike][..0] == [];
    }
  }

  // ---------------------------------------------------------------- report

  datatype Severity = Low | Medium | High

  /** The severity bucket of an anomaly score. */
  function SeverityOf(score: real): (s: Severity)
    ensures s == High <==> score > 0.8
    ensures s == Medium <==> 0.5 < score <= 0.8
    ensures s == Low <==> score <= 0.5
  {
    if score > 0.8 then High else if score > 0.5 then Medium else Low
  }

  datatype ReportedAnomaly = ReportedAnomaly(kind: string, severity: Severity, description: string)

  /** `{ type, severity, description }` of a detected anomaly. */
  function Reported(d: Detected): ReportedAnomaly {
    ReportedAnomaly(d.kind, SeverityOf(d.score), d.description)
  }

  /** The reported anomalies: the temporal ones, then the volume ones, each with the
      severity of its score. */
  function AnomaliesOf(logs: seq<Doc>, timeWindow: string, now: int,
                       parseDate: string -> Option<int>): (r: seq<ReportedAnomaly>)
    ensures |r| <= 2
    ensures forall a :: a in r ==> a.severity == Medium
    ensures (exists a :: a in r && a.kind == "temporal_spike") <==>
      DetectTemporalAnomalies(logs, timeWindow, now, parseDate) == [TemporalSpike]
    ensures (exists a :: a in r && a.kind == "volume_spike") <==>
      DetectVolumeAnomalies(logs) == [VolumeSpike]
  {
    (if DetectTemporalAnomalies(logs, timeWindow, now, parseDate) == [TemporalSpike]
     then [Reported(TemporalSpike)] else [])
    + (if DetectVolumeAnomalies(logs) == [VolumeSpike] then [Reported(VolumeSpike)] else [])
  }

  const HighRiskLines: seq<string> :=
    ["High risk detected - manual review recommended",
     "Verify large quantity entries with supporting documentation"]
  const MediumRiskLine: string := "Medium risk - additional verification may be needed"
  const LowRiskLine: string := "Low risk - normal activity pattern detected"
  const TemporalLine: string := "Recent activity spike detected - verify timing and authenticity"
  const VolumeLine: string := "Large quantity entries detected - verify measurements and methods"

  predicate HasKind(anomalies: seq<ReportedAnomaly>, kind: string) {
    exists a :: a in anomalies && a.kind == kind
  }

  /** The lines `generateAnomalyRecommendations` produces: the risk lines, then one line per
      anomaly type present. */
  function RecommendationsFor(riskScore: real, anomalies: seq<ReportedAnomaly>): seq<string> {
    (if riskScore > 0.7 then HighRiskLines
     else if riskScore > 0.4 then [MediumRiskLine]
     else [LowRiskLine])
    + (if HasKind(anomalies, "temporal_spike") then [TemporalLine] else [])
    + (if HasKind(anomalies, "volume_spike") then [VolumeLine] else [])
  }

  /** The recommendation text opens with two high-risk lines above 0.7, one medium-risk line
      above 0.4 and one low-risk line otherwise, and then has exactly one line per anomaly
      type present. */
  lemma RecommendationsShape(riskScore: real, anomalies: seq<ReportedAnomaly>)
    ensures var r := RecommendationsFor(riskScore, anomalies);
      var lead := if riskScore > 0.7 then 2 else 1;
      |r| == lead + (if HasKind(anomalies, "temporal_spike") then 1 else 0)
                  + (if HasKind(anomalies, "volume_spike") then 1 else 0) &&
      (riskScore > 0.7 <==> r[0] == HighRiskLines[0]) &&
      (0.4 < riskScore <= 0.7 <==> r[0] == MediumRiskLine) &&
      (riskScore <= 0.4 <==> r[0] == LowRiskLine) &&
      (TemporalLine in r <==> HasKind(anomalies, "temporal_spike")) &&
      (VolumeLine in r <==> HasKind(anomalies, "volume_spike"))
  {
  }

  /** `generateAnomalyRecommendations`, pushing line by line. */
  method GenerateAnomalyRecommendations(riskScore: real, anomalies: seq<ReportedAnomaly>)
    returns (recs: seq<string>)
    ensures recs == RecommendationsFor(riskScore, anomalies)
  {
    recs := [];
    if riskScore > 0.7 {
      recs := recs + [HighRiskLines[0]];
      recs := recs + [HighRiskLines[1]];
    } else if riskScore > 0.4 {
      recs := recs + [MediumRiskLine];
    } else {
      recs := recs + [LowRiskLine];
    }
    if exists a :: a in anomalies && a.kind == "temporal_spike" {
      recs := recs + [TemporalLine];
    }
    if exists a :: a in anomalies && a.kind == "volume_spike" {
      recs := recs + [VolumeLine];
    }
  }

  /** The request body of `/api/ml/anomaly-check` after validation. */
  datatype CheckRequest = CheckRequest(userId: string, activityLogs: seq<Doc>, timeWindow: string)

  datatype AnomalyReport =
    AnomalyReport(riskScore: real, anomalies: seq<ReportedAnomaly>, recommendations: seq<string>)

  /** What `detectAnomalies` answers for a list of logs. */
  function ReportOf(logs: seq<Doc>, timeWindow: string, now: int,
                    parseDate: string -> Option<int>): AnomalyReport {
    var risk := RiskScoreOf(logs, timeWindow, now, parseDate);
    var anomalies := AnomaliesOf(logs, timeWindow, now, parseDate);
    AnomalyReport(risk, anomalies, RecommendationsFor(risk, anomalies))
  }

  /** `detectAnomalies`: patterns, both detectors, the score, severities, recommendations. */
  method DetectAnomalies(input: CheckRequest, now: int, parseDate: string -> Option<int>)
    returns (report: AnomalyReport)
    ensures report == ReportOf(input.activityLogs, input.timeWindow, now, parseDate)
    ensures 0.0 <= report.riskScore <= 0.75
  {
    var logs := input.activityLogs;
    var patterns := AnalyzeActivityPatterns(logs);
    var temporal := DetectTemporalAnomalies(logs, input.timeWindow, now, parseDate);
    var volume := DetectVolumeAnomalies(logs);
    var risk := CalculateRiskScore(patterns, temporal, volume);
    var anomalies := AnomaliesOf(logs, input.timeWindow, now, parseDate);
    var recs := GenerateAnomalyRecommendations(risk, anomalies);
    report := AnomalyReport(risk, anomalies, recs);
    RiskScoreRange(logs, input.timeWindow, now, parseDate);
  }

  /** A JSON array element as an object: objects give their properties; strings, numbers and
      other non-null values have none of the properties read. */
  function AsDoc(v: Value): Doc {
    if v.Obj? then v.fields else map[]
  }

  /** The index of the first `null`/`undefined` element, on which `l.type` throws. */
  function FirstNullish(items: seq<Value>): (r: Option<nat>)
    ensures r.Some? ==> r.value < |items| && (items[r.value].Null? || items[r.value].Undefined?)
    ensures r.Some? ==> forall j :: 0 <= j < r.value ==> !(items[j].Null? || items[j].Undefined?)
    ensures r.None? <==> forall j :: 0 <= j < |items| ==> !(items[j].Null? || items[j].Undefined?)
  {
    if items == [] then None
    else if items[0].Null? || items[0].Undefined? then Some(0)
    else match FirstNullish(items[1..])
      case None => None
      case Some(i) => Some(i + 1)
  }

  /** The `anomalyCheck` route: 401 without a valid token, 400 unless `activityLogs` is an
      array, 500 when an element is null (reading its `type` throws), else the report. The
      body's `userId` is replaced by the authenticated id before scoring. */
  method AnomalyCheck(authorization: string, verify: string -> Option<string>, body: Doc,
                      now: int, parseDate: string -> Option<int>)
    returns (reply: Reply<AnomalyReport>)
    ensures RequireUser(authorization, verify).None? ==> reply == Error(401, Unauthorized)
    ensures RequireUser(authorization, verify).Some? && !Get(body, "activityLogs").Arr? ==>
      reply == Error(400, "Activity logs required")
    ensures RequireUser(authorization, verify).Some? && Get(body, "activityLogs").Arr? ==>
      var items := Get(body, "activityLogs").items;
      (FirstNullish(items).Some? ==> reply.Error? && reply.status == 500) &&
      (FirstNullish(items).None? ==>
         reply == Ok(ReportOf(seq(|items|, i requires 0 <= i < |items| => AsDoc(items[i])),
                              TextOf(Get(body, "timeWindow")), now, parseDate)))
  {
    var user := RequireUser(authorization, verify);
    if user.None? {
      return Error(401, Unauthorized);
    }
    var input := body["userId" := Str(user.value)];
    var logs := Get(input, "activityLogs");
    if !Truthy(logs) || !logs.Arr? {
      return Error(400, "Activity logs required");
    }
    match FirstNullish(logs.items)
    case Some(i) =>
      reply := Error(500, "Cannot read properties of " + TextOf(logs.items[i]) + " (reading 'type')");
    case None =>
      var docs := seq(|logs.items|, i requires 0 <= i < |logs.items| => AsDoc(logs.items[i]));
      var report := DetectAnomalies(CheckRequest(user.value, docs, TextOf(Get(input, "timeWindow"))),
                                    now, parseDate);
      reply := Ok(report);
  }

  // ---------------------------------------------------------------- estimation helpers

  /** `calculateUncertainty`: 0.1, plus 0.1 for an extreme soil carbon, 0.1 for an extreme
      precipitation and 0.05 without a climate zone, capped at 0.3. */
  method CalculateUncertainty(soilCarbon: real, precipitation: real, climateZone: string)
    returns (u: real)
    ensures 0.1 <= u <= 0.3
    ensures u == 0.1 <==>
      10.0 <= soilCarbon <= 60.0 && 300.0 <= precipitation <= 2000.0 && climateZone != ""
    ensures (soilCarbon < 10.0 || soilCarbon > 60.0) && (precipitation < 300.0 || precipitation > 2000.0)
      ==> u == 0.3
  {
    u := 0.1;
    if soilCarbon < 10.0 || soilCarbon > 60.0 { u := u + 0.1; }
    if precipitation < 300.0 || precipitation > 2000.0 { u := u + 0.1; }
    if climateZone == "" { u := u + 0.05; }
    u := Min(0.3, u);
  }

  /** `getClimateZone` by absolute latitude; a missing, zero or NaN latitude is "unknown". */
  function GetClimateZone(lat: Option<real>): (z: string)
    ensures lat.None? || lat == Some(0.0) ==> z == "unknown"
    ensures z in {"unknown", "tropical", "subtropical", "temperate", "cold"}
  {
    if lat.None? || lat.value == 0.0 then "unknown"
    else if Abs(lat.value) < 23.5 then "tropical"
    else if Abs(lat.value) < 35.0 then "subtropical"
    else if Abs(lat.value) < 50.0 then "temperate"
    else "cold"
  }

  /** The zones are the same in both hemispheres, and move away from "tropical" as the
      latitude grows. */
  lemma ClimateZoneSymmetric(lat: real)
    ensures GetClimateZone(Some(lat)) == GetClimateZone(Some(-lat))
    ensures lat != 0.0 && Abs(lat) < 23.5 <==> GetClimateZone(Some(lat)) == "tropical"
    ensures Abs(lat) >= 50.0 <==> GetClimateZone(Some(lat)) == "cold"
  {
  }

  /** `calculateSoilQuality`: SOC / 40 clamped to [0.3, 1]. */
  function CalculateSoilQuality(soc: real): (q: real)
    ensures 0.3 <= q <= 1.0
    ensures 12.0 <= soc <= 40.0 ==> q == soc / 40.0
    ensures soc <= 12.0 ==> q == 0.3
    ensures soc >= 40.0 ==> q == 1.0
  {
    Min(1.0, Max(0.3, soc / 40.0))
  }

  /** `estimateVegetationIndex`: canopy fraction plus 0.3 for agroforestry, at most 1.5. */
  function EstimateVegetationIndex(treeCover: real, system: string): (v: real)
    ensures v <= 1.5
    ensures v <= treeCover / 100.0 + (if system == "Agroforestry" then 0.3 else 0.0)
    ensures treeCover / 100.0 + (if system == "Agroforestry" then 0.3 else 0.0) <= 1.5 ==>
      v == treeCover / 100.0 + (if system == "Agroforestry" then 0.3 else 0.0)
  {
    Min(1.5, treeCover / 100.0 + (if system == "Agroforestry" then 0.3 else 0.0))
  }

  /** `soilType?.includes(part)`: false when the soil type is absent. */
  predicate Mentions(soilType: Option<string>, part: string) {
    soilType.Some? && Contains(soilType.value, part)
  }

  /** The unclamped SOC estimate: 30, adjusted by soil type, climate and land use. */
  function SocEstimate(soilType: Option<string>, humidity: real, temperature: real,
                       sustainabilityScore: real, rotationBenefit: real): real {
    30.0 + (if Mentions(soilType, "clay") then 5.0 else 0.0)
      - (if Mentions(soilType, "sandy") then 3.0 else 0.0)
      + (if Mentions(soilType, "loam") then 2.0 else 0.0)
      + humidity * 0.1 + (temperature - 25.0) * 0.2
      + sustainabilityScore * 10.0 + rotationBenefit * 5.0
  }

  /** `calculatePredictedSOC`: the estimate built up step by step and clamped to [10, 60]. */
  method CalculatePredictedSOC(soilType: Option<string>, humidity: real, temperature: real,
                               sustainabilityScore: real, rotationBenefit: real)
    returns (soc: real)
    ensures 10.0 <= soc <= 60.0
    ensures soc == Max(10.0, Min(60.0, SocEstimate(soilType, humidity, temperature,
                                                   sustainabilityScore, rotationBenefit)))
  {
    var base := 30.0;
    if Mentions(soilType, "clay") { base := base + 5.0; }
    if Mentions(soilType, "sandy") { base := base - 3.0; }
    if Mentions(soilType, "loam") { base := base + 2.0; }
    base := base + humidity * 0.1;
    base := base + (temperature - 25.0) * 0.2;
    base := base + sustainabilityScore * 10.0;
    base := base + rotationBenefit * 5.0;
    soc := Max(10.0, Min(60.0, base));
  }
}
