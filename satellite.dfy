/** The satellite routes (`satellite.ts`): the NDVI trend and summary of stored imagery, the
    recommendations for a detected land-cover change, and the request checks of the four
    handlers. The simulated imagery, land-cover class and change draws are parameters. */
module Satellite {
  import opened Values
  import opened Db
  import opened Http

  // ---------------------------------------------------------------- trend

  datatype Trend = Increasing | Decreasing | Stable

  function TrendName(t: Trend): string {
    match t
    case Increasing => "increasing"
    case Decreasing => "decreasing"
    case Stable => "stable"
  }

  /** The mean of a run of values; `None` is the NaN that `0 / 0` gives for an empty run. */
  function Mean(xs: seq<real>): (m: Option<real>)
    ensures m.None? <==> xs == []
  {
    if xs == [] then None else Some(Sum(xs) / |xs| as real)
  }

  /** `calculateTrend`. With `k = Math.floor(n / 3)`, the first slice is `slice(0, k)` and the
      last is `slice(-k)`, which for `k = 0` is `slice(0)`, the whole run. A NaN mean makes
      both comparisons fail, giving "stable". */
  function CalculateTrend(values: seq<real>): Trend {
    if |values| < 2 then Stable
    else
      var k := |values| / 3;
      var first := values[..k];
      var last := if k == 0 then values else values[|values| - k..];
      match (Mean(first), Mean(last))
      case (Some(a), Some(b)) =>
        if b - a > 0.05 then Increasing else if b - a < -0.05 then Decreasing else Stable
      case _ => Stable
  }

  /** Fewer than three values are always "stable": below two by the explicit check, and for
      two because the first third is empty and its mean is NaN. */
  lemma FewValuesAreStable(values: seq<real>)
    requires |values| < 3
    ensures CalculateTrend(values) == Stable
  {
  }

  /** From three values on, the trend compares the mean of the last third with the mean of
      the first third: "increasing" above 0.05, "decreasing" below -0.05, else "stable". */
  lemma TrendByThirds(values: seq<real>)
    requires |values| >= 3
    ensures var k := |values| / 3;
      var change := Sum(values[|values| - k..]) / k as real - Sum(values[..k]) / k as real;
      k >= 1 &&
      (CalculateTrend(values) == Increasing <==> change > 0.05) &&
      (CalculateTrend(values) == Decreasing <==> change < -0.05) &&
      (CalculateTrend(values) == Stable <==> -0.05 <= change <= 0.05)
  {
  }

  function Reverse(xs: seq<real>): (r: seq<real>)
    ensures |r| == |xs|
  {
    seq(|xs|, i requires 0 <= i < |xs| => xs[|xs| - 1 - i])
  }

  function Opposite(t: Trend): Trend {
    match t
    case Increasing => Decreasing
    case Decreasing => Increasing
    case Stable => Stable
  }

  lemma {:induction false} SumCons(x: real, ys: seq<real>)
    ensures Sum([x] + ys) == x + Sum(ys)
  {
    if ys != [] {
      assert ([x] + ys)[..|ys|] == [x] + ys[..|ys| - 1];
      SumCons(x, ys[..|ys| - 1]);
    }
  }

  /** Summing in the other order gives the same total. */
  lemma {:induction false} SumReverse(xs: seq<real>)
    ensures Sum(Reverse(xs)) == Sum(xs)
  {
    if xs != [] {
      var init := xs[..|xs| - 1];
      assert Reverse(xs) == [xs[|xs| - 1]] + Reverse(init);
      SumCons(xs[|xs| - 1], Reverse(init));
      SumReverse(init);
    }
  }

  /** Read backwards, a rising series falls and a falling one rises; a stable one stays
      stable. */
  lemma TrendReversed(values: seq<real>)
    ensures CalculateTrend(Reverse(values)) == Opposite(CalculateTrend(values))
  {
    var n := |values|;
    var k := n / 3;
    if n >= 3 {
      var r := Reverse(values);
      assert r[..k] == Reverse(values[n - k..]);
      assert r[n - k..] == Reverse(values[..k]);
      SumReverse(values[n - k..]);
      SumReverse(values[..k]);
    }
  }

  // ---------------------------------------------------------------- vegetation summary

  /** A stored image: its date and its NDVI, `None` for a stored `null`. */
  datatype Image = Image(date: string, ndvi: Option<real>)

  /** `imagery.map(img => img.indices.ndvi).filter(v => v !== null)`. */
  function NdviValues(imagery: seq<Image>): seq<real> {
    if imagery == [] then []
    else
      var last := imagery[|imagery| - 1];
      NdviValues(imagery[..|imagery| - 1]) + (if last.ndvi.Some? then [last.ndvi.value] else [])
  }

  /** The readings are exactly the non-null NDVI values of the images. */
  lemma {:induction false} NdviValuesAreReadings(imagery: seq<Image>, x: real)
    ensures x in NdviValues(imagery) <==> exists i :: 0 <= i < |imagery| && imagery[i].ndvi == Some(x)
    ensures NdviValues(imagery) == [] <==> forall i :: 0 <= i < |imagery| ==> imagery[i].ndvi.None?
  {
    if imagery != [] {
      var init := imagery[..|imagery| - 1];
      NdviValuesAreReadings(init, x);
      assert forall i :: 0 <= i < |init| ==> init[i] == imagery[i];
      if imagery[|imagery| - 1].ndvi.Some? {
        NdviValuesAreReadings(init, imagery[|imagery| - 1].ndvi.value);
      }
    }
  }

  /** `Math.max(...xs)`. */
  function MaxOf(xs: seq<real>): (m: real)
    requires xs != []
    ensures m in xs
    ensures forall x :: x in xs ==> x <= m
  {
    if |xs| == 1 then xs[0]
    else
      var m := MaxOf(xs[..|xs| - 1]);
      assert xs == xs[..|xs| - 1] + [xs[|xs| - 1]];
      Max(m, xs[|xs| - 1])
  }

  /** `Math.min(...xs)`. */
  function MinOf(xs: seq<real>): (m: real)
    requires xs != []
    ensures m in xs
    ensures forall x :: x in xs ==> m <= x
  {
    if |xs| == 1 then xs[0]
    else
      var m := MinOf(xs[..|xs| - 1]);
      assert xs == xs[..|xs| - 1] + [xs[|xs| - 1]];
      Min(m, xs[|xs| - 1])
  }

  /** A sum of values within [lo, hi] lies within [n·lo, n·hi]. */
  lemma {:induction false} SumBetween(xs: seq<real>, lo: real, hi: real)
    requires forall i :: 0 <= i < |xs| ==> lo <= xs[i] <= hi
    ensures |xs| as real * lo <= Sum(xs) <= |xs| as real * hi
  {
    if xs != [] {
      SumBetween(xs[..|xs| - 1], lo, hi);
    }
  }

  /** The mean of values within [lo, hi] lies within [lo, hi]. */
  lemma MeanBetween(xs: seq<real>, lo: real, hi: real)
    requires xs != []
    requires forall x :: x in xs ==> lo <= x <= hi
    ensures lo <= Sum(xs) / |xs| as real <= hi
  {
    assert forall i :: 0 <= i < |xs| ==> xs[i] in xs;
    SumBetween(xs, lo, hi);
    var n, m := |xs| as real, Sum(xs) / |xs| as real;
    FactorSign(m - lo, n);
    FactorSign(hi - m, n);
  }

  lemma FactorSign(a: real, n: real)
    requires n > 0.0
    ensures a * n >= 0.0 ==> a >= 0.0
  {
  }

  datatype Summary = Summary(avgNDVI: real, maxNDVI: real, minNDVI: real, biomassChange: real,
                             healthScore: real)

  /** The result of `performVegetationAnalysis`, before the display rounding; the anomaly
      list is not modelled. */
  datatype VegetationAnalysis = VegetationAnalysis(trend: Trend, seasonality: real, summary: Summary)

  /** `performVegetationAnalysis`; `None` when it throws "No valid NDVI data available". */
  function PerformVegetationAnalysis(imagery: seq<Image>): Option<VegetationAnalysis> {
    var values := NdviValues(imagery);
    if values == [] then None
    else
      var avg := Sum(values) / |values| as real;
      var max := MaxOf(values);
      var min := MinOf(values);
      var biomassChange := (max - min) * 100.0;
      var healthScore := Min(100.0, avg * 100.0 + (100.0 - (max - min) * 100.0));
      Some(VegetationAnalysis(CalculateTrend(values), 0.8, Summary(avg, max, min, biomassChange, healthScore)))
  }

  /** The analysis throws exactly when no image has an NDVI; otherwise its trend is that of
      the readings. */
  lemma VegetationAnalysisDefined(imagery: seq<Image>)
    ensures PerformVegetationAnalysis(imagery).None? <==>
      forall i :: 0 <= i < |imagery| ==> imagery[i].ndvi.None?
    ensures PerformVegetationAnalysis(imagery).Some? ==>
      PerformVegetationAnalysis(imagery).value.trend == CalculateTrend(NdviValues(imagery))
  {
    NdviValuesAreReadings(imagery, 0.0);
  }

  /** The mean lies between the smallest and the largest reading, which are readings
      themselves; the biomass change is never negative and the health score never above 100;
      with every reading in [0, 1], both lie in [0, 100]. */
  lemma VegetationSummaryBounds(imagery: seq<Image>)
    requires PerformVegetationAnalysis(imagery).Some?
    ensures var s := PerformVegetationAnalysis(imagery).value.summary;
      s.minNDVI in NdviValues(imagery) && s.maxNDVI in NdviValues(imagery) &&
      s.minNDVI <= s.avgNDVI <= s.maxNDVI &&
      s.biomassChange >= 0.0 && s.healthScore <= 100.0 &&
      ((forall i :: 0 <= i < |imagery| && imagery[i].ndvi.Some? ==> 0.0 <= imagery[i].ndvi.value <= 1.0) ==>
        s.biomassChange <= 100.0 && s.healthScore >= 0.0)
  {
    var values := NdviValues(imagery);
    var max, min := MaxOf(values), MinOf(values);
    MeanBetween(values, min, max);
    if forall i :: 0 <= i < |imagery| && imagery[i].ndvi.Some? ==> 0.0 <= imagery[i].ndvi.value <= 1.0 {
      NdviValuesAreReadings(imagery, max);
      NdviValuesAreReadings(imagery, min);
    }
  }

  // ---------------------------------------------------------------- change recommendations

  const ReforestLine := "Consider reforestation to restore carbon sequestration capacity"
  const SoilLine := "Implement soil conservation measures to prevent erosion"
  const ForestLossLine := "Significant forest loss detected - investigate causes and implement protection measures"
  const RestorationLine := "Excellent progress on forest restoration - continue monitoring growth"
  const DocumentLine := "Document tree species and planting density for carbon credit calculations"
  const SoilHealthLine := "Monitor soil health impacts of crop rotation"
  const CropVarietyLine := "Consider carbon-friendly crop varieties and practices"
  const UrbanLine := "Urban expansion detected - consider sustainable development practices"
  const MonitorLine := "Continue monitoring for changes"

  /** What `generateChangeRecommendations` answers for a change type and changed area. */
  function ChangeRecommendations(changeType: string, areaChanged: real): seq<string> {
    if changeType == "deforestation" then
      [ReforestLine, SoilLine] + (if areaChanged > 20.0 then [ForestLossLine] else [])
    else if changeType == "afforestation" then [RestorationLine, DocumentLine]
    else if changeType == "crop_change" then [SoilHealthLine, CropVarietyLine]
    else if changeType == "urbanization" then [UrbanLine]
    else [MonitorLine]
  }

  /** `generateChangeRecommendations`. */
  method GenerateChangeRecommendations(changeType: string, areaChanged: real) returns (lines: seq<string>)
    ensures lines == ChangeRecommendations(changeType, areaChanged)
  {
    lines := [];
    if changeType == "deforestation" {
      lines := lines + [ReforestLine];
      lines := lines + [SoilLine];
      if areaChanged > 20.0 {
        lines := lines + [ForestLossLine];
      }
    } else if changeType == "afforestation" {
      lines := lines + [RestorationLine];
      lines := lines + [DocumentLine];
    } else if changeType == "crop_change" {
      lines := lines + [SoilHealthLine];
      lines := lines + [CropVarietyLine];
    } else if changeType == "urbanization" {
      lines := lines + [UrbanLine];
    } else {
      lines := lines + [MonitorLine];
    }
  }

  /** Deforestation gets two lines, and a third exactly when more than 20% of the area
      changed; afforestation and crop change get two, urbanization one, and any other change
      type only the advice to keep monitoring. */
  lemma ChangeRecommendationCounts(changeType: string, areaChanged: real)
    ensures var r := ChangeRecommendations(changeType, areaChanged);
      (changeType == "deforestation" ==>
        |r| == (if areaChanged > 20.0 then 3 else 2) && (ForestLossLine in r <==> areaChanged > 20.0)) &&
      (changeType == "afforestation" || changeType == "crop_change" ==> |r| == 2) &&
      (changeType == "urbanization" ==> |r| == 1) &&
      (changeType !in ["deforestation", "afforestation", "crop_change", "urbanization"] ==> r == [MonitorLine])
  {
    if changeType == "deforestation" && areaChanged <= 20.0 {
      assert ForestLossLine != ReforestLine && ForestLossLine != SoilLine;
    }
  }

  // ---------------------------------------------------------------- handlers

  const ImageryCollection: string := "satellite_imagery"
  const VegetationCollection: string := "vegetation_analysis"
  const LandCoverCollection: string := "land_cover"
  const ChangesCollection: string := "change_detection"

  /** `fetchImagery` on the in-memory store: 401 without a valid token, 400 unless the
      coordinates and both dates are truthy; past that the store has no `insertMany`, so
      the call throws and the handler answers 500 after creating the collection. */
  method FetchImagery(db: MemoryDb, authorization: string, verify: string -> Option<string>, body: Doc)
    returns (reply: Reply<nat>)
    modifies db
    ensures RequireUser(authorization, verify).None? ==>
      reply == Error(401, Unauthorized) && db.collections == old(db.collections)
    ensures RequireUser(authorization, verify).Some? &&
            (!Truthy(Get(body, "latitude")) || !Truthy(Get(body, "longitude")) ||
             !Truthy(Get(body, "startDate")) || !Truthy(Get(body, "endDate"))) ==>
      reply == Error(400, "Missing required parameters") && db.collections == old(db.collections)
    ensures RequireUser(authorization, verify).Some? &&
            Truthy(Get(body, "latitude")) && Truthy(Get(body, "longitude")) &&
            Truthy(Get(body, "startDate")) && Truthy(Get(body, "endDate")) ==>
      reply == Error(500, "insertMany is not a function") &&
      db.collections == old(db.collections)[ImageryCollection := old(db.Docs(ImageryCollection))]
  {
    var user := RequireUser(authorization, verify);
    if user.None? {
      return Error(401, Unauthorized);
    }
    if !Truthy(Get(body, "latitude")) || !Truthy(Get(body, "longitude")) ||
       !Truthy(Get(body, "startDate")) || !Truthy(Get(body, "endDate")) {
      return Error(400, "Missing required parameters");
    }
    db.Touch(ImageryCollection);
    reply := Error(500, "insertMany is not a function");
  }

  /** The checks `analyzeVegetation` and `classifyLandCover` share: 401 without a valid
      token, 400 unless both coordinates are truthy (so a coordinate of 0 is refused). On
      success, the caller's id. */
  function LocationGuard(authorization: string, verify: string -> Option<string>, body: Doc): (r: Reply<string>)
    ensures r.Ok? <==> RequireUser(authorization, verify).Some? &&
                       Truthy(Get(body, "latitude")) && Truthy(Get(body, "longitude"))
    ensures r.Ok? ==> r.body == RequireUser(authorization, verify).value
    ensures RequireUser(authorization, verify).None? ==> r == Error(401, Unauthorized)
    ensures !r.Ok? && RequireUser(authorization, verify).Some? ==> r == Error(400, "Location coordinates required")
  {
    match RequireUser(authorization, verify)
    case None => Error(401, Unauthorized)
    case Some(id) =>
      if !Truthy(Get(body, "latitude")) || !Truthy(Get(body, "longitude")) then
        Error(400, "Location coordinates required")
      else Ok(id)
  }

  /** `analyzeVegetation` on the in-memory store: past the checks, `find` returns a promise,
      and calling `.sort` on it throws, which the handler answers with 500 after creating
      the collection. */
  method AnalyzeVegetation(db: MemoryDb, authorization: string, verify: string -> Option<string>, body: Doc)
    returns (reply: Reply<VegetationAnalysis>)
    modifies db
    ensures var g := LocationGuard(authorization, verify, body);
      !g.Ok? ==> reply == Error(g.status, g.message) && db.collections == old(db.collections)
    ensures LocationGuard(authorization, verify, body).Ok? ==>
      reply == Error(500, "find(...).sort is not a function") &&
      db.collections == old(db.collections)[ImageryCollection := old(db.Docs(ImageryCollection))]
  {
    var guard := LocationGuard(authorization, verify, body);
    if !guard.Ok? {
      return Error(guard.status, guard.message);
    }
    db.Touch(ImageryCollection);
    reply := Error(500, "find(...).sort is not a function");
  }

  function AnalysisValue(a: VegetationAnalysis): Value {
    Obj(map["trend" := Str(TrendName(a.trend)), "seasonality" := Num(a.seasonality),
            "summary" := Obj(map["avgNDVI" := Num(a.summary.avgNDVI), "maxNDVI" := Num(a.summary.maxNDVI),
                                 "minNDVI" := Num(a.summary.minNDVI),
                                 "biomassChange" := Num(a.summary.biomassChange),
                                 "healthScore" := Num(a.summary.healthScore)])])
  }

  /** The record `analyzeVegetation` stores. */
  function VegetationRecord(userId: string, body: Doc, a: VegetationAnalysis, now: int): Doc {
    map["userId" := Str(userId), "location" := Location(Get(body, "latitude"), Get(body, "longitude")),
        "timeRange" := OrDefault(Get(body, "timeRange"), Str("1y")), "analysis" := AnalysisValue(a),
        "createdAt" := Time(now)]
  }

  /** The rest of `analyzeVegetation`, for a store whose query answers `imagery`: 404 when
      there is none, 500 when no image has an NDVI, and otherwise the analysis is stored for
      the caller and answered. */
  method AnalyzeStoredImagery(db: MemoryDb, userId: string, body: Doc, imagery: seq<Image>, now: int,
                              generated: string)
    returns (reply: Reply<VegetationAnalysis>)
    modifies db
    ensures imagery == [] ==>
      reply == Error(404, "No satellite data found for this location") && db.collections == old(db.collections)
    ensures imagery != [] && PerformVegetationAnalysis(imagery).None? ==>
      reply == Error(500, "No valid NDVI data available") && db.collections == old(db.collections)
    ensures PerformVegetationAnalysis(imagery).Some? ==>
      var a := PerformVegetationAnalysis(imagery).value;
      reply == Ok(a) &&
      db.collections == old(db.collections)[VegetationCollection :=
        InsertIn(old(db.Docs(VegetationCollection)), VegetationRecord(userId, body, a, now), generated)]
  {
    if imagery == [] {
      return Error(404, "No satellite data found for this location");
    }
    var analysis := PerformVegetationAnalysis(imagery);
    if analysis.None? {
      return Error(500, "No valid NDVI data available");
    }
    var _ := db.InsertOne(VegetationCollection, VegetationRecord(userId, body, analysis.value, now), generated);
    reply := Ok(analysis.value);
  }

  /** The record `classifyLandCover` stores; the date is the request's, or the current
      time's ISO text when it is falsy. */
  function LandCoverRecord(userId: string, body: Doc, classification: Value, nowIso: string, now: int): Doc {
    map["userId" := Str(userId), "location" := Location(Get(body, "latitude"), Get(body, "longitude")),
        "date" := (if Truthy(Get(body, "date")) then Get(body, "date") else Str(nowIso)),
        "classification" := classification, "createdAt" := Time(now)]
  }

  /** `classifyLandCover`, the simulated classification given: past the checks it is stored
      for the caller in `land_cover` and answered. */
  method ClassifyLandCover(db: MemoryDb, authorization: string, verify: string -> Option<string>, body: Doc,
                           classification: Value, nowIso: string, now: int, generated: string)
    returns (reply: Reply<Value>)
    modifies db
    ensures var g := LocationGuard(authorization, verify, body);
      !g.Ok? ==> reply == Error(g.status, g.message) && db.collections == old(db.collections)
    ensures var g := LocationGuard(authorization, verify, body);
      g.Ok? ==>
        reply == Ok(classification) &&
        db.collections == old(db.collections)[LandCoverCollection :=
          InsertIn(old(db.Docs(LandCoverCollection)), LandCoverRecord(g.body, body, classification, nowIso, now), generated)]
  {
    var guard := LocationGuard(authorization, verify, body);
    if !guard.Ok? {
      return Error(guard.status, guard.message);
    }
    var _ := db.InsertOne(LandCoverCollection, LandCoverRecord(guard.body, body, classification, nowIso, now), generated);
    reply := Ok(classification);
  }

  /** The change report `detectChanges` answers, without the simulated confidence and pixel
      counts. */
  datatype ChangeReport = ChangeReport(changeType: string, areaChanged: real, beforeDate: Value,
                                       afterDate: Value, recommendations: seq<string>)

  function ChangeValue(c: ChangeReport): Value {
    Obj(map["changeType" := Str(c.changeType), "areaChanged" := Num(c.areaChanged),
            "beforeDate" := c.beforeDate, "afterDate" := c.afterDate,
            "recommendations" := Texts(c.recommendations)])
  }

  /** The record `detectChanges` stores. */
  function ChangeRecord(userId: string, body: Doc, c: ChangeReport, now: int): Doc {
    map["userId" := Str(userId), "location" := Location(Get(body, "latitude"), Get(body, "longitude")),
        "beforeDate" := Get(body, "beforeDate"), "afterDate" := Get(body, "afterDate"),
        "changes" := ChangeValue(c), "createdAt" := Time(now)]
  }

  /** `detectChanges`, the simulated change type and changed area given: 401 without a valid
      token, 400 unless the coordinates and both dates are truthy; otherwise the report, with
      the recommendations for that change, is stored for the caller and answered. */
  method DetectChanges(db: MemoryDb, authorization: string, verify: string -> Option<string>, body: Doc,
                       changeType: string, areaChanged: real, now: int, generated: string)
    returns (reply: Reply<ChangeReport>)
    modifies db
    ensures RequireUser(authorization, verify).None? ==>
      reply == Error(401, Unauthorized) && db.collections == old(db.collections)
    ensures RequireUser(authorization, verify).Some? &&
            (!Truthy(Get(body, "latitude")) || !Truthy(Get(body, "longitude")) ||
             !Truthy(Get(body, "beforeDate")) || !Truthy(Get(body, "afterDate"))) ==>
      reply == Error(400, "Missing required parameters for change detection") &&
      db.collections == old(db.collections)
    ensures RequireUser(authorization, verify).Some? &&
            Truthy(Get(body, "latitude")) && Truthy(Get(body, "longitude")) &&
            Truthy(Get(body, "beforeDate")) && Truthy(Get(body, "afterDate")) ==>
      var c := ChangeReport(changeType, areaChanged, Get(body, "beforeDate"), Get(body, "afterDate"),
                            ChangeRecommendations(changeType, areaChanged));
      reply == Ok(c) &&
      db.collections == old(db.collections)[ChangesCollection :=
        InsertIn(old(db.Docs(ChangesCollection)),
                 ChangeRecord(RequireUser(authorization, verify).value, body, c, now), generated)]
  {
    var user := RequireUser(authorization, verify);
    if user.None? {
      return Error(401, Unauthorized);
    }
    if !Truthy(Get(body, "latitude")) || !Truthy(Get(body, "longitude")) ||
       !Truthy(Get(body, "beforeDate")) || !Truthy(Get(body, "afterDate")) {
      return Error(400, "Missing required parameters for change detection");
    }
    var recommendations := GenerateChangeRecommendations(changeType, areaChanged);
    var changes := ChangeReport(changeType, areaChanged, Get(body, "beforeDate"), Get(body, "afterDate"),
                                recommendations);
    var _ := db.InsertOne(ChangesCollection, ChangeRecord(user.value, body, changes, now), generated);
    reply := Ok(changes);
  }
}
