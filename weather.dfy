/** The agricultural weather rules: climate analysis over daily history, planting windows,
    climate recommendations and forecast alerts. The history and the forecast are produced
    by simulators in the server; here they are inputs. The handlers share one guard: a
    valid bearer token, then a truthy latitude and longitude. */
module Weather {
  import opened Values
  import opened Db
  import opened Http

  /** One day of history, as far as the analysis reads it. The average temperature is
      `None` for NaN: the simulator derives it from `Math.abs(lat)`, which is NaN for a
      truthy latitude that is not a number (`"north"`, `{}`, `[1, 2]`). */
  datatype Day = Day(date: string, avg: Option<real>, precipitation: real)

  /** One forecast day, as far as the alerts read it; NaN temperatures are `None`, as in `Day`. */
  datatype ForecastDay = ForecastDay(date: string, min: Option<real>, max: Option<real>, precipitation: real)

  // ---------------------------------------------------------------- crop tables

  /** `baseTemps`. */
  const BaseTemps: map<string, real> :=
    map["Rice" := 10.0, "Wheat" := 0.0, "Maize" := 10.0, "Cotton" := 15.0,
        "Soybean" := 10.0, "Sugarcane" := 18.0]

  /** `baseTemps[cropType] || 10`: the table's value when it is truthy, else 10. */
  function BaseTemperature(crop: string): real {
    if crop in BaseTemps && BaseTemps[crop] != 0.0 then BaseTemps[crop] else 10.0
  }

  /** Wheat's 0 is falsy, so Wheat gets 10 like every crop outside the table; the base is
      never below 10 and only Cotton and Sugarcane get more. */
  lemma BaseTemperatureDefaults(crop: string)
    ensures BaseTemperature("Wheat") == 10.0
    ensures crop !in BaseTemps ==> BaseTemperature(crop) == 10.0
    ensures BaseTemperature(crop) >= 10.0
    ensures BaseTemperature(crop) > 10.0 <==> crop == "Cotton" || crop == "Sugarcane"
  {
  }

  /** A planting window: two dates as `YYYY-MM-DD` text. */
  datatype Window = Window(start: string, end: string)

  /** Month and day of each window, north of the equator and south of it. */
  const NorthernWindows: map<string, (string, string)> :=
    map["Rice" := ("04-15", "06-15"), "Wheat" := ("09-15", "11-15"), "Maize" := ("04-01", "06-01")]
  const SouthernWindows: map<string, (string, string)> :=
    map["Rice" := ("10-15", "12-15"), "Wheat" := ("03-15", "05-15"), "Maize" := ("10-01", "12-01")]

  /** `getOptimalPlantingWindow`: the hemisphere's table (northern when `latitude > 0`), the
      crop's entry or else Rice's, in the current year. */
  function PlantingWindow(crop: string, latitude: Value, year: int): Window {
    var table := if Greater(latitude, Num(0.0)) then NorthernWindows else SouthernWindows;
    var md := if crop in table then table[crop] else table["Rice"];
    Window(IntText(year) + "-" + md.0, IntText(year) + "-" + md.1)
  }

  /** The northern window is chosen exactly when `latitude > 0` (a latitude of 0, a
      negative one or a non-numeric one gets the southern window); crops outside the table
      get Rice's window; both dates fall in the given year. */
  lemma PlantingWindowChoice(crop: string, latitude: Value, year: int)
    ensures var w := PlantingWindow(crop, latitude, year);
      var table := if Greater(latitude, Num(0.0)) then NorthernWindows else SouthernWindows;
      var key := if crop in table then crop else "Rice";
      w.start == IntText(year) + "-" + table[key].0 && w.end == IntText(year) + "-" + table[key].1
    ensures crop !in NorthernWindows ==> PlantingWindow(crop, latitude, year) == PlantingWindow("Rice", latitude, year)
    ensures PlantingWindow("Rice", Num(1.0), year).start == IntText(year) + "-04-15"
    ensures PlantingWindow("Rice", Num(0.0), year).start == IntText(year) + "-10-15"
  {
    assert !Greater(Num(0.0), Num(0.0));
  }

  // ---------------------------------------------------------------- climate analysis

  /** `weatherData.map(d => d.temperature.avg)`. */
  function Temperatures(days: seq<Day>): (ts: seq<Option<real>>)
    ensures |ts| == |days| && forall i :: 0 <= i < |days| ==> ts[i] == days[i].avg
  {
    seq(|days|, i requires 0 <= i < |days| => days[i].avg)
  }

  /** `weatherData.map(d => d.precipitation)`. */
  function Precipitations(days: seq<Day>): (ps: seq<real>)
    ensures |ps| == |days| && forall i :: 0 <= i < |days| ==> ps[i] == days[i].precipitation
  {
    seq(|days|, i requires 0 <= i < |days| => days[i].precipitation)
  }

  /** `temps.reduce((a, b) => a + b, 0)`: NaN as soon as one term is NaN. */
  function NumSum(xs: seq<Option<real>>): (r: Option<real>)
    ensures r.None? <==> exists i :: 0 <= i < |xs| && xs[i].None?
  {
    if xs == [] then Some(0.0)
    else
      var s, x := NumSum(xs[..|xs| - 1]), xs[|xs| - 1];
      assert forall i :: 0 <= i < |xs| - 1 ==> xs[..|xs| - 1][i] == xs[i];
      if s.Some? && x.Some? then Some(s.value + x.value) else None
  }

  /** The sum over the days divided by their number: NaN for no days (0 / 0) and for a NaN
      day. */
  function Mean(temps: seq<Option<real>>): (m: Option<real>)
    ensures m.None? <==> temps == [] || exists i :: 0 <= i < |temps| && temps[i].None?
  {
    if temps == [] then None
    else match NumSum(temps)
      case None => None
      case Some(s) => Some(s / |temps| as real)
  }

  /** `temps.map(t => Math.max(0, t - base)).reduce(+, 0)`; `Math.max(0, NaN)` is NaN, so a
      NaN day makes the whole sum NaN. */
  function GrowingDegreeDays(temps: seq<Option<real>>, base: real): Option<real> {
    if temps == [] then Some(0.0)
    else
      var g, t := GrowingDegreeDays(temps[..|temps| - 1], base), temps[|temps| - 1];
      if g.Some? && t.Some? then Some(g.value + Max(0.0, t.value - base)) else None
  }

  /** Growing degree days are NaN exactly when some day is, are otherwise never negative,
      and are 0 exactly when every day is a number no warmer than the base. */
  lemma {:induction false} GrowingDegreeDaysRange(temps: seq<Option<real>>, base: real)
    ensures GrowingDegreeDays(temps, base).None? <==> exists i :: 0 <= i < |temps| && temps[i].None?
    ensures GrowingDegreeDays(temps, base).Some? ==> GrowingDegreeDays(temps, base).value >= 0.0
    ensures GrowingDegreeDays(temps, base) == Some(0.0) <==>
      forall i :: 0 <= i < |temps| ==> temps[i].Some? && temps[i].value <= base
  {
    if temps != [] {
      var init := temps[..|temps| - 1];
      GrowingDegreeDaysRange(init, base);
      assert forall i :: 0 <= i < |init| ==> init[i] == temps[i];
    }
  }

  /** `temps.filter(t => t < c).length` and `temps.filter(t => t > c).length`; a NaN day
      passes neither filter. */
  function CountBelow(temps: seq<Option<real>>, c: real): (n: nat)
    ensures n <= |temps|
  {
    if temps == [] then 0
    else CountBelow(temps[..|temps| - 1], c) + (if Below(temps[|temps| - 1], c) then 1 else 0)
  }

  function CountAbove(temps: seq<Option<real>>, c: real): (n: nat)
    ensures n <= |temps|
  {
    if temps == [] then 0
    else CountAbove(temps[..|temps| - 1], c) + (if Beyond(temps[|temps| - 1], c) then 1 else 0)
  }

  /** A run of NaN days has no day below or above any bound. */
  lemma {:induction false} NaNDaysUncounted(temps: seq<Option<real>>, c: real)
    requires forall i :: 0 <= i < |temps| ==> temps[i].None?
    ensures CountBelow(temps, c) == 0 && CountAbove(temps, c) == 0
  {
    if temps != [] {
      NaNDaysUncounted(temps[..|temps| - 1], c);
    }
  }

  /** `count / length * 100`; `None` is the NaN of an empty history. */
  function Percent(count: nat, length: nat): Option<real> {
    if length == 0 then None else Some(count as real / length as real * 100.0)
  }

  lemma PercentRange(count: nat, length: nat)
    requires count <= length
    ensures Percent(count, length).None? <==> length == 0
    ensures Percent(count, length).Some? ==> 0.0 <= Percent(count, length).value <= 100.0
    ensures Percent(count, length).Some? ==> (Percent(count, length).value == 100.0 <==> count == length)
  {
    if length > 0 {
      assert count as real / length as real <= 1.0;
    }
  }

  /** `Math.max(0, 100 - totalPrecipitation / 10)`. */
  function DroughtIndex(total: real): real {
    Max(0.0, 100.0 - total / 10.0)
  }

  /** `x < c` and `x > c` for a possibly-NaN number: NaN compares false. */
  predicate Below(x: Option<real>, c: real) { x.Some? && x.value < c }
  predicate Beyond(x: Option<real>, c: real) { x.Some? && x.value > c }

  const ColdLine := "Consider cold-tolerant varieties due to low average temperatures"
  const HeatLine := "Select heat-resistant varieties and ensure adequate irrigation"
  const IrrigationLine := "Implement efficient irrigation systems due to low rainfall"
  const DroughtVarietyLine := "Consider drought-resistant crop varieties"
  const DrainageLine := "Ensure good drainage to prevent waterlogging"
  const FungalLine := "Monitor for fungal diseases in high moisture conditions"
  const FrostLine := "Plan frost protection measures for sensitive growth stages"
  const WaterLine := "Critical: Implement water conservation and drought mitigation strategies"
  const ShadeLine := "Plan shade structures or adjust planting times to avoid heat stress"
  const RiceLine := "Rice requires consistent water supply - ensure irrigation availability"
  const WheatLine := "High temperatures may reduce wheat yield - consider spring varieties"

  /** The figures `generateClimateRecommendations` is given. */
  datatype Figures = Figures(avgTemp: Option<real>, totalPrecip: real, frostRisk: Option<real>,
                             droughtIndex: real, heatStressRisk: Option<real>, crop: Value)

  /** What `generateClimateRecommendations` answers: the line of each check that fires, in
      the order the checks run. A NaN figure fails every comparison. */
  function Recommendations(f: Figures): seq<string> {
    (if Below(f.avgTemp, 15.0) then [ColdLine] else []) +
    (if Beyond(f.avgTemp, 30.0) then [HeatLine] else []) +
    (if f.totalPrecip < 500.0 then [IrrigationLine] else []) +
    (if f.totalPrecip < 500.0 then [DroughtVarietyLine] else []) +
    (if f.totalPrecip > 1500.0 then [DrainageLine] else []) +
    (if f.totalPrecip > 1500.0 then [FungalLine] else []) +
    (if Beyond(f.frostRisk, 20.0) then [FrostLine] else []) +
    (if f.droughtIndex > 60.0 then [WaterLine] else []) +
    (if Beyond(f.heatStressRisk, 30.0) then [ShadeLine] else []) +
    (if f.crop == Str("Rice") && f.totalPrecip < 800.0 then [RiceLine] else []) +
    (if f.crop == Str("Wheat") && Beyond(f.avgTemp, 25.0) then [WheatLine] else [])
  }

  /** The eleven lines are different texts. */
  lemma LinesDistinct()
    ensures ColdLine !in [HeatLine, IrrigationLine, DroughtVarietyLine, DrainageLine, FungalLine, FrostLine, WaterLine, ShadeLine, RiceLine, WheatLine]
    ensures HeatLine !in [IrrigationLine, DroughtVarietyLine, DrainageLine, FungalLine, FrostLine, WaterLine, ShadeLine, RiceLine, WheatLine]
    ensures IrrigationLine !in [DroughtVarietyLine, DrainageLine, FungalLine, FrostLine, WaterLine, ShadeLine, RiceLine, WheatLine]
    ensures DroughtVarietyLine !in [DrainageLine, FungalLine, FrostLine, WaterLine, ShadeLine, RiceLine, WheatLine]
    ensures DrainageLine !in [FungalLine, FrostLine, WaterLine, ShadeLine, RiceLine, WheatLine]
    ensures FungalLine !in [FrostLine, WaterLine, ShadeLine, RiceLine, WheatLine]
    ensures FrostLine !in [WaterLine, ShadeLine, RiceLine, WheatLine]
    ensures WaterLine !in [ShadeLine, RiceLine, WheatLine]
    ensures ShadeLine !in [RiceLine, WheatLine]
    ensures RiceLine !in [WheatLine]
  {
  }

  /** A line is given exactly when a check carrying it fires. */
  lemma RecommendationMembership(f: Figures, x: string)
    ensures x in Recommendations(f) <==>
      (Below(f.avgTemp, 15.0) && x == ColdLine) ||
      (Beyond(f.avgTemp, 30.0) && x == HeatLine) ||
      (f.totalPrecip < 500.0 && x == IrrigationLine) ||
      (f.totalPrecip < 500.0 && x == DroughtVarietyLine) ||
      (f.totalPrecip > 1500.0 && x == DrainageLine) ||
      (f.totalPrecip > 1500.0 && x == FungalLine) ||
      (Beyond(f.frostRisk, 20.0) && x == FrostLine) ||
      (f.droughtIndex > 60.0 && x == WaterLine) ||
      (Beyond(f.heatStressRisk, 30.0) && x == ShadeLine) ||
      (f.crop == Str("Rice") && f.totalPrecip < 800.0 && x == RiceLine) ||
      (f.crop == Str("Wheat") && Beyond(f.avgTemp, 25.0) && x == WheatLine)
  {
  }

  /** `generateClimateRecommendations`. The two-line blocks of the source (low and high
      rainfall) are written as two additions under the same condition. */
  method GenerateClimateRecommendations(avgTemp: Option<real>, totalPrecip: real, frostRisk: Option<real>,
                                        droughtIndex: real, heatStressRisk: Option<real>, crop: Value)
    returns (lines: seq<string>)
    ensures lines == Recommendations(Figures(avgTemp, totalPrecip, frostRisk, droughtIndex, heatStressRisk, crop))
  {
    lines := if Below(avgTemp, 15.0) then [ColdLine] else [];
    lines := lines + (if Beyond(avgTemp, 30.0) then [HeatLine] else []);
    lines := lines + (if totalPrecip < 500.0 then [IrrigationLine] else []);
    lines := lines + (if totalPrecip < 500.0 then [DroughtVarietyLine] else []);
    lines := lines + (if totalPrecip > 1500.0 then [DrainageLine] else []);
    lines := lines + (if totalPrecip > 1500.0 then [FungalLine] else []);
    lines := lines + (if Beyond(frostRisk, 20.0) then [FrostLine] else []);
    lines := lines + (if droughtIndex > 60.0 then [WaterLine] else []);
    lines := lines + (if Beyond(heatStressRisk, 30.0) then [ShadeLine] else []);
    lines := lines + (if crop == Str("Rice") && totalPrecip < 800.0 then [RiceLine] else []);
    lines := lines + (if crop == Str("Wheat") && Beyond(avgTemp, 25.0) then [WheatLine] else []);
  }

  /** Low rainfall and high rainfall each add their two lines, and never both pairs: each
      of the four lines is present exactly when its threshold is crossed. */
  lemma RainfallLinesExclusive(f: Figures)
    ensures var r := Recommendations(f);
      (IrrigationLine in r <==> f.totalPrecip < 500.0) &&
      (DroughtVarietyLine in r <==> f.totalPrecip < 500.0) &&
      (DrainageLine in r <==> f.totalPrecip > 1500.0) &&
      (FungalLine in r <==> f.totalPrecip > 1500.0) &&
      !(IrrigationLine in r && DrainageLine in r)
  {
    LinesDistinct();
    RecommendationMembership(f, IrrigationLine);
    RecommendationMembership(f, DroughtVarietyLine);
    RecommendationMembership(f, DrainageLine);
    RecommendationMembership(f, FungalLine);
  }

  /** The result of `performClimateAnalysis`, before the display rounding. `None` is the NaN
      an empty history or a NaN temperature gives. */
  datatype ClimateAnalysis = ClimateAnalysis(
    averageTemperature: Option<real>, totalPrecipitation: real, growingDegreeDays: Option<real>,
    frostRisk: Option<real>, droughtIndex: real, heatStressRisk: Option<real>,
    optimalPlantingWindow: Window, recommendations: seq<string>)

  /** What `performClimateAnalysis` answers for a history: the mean temperature (NaN for no
      days or a NaN day), the total precipitation, the growing degree days over the crop's base, the
      shares of frost and heat-stress days, the drought index, the planting window and the
      recommendations for those figures. `crop` is the request's crop value, read as a table
      key by its text and compared with `===` by the crop-specific checks. */
  ghost predicate Summarises(a: ClimateAnalysis, days: seq<Day>, crop: Value, latitude: Value, year: int) {
    var temps := Temperatures(days);
    a.averageTemperature == Mean(temps) &&
    a.totalPrecipitation == Sum(Precipitations(days)) &&
    a.growingDegreeDays == GrowingDegreeDays(temps, BaseTemperature(TextOf(crop))) &&
    a.frostRisk == Percent(CountBelow(temps, 2.0), |days|) &&
    a.heatStressRisk == Percent(CountAbove(temps, 35.0), |days|) &&
    a.droughtIndex == DroughtIndex(a.totalPrecipitation) &&
    a.optimalPlantingWindow == PlantingWindow(TextOf(crop), latitude, year) &&
    a.recommendations == Recommendations(Figures(a.averageTemperature, a.totalPrecipitation,
                                                 a.frostRisk, a.droughtIndex, a.heatStressRisk, crop))
  }

  /** `performClimateAnalysis`. */
  method PerformClimateAnalysis(days: seq<Day>, crop: Value, latitude: Value, year: int)
    returns (a: ClimateAnalysis)
    ensures Summarises(a, days, crop, latitude, year)
  {
    var temps := Temperatures(days);
    var averageTemperature := Mean(temps);
    var totalPrecipitation := Sum(Precipitations(days));
    var growingDegreeDays := GrowingDegreeDays(temps, BaseTemperature(TextOf(crop)));
    var frostRisk := Percent(CountBelow(temps, 2.0), |days|);
    var droughtIndex := DroughtIndex(totalPrecipitation);
    var heatStressRisk := Percent(CountAbove(temps, 35.0), |days|);
    var window := PlantingWindow(TextOf(crop), latitude, year);
    var recommendations := GenerateClimateRecommendations(averageTemperature, totalPrecipitation,
                                                          frostRisk, droughtIndex, heatStressRisk, crop);
    a := ClimateAnalysis(averageTemperature, totalPrecipitation, growingDegreeDays, frostRisk,
                         droughtIndex, heatStressRisk, window, recommendations);
  }

  /** The sum of days' precipitation is non-negative when each day's is. */
  lemma {:induction false} SumNonNegative(xs: seq<real>)
    requires forall i :: 0 <= i < |xs| ==> xs[i] >= 0.0
    ensures Sum(xs) >= 0.0
  {
    if xs != [] {
      SumNonNegative(xs[..|xs| - 1]);
    }
  }

  /** The risk figures are percentages of the days (NaN only for an empty history), the mean
      is NaN exactly for no days or a NaN day, growing degree days are NaN exactly for a NaN
      day and otherwise never negative, and the drought index lies in [0, 100] whenever no
      day has negative precipitation. */
  lemma AnalysisBounds(days: seq<Day>, crop: Value, latitude: Value, year: int, a: ClimateAnalysis)
    requires Summarises(a, days, crop, latitude, year)
    ensures a.frostRisk.None? <==> days == []
    ensures a.frostRisk.Some? ==> 0.0 <= a.frostRisk.value <= 100.0
    ensures a.heatStressRisk.Some? ==> 0.0 <= a.heatStressRisk.value <= 100.0
    ensures a.averageTemperature.None? <==> days == [] || exists i :: 0 <= i < |days| && days[i].avg.None?
    ensures a.growingDegreeDays.None? <==> exists i :: 0 <= i < |days| && days[i].avg.None?
    ensures a.growingDegreeDays.Some? ==> a.growingDegreeDays.value >= 0.0
    ensures a.droughtIndex >= 0.0
    ensures (forall i :: 0 <= i < |days| ==> days[i].precipitation >= 0.0) ==> a.droughtIndex <= 100.0
  {
    var temps := Temperatures(days);
    PercentRange(CountBelow(temps, 2.0), |days|);
    PercentRange(CountAbove(temps, 35.0), |days|);
    GrowingDegreeDaysRange(temps, BaseTemperature(TextOf(crop)));
    if forall i :: 0 <= i < |days| ==> days[i].precipitation >= 0.0 {
      SumNonNegative(Precipitations(days));
    }
  }

  /** Figures with a NaN mean and no frost or heat-stress days give none of the
      temperature-driven lines. */
  lemma NaNTemperatureLines(f: Figures)
    requires f.avgTemp.None? && f.frostRisk == Some(0.0) && f.heatStressRisk == Some(0.0)
    ensures ColdLine !in Recommendations(f) && HeatLine !in Recommendations(f)
    ensures FrostLine !in Recommendations(f) && ShadeLine !in Recommendations(f)
    ensures WheatLine !in Recommendations(f)
  {
    LinesDistinct();
    RecommendationMembership(f, ColdLine);
    RecommendationMembership(f, HeatLine);
    RecommendationMembership(f, FrostLine);
    RecommendationMembership(f, ShadeLine);
    RecommendationMembership(f, WheatLine);
  }

  /** Over days whose temperatures are all NaN, the mean and the growing degree days are
      NaN and no day counts as a frost or heat-stress day. */
  lemma NaNTemperatures(temps: seq<Option<real>>, base: real)
    requires temps != [] && forall i :: 0 <= i < |temps| ==> temps[i].None?
    ensures Mean(temps).None? && GrowingDegreeDays(temps, base).None?
    ensures Percent(CountBelow(temps, 2.0), |temps|) == Some(0.0)
    ensures Percent(CountAbove(temps, 35.0), |temps|) == Some(0.0)
  {
    assert temps[0].None?;
    GrowingDegreeDaysRange(temps, base);
    NaNDaysUncounted(temps, 2.0);
    NaNDaysUncounted(temps, 35.0);
  }

  /** A non-empty history whose temperatures are all NaN (what a truthy non-numeric latitude
      gives): the mean and the growing degree days are NaN, the frost and heat-stress risks
      are 0, and no temperature-driven recommendation is given. */
  lemma NaNHistoryAnalysis(days: seq<Day>, crop: Value, latitude: Value, year: int, a: ClimateAnalysis)
    requires Summarises(a, days, crop, latitude, year)
    requires days != [] && forall i :: 0 <= i < |days| ==> days[i].avg.None?
    ensures a.averageTemperature.None? && a.growingDegreeDays.None?
    ensures a.frostRisk == Some(0.0) && a.heatStressRisk == Some(0.0)
    ensures ColdLine !in a.recommendations && HeatLine !in a.recommendations
    ensures FrostLine !in a.recommendations && ShadeLine !in a.recommendations
    ensures WheatLine !in a.recommendations
  {
    var temps := Temperatures(days);
    NaNTemperatures(temps, BaseTemperature(TextOf(crop)));
    NaNTemperatureLines(Figures(a.averageTemperature, a.totalPrecipitation, a.frostRisk,
                                a.droughtIndex, a.heatStressRisk, crop));
  }

  // ---------------------------------------------------------------- alerts

  /** An alert; the message text, which shows the forecast figure, is not modelled. */
  datatype Alert = Alert(kind: string, severity: string, date: string, recommendations: seq<string>)

  function FrostAlert(date: string): Alert {
    Alert("frost_warning", "high", date, ["Cover sensitive plants", "Use frost protection methods"])
  }
  function HeatAlert(date: string): Alert {
    Alert("heat_stress", "high", date, ["Increase irrigation frequency", "Provide shade if possible"])
  }
  function RainAlert(date: string): Alert {
    Alert("heavy_rain", "medium", date, ["Ensure proper drainage", "Delay field operations"])
  }
  function CoolRiceAlert(date: string): Alert {
    Alert("crop_specific", "medium", date, ["Monitor plant development", "Adjust fertilizer timing"])
  }

  /** One day's alerts, its checks in order: frost below a minimum of 2, heat above a maximum
      of 40, heavy rain above 50, and for Rice the cool alert below a minimum of 15. */
  function DayAlerts(day: ForecastDay, crop: Value): seq<Alert> {
    (if Below(day.min, 2.0) then [FrostAlert(day.date)] else []) +
    (if Beyond(day.max, 40.0) then [HeatAlert(day.date)] else []) +
    (if day.precipitation > 50.0 then [RainAlert(day.date)] else []) +
    (if crop == Str("Rice") && Below(day.min, 15.0) then [CoolRiceAlert(day.date)] else [])
  }

  /** A day's alerts carry its date, a frost warning needs its minimum below 2, and only Rice
      gets the crop-specific alert. */
  lemma DayAlertsDated(day: ForecastDay, crop: Value, a: Alert)
    requires a in DayAlerts(day, crop)
    ensures a.date == day.date
    ensures a.kind == "frost_warning" ==> Below(day.min, 2.0)
    ensures a.kind == "crop_specific" ==> crop == Str("Rice")
  {
  }

  /** A day raises each alert whose condition it meets. */
  lemma DayAlertsRaised(day: ForecastDay, crop: Value)
    ensures Below(day.min, 2.0) ==> FrostAlert(day.date) in DayAlerts(day, crop)
    ensures Beyond(day.max, 40.0) ==> HeatAlert(day.date) in DayAlerts(day, crop)
    ensures day.precipitation > 50.0 ==> RainAlert(day.date) in DayAlerts(day, crop)
    ensures crop == Str("Rice") && Below(day.min, 15.0) ==> CoolRiceAlert(day.date) in DayAlerts(day, crop)
  {
  }

  /** The alerts of a run of days, day by day. */
  function AlertsFor(days: seq<ForecastDay>, crop: Value): (r: seq<Alert>)
  {
    if days == [] then []
    else AlertsFor(days[..|days| - 1], crop) + DayAlerts(days[|days| - 1], crop)
  }

  /** A day appended to a run adds its alerts, check by check, after the run's. */
  lemma AlertsForSnoc(days: seq<ForecastDay>, day: ForecastDay, crop: Value)
    ensures AlertsFor(days + [day], crop) == AlertsFor(days, crop) + DayAlerts(day, crop)
  {
    assert (days + [day])[..|days|] == days;
  }

  lemma AppendFour(x: seq<Alert>, a: seq<Alert>, b: seq<Alert>, c: seq<Alert>, d: seq<Alert>)
    ensures x + a + b + c + d == x + (a + b + c + d)
  {
  }

  /** At most four alerts a day. */
  lemma {:induction false} AlertsBound(days: seq<ForecastDay>, crop: Value)
    ensures |AlertsFor(days, crop)| <= 4 * |days|
  {
    if days != [] {
      AlertsBound(days[..|days| - 1], crop);
    }
  }

  /** `Math.min(7, forecast.length)`: how many forecast days are read. */
  function Inspected(n: nat): (k: nat)
    ensures k <= n && k <= 7
    ensures n <= 7 ==> k == n
  {
    if n < 7 then n else 7
  }

  /** `generateWeatherAlerts`, with the forecast given: only the first seven days are read. */
  method GenerateWeatherAlerts(forecast: seq<ForecastDay>, crop: Value) returns (alerts: seq<Alert>)
    ensures alerts == AlertsFor(forecast[..Inspected(|forecast|)], crop)
    ensures |alerts| <= 28
  {
    alerts := [];
    for i := 0 to Inspected(|forecast|)
      invariant alerts == AlertsFor(forecast[..i], crop)
    {
      var day := forecast[i];
      assert forecast[..i + 1] == forecast[..i] + [day];
      AlertsForSnoc(forecast[..i], day, crop);
      ghost var before := alerts;
      AppendFour(before, if Below(day.min, 2.0) then [FrostAlert(day.date)] else [],
                 if Beyond(day.max, 40.0) then [HeatAlert(day.date)] else [],
                 if day.precipitation > 50.0 then [RainAlert(day.date)] else [],
                 if crop == Str("Rice") && Below(day.min, 15.0) then [CoolRiceAlert(day.date)] else []);
      alerts := alerts + (if Below(day.min, 2.0) then [FrostAlert(day.date)] else []);
      alerts := alerts + (if Beyond(day.max, 40.0) then [HeatAlert(day.date)] else []);
      alerts := alerts + (if day.precipitation > 50.0 then [RainAlert(day.date)] else []);
      alerts := alerts + (if crop == Str("Rice") && Below(day.min, 15.0) then [CoolRiceAlert(day.date)] else []);
      assert alerts == before + DayAlerts(day, crop);
    }
    AlertsBound(forecast[..Inspected(|forecast|)], crop);
  }

  /** Every alert is dated on one of the days read, and a frost warning only on a day whose
      minimum is below 2. */
  lemma {:induction false} AlertsComeFromDays(days: seq<ForecastDay>, crop: Value)
    ensures forall a :: a in AlertsFor(days, crop) ==> exists i :: 0 <= i < |days| && days[i].date == a.date
    ensures forall a :: a in AlertsFor(days, crop) && a.kind == "frost_warning" ==>
      exists i :: 0 <= i < |days| && days[i].date == a.date && Below(days[i].min, 2.0)
  {
    if days != [] {
      var init, last := days[..|days| - 1], days[|days| - 1];
      AlertsComeFromDays(init, crop);
      forall a | a in AlertsFor(days, crop)
        ensures exists i :: 0 <= i < |days| && days[i].date == a.date
        ensures a.kind == "frost_warning" ==> exists i :: 0 <= i < |days| && days[i].date == a.date && Below(days[i].min, 2.0)
      {
        if a in AlertsFor(init, crop) {
          var i :| 0 <= i < |init| && init[i].date == a.date;
          assert days[i] == init[i];
          if a.kind == "frost_warning" {
            var j :| 0 <= j < |init| && init[j].date == a.date && Below(init[j].min, 2.0);
            assert days[j] == init[j];
          }
        } else {
          DayAlertsDated(last, crop, a);
        }
      }
    }
  }

  /** A day raises a frost warning when its minimum is below 2, a heat warning when its
      maximum is above 40, a heavy-rain alert when it has more than 50 of rain, and, for
      Rice only, the cool-temperature alert when its minimum is below 15. */
  lemma {:induction false} DaysRaiseAlerts(days: seq<ForecastDay>, crop: Value, i: nat)
    requires i < |days|
    ensures Below(days[i].min, 2.0) ==> FrostAlert(days[i].date) in AlertsFor(days, crop)
    ensures Beyond(days[i].max, 40.0) ==> HeatAlert(days[i].date) in AlertsFor(days, crop)
    ensures days[i].precipitation > 50.0 ==> RainAlert(days[i].date) in AlertsFor(days, crop)
    ensures crop == Str("Rice") && Below(days[i].min, 15.0) ==> CoolRiceAlert(days[i].date) in AlertsFor(days, crop)
  {
    var init := days[..|days| - 1];
    if i < |init| {
      DaysRaiseAlerts(init, crop, i);
      assert init[i] == days[i];
    } else {
      DayAlertsRaised(days[i], crop);
    }
  }

  /** Only Rice gets the crop-specific alert. */
  lemma {:induction false} CropAlertOnlyForRice(days: seq<ForecastDay>, crop: Value)
    requires crop != Str("Rice")
    ensures forall a :: a in AlertsFor(days, crop) ==> a.kind != "crop_specific"
  {
    if days != [] {
      CropAlertOnlyForRice(days[..|days| - 1], crop);
      forall a | a in DayAlerts(days[|days| - 1], crop) ensures a.kind != "crop_specific" {
        DayAlertsDated(days[|days| - 1], crop, a);
      }
    }
  }

  // ---------------------------------------------------------------- handlers

  /** The guard of every weather handler: 401 without a valid token, then 400 unless both
      coordinates are truthy, so a latitude or longitude of exactly 0 is refused. On success,
      the caller's id. */
  function Guard(authorization: string, verify: string -> Option<string>, body: Doc): (r: Reply<string>)
    ensures r.Ok? || r.Error?
    ensures r.Ok? <==> RequireUser(authorization, verify).Some? &&
                       Truthy(Get(body, "latitude")) && Truthy(Get(body, "longitude"))
    ensures r.Ok? ==> r.body == RequireUser(authorization, verify).value
    ensures RequireUser(authorization, verify).None? ==> r == Error(401, Unauthorized)
  {
    match RequireUser(authorization, verify)
    case None => Error(401, Unauthorized)
    case Some(id) =>
      if !Truthy(Get(body, "latitude")) || !Truthy(Get(body, "longitude")) then
        Error(400, "Latitude and longitude required")
      else Ok(id)
  }

  /** A coordinate of 0 is refused even with a valid token. */
  lemma ZeroCoordinateRefused(authorization: string, verify: string -> Option<string>, body: Doc)
    requires RequireUser(authorization, verify).Some?
    requires Get(body, "latitude") == Num(0.0) || Get(body, "longitude") == Num(0.0)
    ensures Guard(authorization, verify, body) == Error(400, "Latitude and longitude required")
  {
  }

  /** `cropType || "Rice"`. */
  function CropOr(crop: Value): (r: Value)
    ensures Truthy(r)
  {
    if Truthy(crop) then crop else Str("Rice")
  }

  /** `getWeatherForecast`, the simulated forecast given. */
  function WeatherForecast(authorization: string, verify: string -> Option<string>, body: Doc,
                           forecast: seq<ForecastDay>): (r: Reply<seq<ForecastDay>>)
    ensures r.Ok? <==> Guard(authorization, verify, body).Ok?
    ensures r.Ok? ==> r.body == forecast
    ensures r.Error? ==> r == Error(Guard(authorization, verify, body).status, Guard(authorization, verify, body).message)
  {
    match Guard(authorization, verify, body)
    case Ok(_) => Ok(forecast)
    case Error(status, message) => Error(status, message)
    case Crash(reason) => Crash(reason)
  }

  /** `getWeatherAlerts`, the simulated forecast given. */
  method WeatherAlerts(authorization: string, verify: string -> Option<string>, body: Doc,
                       forecast: seq<ForecastDay>) returns (reply: Reply<seq<Alert>>)
    ensures var g := Guard(authorization, verify, body);
      g.Error? ==> reply == Error(g.status, g.message)
    ensures Guard(authorization, verify, body).Ok? ==>
      reply == Ok(AlertsFor(forecast[..Inspected(|forecast|)], CropOr(Get(body, "cropType"))))
  {
    var guard := Guard(authorization, verify, body);
    if guard.Error? {
      return Error(guard.status, guard.message);
    }
    var alerts := GenerateWeatherAlerts(forecast, CropOr(Get(body, "cropType")));
    reply := Ok(alerts);
  }

  const WeatherCollection: string := "weather_data"
  const AnalysesCollection: string := "climate_analysis"

  /** `getHistoricalWeather` on the in-memory store: past the guard, `collection("weather_data")`
      creates the collection, and the store has no `insertMany`, so the call throws and the
      handler answers 500. Nothing is stored. */
  method HistoricalWeather(db: MemoryDb, authorization: string, verify: string -> Option<string>, body: Doc)
    returns (reply: Reply<seq<Day>>)
    modifies db
    ensures Guard(authorization, verify, body).Error? ==>
      reply == Error(Guard(authorization, verify, body).status, Guard(authorization, verify, body).message) &&
      db.collections == old(db.collections)
    ensures Guard(authorization, verify, body).Ok? ==>
      reply == Error(500, "insertMany is not a function") &&
      db.collections == old(db.collections)[WeatherCollection := old(db.Docs(WeatherCollection))]
  {
    var guard := Guard(authorization, verify, body);
    if guard.Error? {
      return Error(guard.status, guard.message);
    }
    db.Touch(WeatherCollection);
    reply := Error(500, "insertMany is not a function");
  }

  /** A possibly-NaN number as a `Value`. NaN has no `Value`, so where the source's record
      holds NaN the model holds null (the JSON answer shows NaN as null too). NaN arises for
      an empty history and for NaN temperatures, which a truthy non-numeric latitude gives. */
  function NumberValue(x: Option<real>): Value {
    if x.Some? then Num(x.value) else Null
  }

  /** The analysis object as stored in `climate_analysis`. */
  function AnalysisValue(a: ClimateAnalysis): Value {
    Obj(map["averageTemperature" := NumberValue(a.averageTemperature),
            "totalPrecipitation" := Num(a.totalPrecipitation),
            "growingDegreeDays" := NumberValue(a.growingDegreeDays),
            "frostRisk" := NumberValue(a.frostRisk),
            "droughtIndex" := Num(a.droughtIndex),
            "heatStressRisk" := NumberValue(a.heatStressRisk),
            "optimalPlantingWindow" := Obj(map["start" := Str(a.optimalPlantingWindow.start),
                                               "end" := Str(a.optimalPlantingWindow.end)]),
            "recommendations" := Texts(a.recommendations)])
  }

  /** The record `analyzeClimate` stores. */
  function AnalysisRecord(userId: string, body: Doc, a: ClimateAnalysis, now: int): Doc {
    map["userId" := Str(userId), "location" := Location(Get(body, "latitude"), Get(body, "longitude")),
        "cropType" := CropOr(Get(body, "cropType")),
        "timeRange" := OrDefault(Get(body, "timeRange"), Str("1y")),
        "analysis" := AnalysisValue(a), "createdAt" := Time(now)]
  }

  /** `analyzeClimate`, the simulated history given: past the guard, the analysis of the
      history for the crop (Rice by default) is stored for the caller and answered. */
  method AnalyzeClimate(db: MemoryDb, authorization: string, verify: string -> Option<string>, body: Doc,
                        history: seq<Day>, year: int, now: int, generated: string)
    returns (reply: Reply<ClimateAnalysis>)
    modifies db
    ensures var g := Guard(authorization, verify, body);
      g.Error? ==> reply == Error(g.status, g.message) && db.collections == old(db.collections)
    ensures var g := Guard(authorization, verify, body);
      g.Ok? ==>
        reply.Ok? &&
        Summarises(reply.body, history, CropOr(Get(body, "cropType")), Get(body, "latitude"), year) &&
        db.collections == old(db.collections)[AnalysesCollection :=
          InsertIn(old(db.Docs(AnalysesCollection)), AnalysisRecord(g.body, body, reply.body, now), generated)]
  {
    var guard := Guard(authorization, verify, body);
    if guard.Error? {
      return Error(guard.status, guard.message);
    }
    var crop := CropOr(Get(body, "cropType"));
    var analysis := PerformClimateAnalysis(history, crop, Get(body, "latitude"), year);
    var _ := db.InsertOne(AnalysesCollection, AnalysisRecord(guard.body, body, analysis, now), generated);
    reply := Ok(analysis);
  }
}
