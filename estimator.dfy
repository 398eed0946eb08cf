/** The client's carbon-credit estimator (`CarbonEstimator.tsx`): the yearly sequestration
    formula, the six-year projection, and the offline queue of saved entries kept in local
    storage until the browser is online again. The online status, the generated id and the
    clock are parameters. */
module Estimator {
  import opened Values

  /** The estimator's form. `system` is the selected farming system's name. */
  datatype EstimatorInput = EstimatorInput(areaHa: real, system: string, soilSOC: real, treeCover: real,
                                           rainfall: real)

  datatype Point = Point(year: nat, credits: real)

  datatype Estimate = Estimate(yearly: real, current: real, projection: seq<Point>)

  /** 0.9 for agroforestry, 0.4 for any other system. */
  function TreeFactor(system: string): real {
    if system == "Agroforestry" then 0.9 else 0.4
  }

  /** Rainfall per 1000 mm, clamped to [0.8, 1.2]. */
  function MoistureAdj(rainfall: real): real {
    Min(1.2, Max(0.8, rainfall / 1000.0))
  }

  /** One minus the distance of the soil carbon from 35 t/ha, per 100, clamped to [0.7, 1.1]. */
  function SocAdj(soilSOC: real): real {
    Min(1.1, Max(0.7, 1.0 - Abs(soilSOC - 35.0) / 100.0))
  }

  function CanopyAdj(treeCover: real): real {
    0.6 + treeCover / 100.0 * 0.8
  }

  /** The yearly sequestration, tCO2e for the whole farm. */
  function Yearly(input: EstimatorInput): real {
    TreeFactor(input.system) * MoistureAdj(input.rainfall) * SocAdj(input.soilSOC) *
    CanopyAdj(input.treeCover) * input.areaHa
  }

  /** The share of the yearly amount credited in a year: 0.15 plus 0.17 a year, at most 1. */
  function Ramp(year: nat): real {
    Min(1.0, 0.15 + year as real * 0.17)
  }

  /** A credit amount rounded to one decimal, as `Math.round(x * 10) / 10`. */
  function OneDecimal(x: real): real {
    Round(x * 10.0) as real / 10.0
  }

  /** `estimateCredits`. */
  function EstimateCredits(input: EstimatorInput): Estimate {
    var yearly := Yearly(input);
    var projection := seq(6, i requires 0 <= i < 6 => Point(i, OneDecimal(yearly * Ramp(i))));
    Estimate(yearly, projection[|projection| - 1].credits, projection)
  }

  /** The moisture factor lies in [0.8, 1.2] and is rainfall / 1000 inside that range; the
      soil-carbon factor lies in [0.7, 1]: the 1.1 cap can never bind, and the factor is 1
      exactly at 35 t/ha. */
  lemma AdjustmentBounds(rainfall: real, soilSOC: real)
    ensures 0.8 <= MoistureAdj(rainfall) <= 1.2
    ensures 800.0 <= rainfall <= 1200.0 ==> MoistureAdj(rainfall) == rainfall / 1000.0
    ensures 0.7 <= SocAdj(soilSOC) <= 1.0
    ensures SocAdj(soilSOC) == 1.0 <==> soilSOC == 35.0
  {
  }

  /** For a farm of non-negative area and a tree cover in [0, 100]%, the yearly amount is
      non-negative and at most the area times the product of the largest factors. */
  lemma YearlyBounds(input: EstimatorInput)
    requires input.areaHa >= 0.0 && 0.0 <= input.treeCover <= 100.0
    ensures 0.0 <= Yearly(input) <= 0.9 * 1.2 * 1.0 * 1.4 * input.areaHa
  {
    var t, m, s, c := TreeFactor(input.system), MoistureAdj(input.rainfall), SocAdj(input.soilSOC),
                      CanopyAdj(input.treeCover);
    AdjustmentBounds(input.rainfall, input.soilSOC);
    assert 0.6 <= c <= 1.4;
    ProductBound(t, 0.9, m, 1.2);
    ProductBound(t * m, 0.9 * 1.2, s, 1.0);
    ProductBound(t * m * s, 0.9 * 1.2 * 1.0, c, 1.4);
    ProductBound(t * m * s * c, 0.9 * 1.2 * 1.0 * 1.4, input.areaHa, input.areaHa);
  }

  lemma ProductBound(a: real, aMax: real, b: real, bMax: real)
    requires 0.0 <= a <= aMax && 0.0 <= b <= bMax
    ensures 0.0 <= a * b <= aMax * bMax
  {
    assert a * b <= aMax * b;
  }

  /** Rounding to one decimal keeps the order of values. */
  lemma OneDecimalMonotone(x: real, y: real)
    requires x <= y
    ensures OneDecimal(x) <= OneDecimal(y)
  {
    assert x * 10.0 <= y * 10.0;
    assert Round(x * 10.0) <= Round(y * 10.0);
  }

  /** Rounding to one decimal moves a value by at most 0.05. */
  lemma OneDecimalClose(x: real)
    ensures x - 0.05 < OneDecimal(x) <= x + 0.05
  {
    var r := Round(x * 10.0);
    assert x * 10.0 - 0.5 < r as real <= x * 10.0 + 0.5;
  }

  /** The projection has one entry per year 0 to 5, each crediting that year's share of the
      yearly amount to one decimal; the current credits are the last year's, which is the
      whole yearly amount to one decimal. */
  lemma ProjectionShape(input: EstimatorInput)
    ensures var e := EstimateCredits(input);
      e.yearly == Yearly(input) && |e.projection| == 6 &&
      (forall i :: 0 <= i < 6 ==> e.projection[i].year == i &&
                                  e.projection[i].credits == OneDecimal(e.yearly * Ramp(i))) &&
      e.current == e.projection[5].credits && e.yearly - 0.05 < e.current <= e.yearly + 0.05
  {
    var e := EstimateCredits(input);
    assert Ramp(5) == 1.0;
    assert e.current == OneDecimal(e.yearly);
    OneDecimalClose(e.yearly);
  }

  /** For a non-negative yearly amount, the credits projected for a year never exceed those
      projected for a later one. */
  lemma CreditsGrow(yearly: real, i: nat, j: nat)
    requires yearly >= 0.0 && i <= j
    ensures OneDecimal(yearly * Ramp(i)) <= OneDecimal(yearly * Ramp(j))
  {
    assert 0.0 <= Ramp(i) <= Ramp(j);
    ProductBound(yearly, yearly, Ramp(i), Ramp(j));
    OneDecimalMonotone(yearly * Ramp(i), yearly * Ramp(j));
  }

  // ---------------------------------------------------------------- offline queue

  /** A saved entry: the form, a generated id and the time it was saved. */
  datatype QueueItem = QueueItem(input: EstimatorInput, id: string, createdAt: int)

  /** The parsed queue; an absent key reads as empty. */
  function Pending(stored: Option<seq<QueueItem>>): seq<QueueItem> {
    if stored.None? then [] else stored.value
  }

  /** The component's local-storage queue and its "synced" counter. `stored` is `None` while
      the storage key is absent. */
  class OfflineQueue {
    var stored: Option<seq<QueueItem>>
    var syncedCount: int

    constructor(stored: Option<seq<QueueItem>>)
      ensures this.stored == stored && syncedCount == 0
    {
      this.stored := stored;
      syncedCount := 0;
    }

    /** `saveEntry`: online, the counter shows one synced entry and the queue is not touched;
        offline, the entry joins the end of the queue, which is created when absent. */
    method SaveEntry(input: EstimatorInput, online: bool, id: string, now: int)
      modifies this
      ensures online ==> stored == old(stored) && syncedCount == 1
      ensures !online ==>
        stored == Some(Pending(old(stored)) + [QueueItem(input, id, now)]) && syncedCount == old(syncedCount)
      ensures !online ==> Pending(stored)[..|Pending(old(stored))|] == Pending(old(stored))
    {
      var item := QueueItem(input, id, now);
      if online {
        syncedCount := 1;
      } else {
        var queue := Pending(stored);
        queue := queue + [item];
        stored := Some(queue);
      }
    }

    /** The sync effect: once online, a non-empty queue is reported as synced, by its length,
        and replaced by an empty one; otherwise nothing changes. Afterwards, online, nothing
        is pending. */
    method Sync(online: bool)
      modifies this
      ensures !online || Pending(old(stored)) == [] ==> stored == old(stored) && syncedCount == old(syncedCount)
      ensures online && Pending(old(stored)) != [] ==>
        stored == Some([]) && syncedCount == |Pending(old(stored))|
      ensures online ==> Pending(stored) == []
    {
      if !online {
        return;
      }
      if stored.None? {
        return;
      }
      var queue := stored.value;
      if |queue| == 0 {
        return;
      }
      syncedCount := |queue|;
      stored := Some([]);
    }
  }
}
