/**
 * The legacy front-end's `DashboardManager`: it keeps the latest KPI figures
 * in its own fields and rewrites them as each server response is processed.
 * Charts, timers and the server calls are not modelled; the responses are
 * parameters.
 */
module DashboardManagerJs {
  import opened Wrappers
  import opened Seqs
  import opened Strings
  import opened QualityTrend
  import opened Dashboard

  /** How one per-line efficiency request ended. */
  datatype EfficiencyOutcome =
    | Rejected
    | FulfilledWithout
    | Fulfilled(oee: real)   // a missing or zero `oee` inside the object reads as 0

  predicate HasEfficiency(o: EfficiencyOutcome) { o.Fulfilled? }

  function Oee(o: EfficiencyOutcome): real {
    if o.Fulfilled? then o.oee else 0.0
  }

  /** The `oee` of the fulfilled responses that carry an efficiency object, in line order. */
  function ValidEfficiencies(outcomes: seq<EfficiencyOutcome>): seq<real> {
    Map(Filter(outcomes, HasEfficiency), Oee)
  }

  /**
   * `getOverallEfficiency`: the mean `oee` over the usable responses, 0 when
   * there are none or when the list of lines could not be fetched (`None`).
   */
  function OverallEfficiency(outcomes: Option<seq<EfficiencyOutcome>>): real {
    match outcomes
    case None => 0.0
    case Some(os) =>
      var valid := ValidEfficiencies(os);
      if |valid| > 0 then Sum(valid) / |valid| as real else 0.0
  }

  /**
   * The overall efficiency is the arithmetic mean of the usable values:
   * times their number it is their sum; rejected requests and responses
   * without an efficiency object are not counted; with every `oee` between
   * 0 and 1, so is the mean.
   */
  lemma OverallEfficiencySpec(os: seq<EfficiencyOutcome>)
    ensures var valid := ValidEfficiencies(os);
      && |valid| == Count(os, HasEfficiency)
      && OverallEfficiency(Some(os)) * |valid| as real == Sum(valid)
      && ((forall k :: 0 <= k < |os| && os[k].Fulfilled? ==> 0.0 <= os[k].oee <= 1.0) ==>
            0.0 <= OverallEfficiency(Some(os)) <= 1.0)
  {
    var valid := ValidEfficiencies(os);
    FilterSpec(os, HasEfficiency);
    MeanFacts(valid);
    if forall k :: 0 <= k < |os| && os[k].Fulfilled? ==> 0.0 <= os[k].oee <= 1.0 {
      forall i | 0 <= i < |valid| ensures 0.0 <= valid[i] <= 1.0 {
        var o := Filter(os, HasEfficiency)[i];
        assert o in os;
      }
    }
  }

  /** The mean of a list of reals, 0 for none, times their number is their sum; fractions have a fractional mean. */
  lemma MeanFacts(valid: seq<real>)
    ensures (if |valid| > 0 then Sum(valid) / |valid| as real else 0.0) * |valid| as real == Sum(valid)
    ensures (forall i :: 0 <= i < |valid| ==> 0.0 <= valid[i] <= 1.0) ==>
      0.0 <= (if |valid| > 0 then Sum(valid) / |valid| as real else 0.0) <= 1.0
  {
    if forall i :: 0 <= i < |valid| ==> 0.0 <= valid[i] <= 1.0 {
      SumBounded(valid, 0.0, 1.0);
      if |valid| > 0 {
        DivAtMostOne(Sum(valid), |valid| as real);
      }
    }
  }

  /** `processEquipmentEfficiency`: the `oee` as a rounded percentage, 0 when it is missing. */
  function EfficiencyPercent(oee: Option<real>): int {
    match oee
    case None => 0
    case Some(x) => if x != 0.0 then Round(x * 100.0) else 0
  }

  /** An `oee` between 0 and 1 gives a percentage between 0 and 100. */
  lemma EfficiencyPercentBounded(oee: Option<real>)
    requires oee.Some? ==> 0.0 <= oee.value <= 1.0
    ensures 0 <= EfficiencyPercent(oee) <= 100
  {
  }

  class DashboardManager {
    var efficiency: Option<int>
    var activeOrders: Option<int>
    var productionTrend: Option<int>
    var qualityTrend: Option<QualityTrendData>
    var equipmentStatus: Option<EquipmentStatus>
    var autoRefresh: bool

    /** A manager before any data has arrived; auto refresh starts switched off. */
    constructor ()
      ensures efficiency == None && activeOrders == None && productionTrend == None
      ensures qualityTrend == None && equipmentStatus == None && !autoRefresh
    {
      efficiency := None;
      activeOrders := None;
      productionTrend := None;
      qualityTrend := None;
      equipmentStatus := None;
      autoRefresh := false;
    }

    /** `processQualityTrend`: the trend of the response becomes the stored trend; nothing else changes. */
    method ProcessQualityTrend(trend: seq<TrendItem>)
      modifies this
      ensures qualityTrend.Some?
      ensures var q := qualityTrend.value;
        && StrictlySorted(q.labels)
        && (forall d :: d in q.labels <==> d in Dates(trend))
        && |q.passRates| == |q.labels| && |q.failRates| == |q.labels|
        && forall i :: 0 <= i < |q.labels| ==>
             q.passRates[i] == PassRate(DateTally(trend, q.labels[i]))
             && q.failRates[i] == FailRate(DateTally(trend, q.labels[i]))
      ensures efficiency == old(efficiency) && activeOrders == old(activeOrders)
      ensures productionTrend == old(productionTrend) && equipmentStatus == old(equipmentStatus)
      ensures autoRefresh == old(autoRefresh)
    {
      var q := QualityTrend.ProcessQualityTrend(trend);
      qualityTrend := Some(q);
    }

    /** `processEquipmentEfficiency` */
    method ProcessEquipmentEfficiency(oee: Option<real>)
      modifies this
      ensures efficiency == Some(EfficiencyPercent(oee))
      ensures activeOrders == old(activeOrders) && productionTrend == old(productionTrend)
      ensures qualityTrend == old(qualityTrend) && equipmentStatus == old(equipmentStatus)
      ensures autoRefresh == old(autoRefresh)
    {
      efficiency := Some(EfficiencyPercent(oee));
    }

    /** `processWorkOrders`: the active-order count and the production ratio. */
    method ProcessWorkOrders(orders: seq<WorkOrder>)
      modifies this
      ensures activeOrders == Some(ActiveOrders(orders))
      ensures productionTrend == Some(ProductionPercent(orders))
      ensures efficiency == old(efficiency) && qualityTrend == old(qualityTrend)
      ensures equipmentStatus == old(equipmentStatus) && autoRefresh == old(autoRefresh)
    {
      activeOrders := Some(ActiveOrders(orders));
      productionTrend := Some(ProductionPercent(orders));
    }

    /** `processManufacturingLines`: one pass over the lines, each counted as active. */
    method ProcessManufacturingLines(lineCount: nat)
      modifies this
      ensures equipmentStatus == Some(EquipmentStatusOf(lineCount))
      ensures efficiency == old(efficiency) && activeOrders == old(activeOrders)
      ensures productionTrend == old(productionTrend) && qualityTrend == old(qualityTrend)
      ensures autoRefresh == old(autoRefresh)
    {
      var counts := EquipmentStatus(0, 0, 0, 0);
      for k := 0 to lineCount
        invariant counts == EquipmentStatus(k, 0, 0, 0)
      {
        counts := counts.(active := counts.active + 1);
      }
      equipmentStatus := Some(counts);
    }

    /**
     * `calculateQualityRate`: 0 without pass rates, else their rounded mean.
     * It is only ever called once a trend has been processed.
     */
    function CalculateQualityRate(): (r: int)
      reads this
      requires qualityTrend.Some?
      ensures (forall i :: 0 <= i < |qualityTrend.value.passRates| ==> 0.0 <= qualityTrend.value.passRates[i] <= 100.0)
        ==> 0 <= r <= 100
      ensures qualityTrend.value.passRates == [] ==> r == 0
    {
      var rates := qualityTrend.value.passRates;
      QualityRateBounded(rates);
      QualityRate(rates)
    }

    /** `toggleAutoRefresh`: flips the flag; two toggles restore it. */
    method ToggleAutoRefresh()
      modifies this
      ensures autoRefresh == !old(autoRefresh)
      ensures efficiency == old(efficiency) && activeOrders == old(activeOrders)
      ensures productionTrend == old(productionTrend) && qualityTrend == old(qualityTrend)
      ensures equipmentStatus == old(equipmentStatus)
    {
      autoRefresh := !autoRefresh;
    }
  }
}
