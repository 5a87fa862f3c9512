/**
 * Dashboard KPIs of the Next.js front-end (`useDashboard`), and the work-order
 * and equipment figures it shares with the legacy dashboard manager:
 * active orders, the production ratio, the equipment-status buckets and
 * the quality rate.
 */
module Dashboard {
  import opened Seqs
  import opened Strings
  import opened QualityTrend

  /**
   * A work order. A missing or zero quantity reads as 0 in every sum, so
   * quantities are plain numbers here with 0 for "missing".
   */
  datatype WorkOrder = WorkOrder(status: string, plannedQuantity: real, actualQuantity: real)

  /** The four equipment-status buckets. */
  datatype EquipmentStatus = EquipmentStatus(active: nat, maintenance: nat, idle: nat, error: nat)

  datatype DashboardData = DashboardData(efficiency: string, qualityRate: string, activeOrders: nat, productionTrend: string)

  predicate IsActive(o: WorkOrder) {
    o.status == "in_progress" || o.status == "planned"
  }

  predicate IsCompleted(o: WorkOrder) {
    o.status == "completed"
  }

  /** Orders in progress or planned. */
  function ActiveOrders(orders: seq<WorkOrder>): nat {
    Count(orders, IsActive)
  }

  function CompletedOrders(orders: seq<WorkOrder>): nat {
    Count(orders, IsCompleted)
  }

  /** An order is never both active and completed, so the two counts fit within the orders. */
  lemma {:induction false} OrderCountsDisjoint(orders: seq<WorkOrder>)
    ensures ActiveOrders(orders) + CompletedOrders(orders) <= |orders|
  {
    if orders != [] {
      OrderCountsDisjoint(orders[..|orders| - 1]);
    }
  }

  /** Planned quantity over every order. */
  function TotalPlanned(orders: seq<WorkOrder>): real {
    if orders == [] then 0.0
    else TotalPlanned(orders[..|orders| - 1]) + orders[|orders| - 1].plannedQuantity
  }

  /** Actual quantity over the completed orders only. */
  function TotalActual(orders: seq<WorkOrder>): real {
    if orders == [] then 0.0
    else
      var last := orders[|orders| - 1];
      TotalActual(orders[..|orders| - 1]) + (if IsCompleted(last) then last.actualQuantity else 0.0)
  }

  /** Quantities that make sense: nothing negative, and no completed order over its plan. */
  predicate Plausible(o: WorkOrder) {
    0.0 <= o.plannedQuantity && 0.0 <= o.actualQuantity
    && (IsCompleted(o) ==> o.actualQuantity <= o.plannedQuantity)
  }

  lemma {:induction false} TotalActualWithinPlanned(orders: seq<WorkOrder>)
    requires forall k :: 0 <= k < |orders| ==> Plausible(orders[k])
    ensures 0.0 <= TotalActual(orders) <= TotalPlanned(orders)
  {
    if orders != [] {
      TotalActualWithinPlanned(orders[..|orders| - 1]);
    }
  }

  /** The production ratio in percent, rounded; 0 when nothing is planned. */
  function ProductionPercent(orders: seq<WorkOrder>): int {
    var planned := TotalPlanned(orders);
    if planned > 0.0 then Round(TotalActual(orders) / planned * 100.0) else 0
  }

  /** With plausible quantities the production ratio is a percentage. */
  lemma ProductionPercentBounded(orders: seq<WorkOrder>)
    requires forall k :: 0 <= k < |orders| ==> Plausible(orders[k])
    ensures 0 <= ProductionPercent(orders) <= 100
  {
    TotalActualWithinPlanned(orders);
    var planned := TotalPlanned(orders);
    if planned > 0.0 {
      DivAtMostOne(TotalActual(orders), planned);
    }
  }

  /** `productionTrend` of the hook: the percentage followed by `%`, and "0%" when nothing is planned. */
  function ProductionTrend(orders: seq<WorkOrder>): string {
    if TotalPlanned(orders) > 0.0 then IntToString(ProductionPercent(orders)) + "%" else "0%"
  }

  /** The hook's text is always the legacy manager's number followed by `%`. */
  lemma ProductionTrendIsPercent(orders: seq<WorkOrder>)
    ensures ProductionTrend(orders) == IntToString(ProductionPercent(orders)) + "%"
  {
    if TotalPlanned(orders) <= 0.0 {
      assert IntToString(0) == "0";
    }
  }

  /** `processEquipmentStatus`: every line counts as active. */
  function EquipmentStatusOf(lineCount: nat): (r: EquipmentStatus)
    ensures r.active + r.maintenance + r.idle + r.error == lineCount
    ensures r.maintenance == 0 && r.idle == 0 && r.error == 0
  {
    EquipmentStatus(lineCount, 0, 0, 0)
  }

  /**
   * `processDashboardData`: the quality rate is the rounded mean of the
   * trend's pass rates (between 0 and 100), the order figures come from the
   * work orders, and the efficiency is not available.
   */
  method ProcessDashboardData(trend: seq<TrendItem>, orders: seq<WorkOrder>) returns (data: DashboardData, qualityRate: int)
    ensures qualityRate == QualityRate(PassRatesOf(trend))
    ensures 0 <= qualityRate <= 100
    ensures data.efficiency == "N/A"
    ensures data.qualityRate == IntToString(qualityRate) + "%"
    ensures data.activeOrders == ActiveOrders(orders)
    ensures data.productionTrend == ProductionTrend(orders)
  {
    var activeOrders := ActiveOrders(orders);
    var q := ProcessQualityTrend(trend);
    TrendQualityRateBounded(trend, q);
    TrendPassRates(trend, q);
    qualityRate := QualityRate(q.passRates);
    data := DashboardData("N/A", IntToString(qualityRate) + "%", activeOrders, ProductionTrend(orders));
  }
}
