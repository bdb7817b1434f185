/** The dashboard's rollups (frontend/src/components/Dashboard.js): order
    counts by progress, each order's progress, the unit counts of the
    manufacturing, packing and shipping stages, and the order's total cost. */
module Dashboard {
  import opened Common
  import opened Pipeline
  import opened Costs
  import opened ClientOrders
  import OrderModel

  /** The number of completed stages (`filter(... 'completed').length`). */
  function CompletedCount(ss: seq<Stage>): (n: nat)
    ensures n <= |ss|
    ensures n == |ss| <==> forall i :: 0 <= i < |ss| ==> ss[i].status == Completed
    ensures n == 0 <==> forall i :: 0 <= i < |ss| ==> ss[i].status != Completed
  {
    if |ss| == 0 then 0
    else CompletedCount(ss[..|ss| - 1]) + (if ss[|ss| - 1].status == Completed then 1 else 0)
  }

  datatype Bucket = PendingOrders | InProgressOrders | CompletedOrders

  /** The bucket an order with a stage list falls in: no stage completed
      (an empty list included), every stage completed, or anything between. */
  function BucketOf(ss: seq<Stage>): (b: Bucket)
    ensures b == PendingOrders <==> forall i :: 0 <= i < |ss| ==> ss[i].status != Completed
    ensures b == CompletedOrders <==>
      |ss| > 0 && forall i :: 0 <= i < |ss| ==> ss[i].status == Completed
  {
    var completed := CompletedCount(ss);
    if completed == 0 then PendingOrders
    else if completed == |ss| then CompletedOrders
    else InProgressOrders
  }

  /** The number of orders that have a stage list and fall in bucket `b`. */
  function CountIn(orders: seq<ClientOrder>, b: Bucket): (n: nat)
    ensures n <= |orders|
  {
    if |orders| == 0 then 0
    else
      var last := orders[|orders| - 1];
      CountIn(orders[..|orders| - 1], b) + (if last.stages.Some? && BucketOf(last.stages.value) == b then 1 else 0)
  }

  /** The number of orders that have a stage list. */
  function WithStages(orders: seq<ClientOrder>): (n: nat)
    ensures n <= |orders|
  {
    if |orders| == 0 then 0
    else WithStages(orders[..|orders| - 1]) + (if orders[|orders| - 1].stages.Some? then 1 else 0)
  }

  /** Every order with a stage list is counted in exactly one bucket, so the
      buckets never add up to more than the total. */
  lemma {:induction false} BucketsPartitionOrders(orders: seq<ClientOrder>)
    ensures CountIn(orders, PendingOrders) + CountIn(orders, InProgressOrders) + CountIn(orders, CompletedOrders)
            == WithStages(orders) <= |orders|
  {
    if |orders| > 0 {
      BucketsPartitionOrders(orders[..|orders| - 1]);
    }
  }

  datatype Stats = Stats(total: int, pending: int, inProgress: int, completed: int)

  /** `calculateStats`: `ordersData` may be missing (`None`), which counts
      as no orders. */
  method CalculateStats(ordersData: Option<seq<ClientOrder>>) returns (stats: Stats)
    ensures ordersData.None? ==> stats == Stats(0, 0, 0, 0)
    ensures ordersData.Some? ==>
      stats.total == |ordersData.value| &&
      stats.pending == CountIn(ordersData.value, PendingOrders) &&
      stats.inProgress == CountIn(ordersData.value, InProgressOrders) &&
      stats.completed == CountIn(ordersData.value, CompletedOrders)
  {
    stats := Stats(if ordersData.Some? then |ordersData.value| else 0, 0, 0, 0);
    if ordersData.Some? {
      var orders := ordersData.value;
      for i := 0 to |orders|
        invariant stats.total == |orders|
        invariant stats.pending == CountIn(orders[..i], PendingOrders)
        invariant stats.inProgress == CountIn(orders[..i], InProgressOrders)
        invariant stats.completed == CountIn(orders[..i], CompletedOrders)
      {
        assert orders[..i + 1][..i] == orders[..i];
        var order := orders[i];
        if order.stages.Some? {
          var completedStages := CompletedCount(order.stages.value);
          var totalStages := |order.stages.value|;
          if completedStages == 0 {
            stats := stats.(pending := stats.pending + 1);
          } else if completedStages == totalStages {
            stats := stats.(completed := stats.completed + 1);
          } else {
            stats := stats.(inProgress := stats.inProgress + 1);
          }
        }
      }
      assert orders[..|orders|] == orders;
    }
  }

  /** `getOrderProgress`: the share of completed stages in percent, rounded
      half up as `Math.round`; 0 without a stage list or with an empty one. */
  function OrderProgress(order: Option<ClientOrder>): (p: int)
    ensures 0 <= p <= 100
    ensures order.None? || order.value.stages.None? || |order.value.stages.value| == 0 ==> p == 0
    ensures order.Some? && order.value.stages.Some? && |order.value.stages.value| > 0 ==>
      var ss := order.value.stages.value;
      -|ss| < 2 * (p * |ss| - 100 * CompletedCount(ss)) <= |ss|
  {
    if order.None? || order.value.stages.None? || |order.value.stages.value| == 0 then 0
    else
      var ss := order.value.stages.value;
      var completed := CompletedCount(ss);
      RoundHalfUpAtLeast(completed * 100, |ss|, 0);
      RoundHalfUpAtMost(completed * 100, |ss|, 100);
      RoundHalfUp(completed * 100, |ss|)
  }

  /** With fewer than 200 stages (the pipeline has eight), progress is 100
      exactly when every stage is completed and 0 exactly when none is. */
  lemma ProgressExtremes(order: ClientOrder)
    requires order.stages.Some? && 0 < |order.stages.value| < 200
    ensures var ss := order.stages.value;
      (OrderProgress(Some(order)) == 100 <==> forall i :: 0 <= i < |ss| ==> ss[i].status == Completed) &&
      (OrderProgress(Some(order)) == 0 <==> forall i :: 0 <= i < |ss| ==> ss[i].status != Completed)
  {
    var ss := order.stages.value;
    RoundedShareExtremes(CompletedCount(ss), |ss|);
  }

  /** `Math.round(100 * c / n)` for `c` of `n < 200` is 100 only for `c == n`
      and 0 only for `c == 0`: one step away rounds to 99 or 1 at worst. */
  lemma RoundedShareExtremes(c: int, n: int)
    requires 0 <= c <= n && 0 < n < 200
    ensures RoundHalfUp(100 * c, n) == 100 <==> c == n
    ensures RoundHalfUp(100 * c, n) == 0 <==> c == 0
  {
    var p := RoundHalfUp(100 * c, n);
    if c == n {
      assert (p - 100) * n == p * n - 100 * c;
      NearZeroMultiple(p - 100, n);
    } else {
      assert 2 * (p * n) < 2 * (100 * n);
      FactorLess(p, 100, n);
    }
    if c == 0 {
      NearZeroMultiple(p, n);
    } else {
      assert 0 * n < p * n;
      FactorLess(0, p, n);
    }
  }

  /** A multiple `k * den` within half of `den` from 0 has `k == 0`. */
  lemma NearZeroMultiple(k: int, den: int)
    requires den > 0 && -den < 2 * (k * den) <= den
    ensures k == 0
  {
    BelowOneMultiple(k, den);
    assert (-k) * den == -(k * den);
    BelowOneMultiple(-k, den);
  }

  /** `stage.name === name || stage.stage_order === position`. */
  predicate MatchesStage(s: Stage, name: string, position: int) {
    s.name == name || s.stageOrder == Some(position)
  }

  /** The index of the first matching stage, as `Array.find` picks it. */
  function FindStageIndex(ss: seq<Stage>, name: string, position: int): (r: Option<nat>)
    ensures r.Some? ==> r.value < |ss| && MatchesStage(ss[r.value], name, position)
    ensures r.Some? ==> forall j :: 0 <= j < r.value ==> !MatchesStage(ss[j], name, position)
    ensures r.None? ==> forall j :: 0 <= j < |ss| ==> !MatchesStage(ss[j], name, position)
  {
    if |ss| == 0 then None
    else if MatchesStage(ss[0], name, position) then Some(0)
    else match FindStageIndex(ss[1..], name, position)
      case None => None
      case Some(k) => Some(k + 1)
  }

  /** `stage?.completed_units || 0` for the first matching stage. */
  function UnitsAt(ss: seq<Stage>, name: string, position: int): (u: int)
    ensures FindStageIndex(ss, name, position).None? ==> u == 0
    ensures FindStageIndex(ss, name, position).Some? ==> u == UnitsOf(ss[FindStageIndex(ss, name, position).value])
  {
    match FindStageIndex(ss, name, position)
    case None => 0
    case Some(k) => UnitsOf(ss[k])
  }

  const ManufacturingName := "Изготовление"
  const PackagingName := "Упаковка"
  const ShippingName := "Отгрузка"

  datatype UnitDetails = UnitDetails(completedUnits: int, totalQuantity: real)

  /** `getManufacturingDetails`: finished units of the manufacturing stage
      (by name, or `stage_order` 5) and the order quantity (`|| 0`). */
  function ManufacturingDetails(order: Option<ClientOrder>): (d: UnitDetails)
    ensures order.None? || order.value.stages.None? ==> d == UnitDetails(0, 0.0)
    ensures order.Some? && order.value.stages.Some? ==>
      d.completedUnits == UnitsAt(order.value.stages.value, ManufacturingName, 5) &&
      d.totalQuantity == Or(order.value.quantity, 0.0)
  {
    if order.None? || order.value.stages.None? then UnitDetails(0, 0.0)
    else UnitDetails(UnitsAt(order.value.stages.value, ManufacturingName, 5), Or(order.value.quantity, 0.0))
  }

  /** `getShippingDetails`: the same for the shipping stage (`stage_order` 8). */
  function ShippingDetails(order: Option<ClientOrder>): (d: UnitDetails)
    ensures order.None? || order.value.stages.None? ==> d == UnitDetails(0, 0.0)
    ensures order.Some? && order.value.stages.Some? ==>
      d.completedUnits == UnitsAt(order.value.stages.value, ShippingName, 8) &&
      d.totalQuantity == Or(order.value.quantity, 0.0)
  {
    if order.None? || order.value.stages.None? then UnitDetails(0, 0.0)
    else UnitDetails(UnitsAt(order.value.stages.value, ShippingName, 8), Or(order.value.quantity, 0.0))
  }

  /** `max(0, packaged - shipped)`. */
  function ReadyToShip(packaged: int, shipped: int): (r: int)
    ensures r >= 0
    ensures packaged >= shipped ==> r == packaged - shipped
    ensures packaged < shipped ==> r == 0
  {
    Max(0, packaged - shipped)
  }

  /** `getReadyToShipDetails`: packed units (packing stage, `stage_order` 7)
      less shipped units, never below 0. */
  function ReadyToShipDetails(order: Option<ClientOrder>): (r: int)
    ensures r >= 0
    ensures order.None? || order.value.stages.None? ==> r == 0
    ensures order.Some? && order.value.stages.Some? ==>
      var ss := order.value.stages.value;
      r == ReadyToShip(UnitsAt(ss, PackagingName, 7), UnitsAt(ss, ShippingName, 8))
  {
    if order.None? || order.value.stages.None? then 0
    else
      var ss := order.value.stages.value;
      ReadyToShip(UnitsAt(ss, PackagingName, 7), UnitsAt(ss, ShippingName, 8))
  }

  /** The cases of the ready-to-ship tests: 50 packed and none shipped, 100
      packed and 30 shipped, 30 packed and 50 shipped. */
  lemma ReadyToShipExamples()
    ensures ReadyToShip(50, 0) == 50 && ReadyToShip(100, 30) == 70 && ReadyToShip(30, 50) == 0
  {
  }

  /** On the pipeline the backend creates, the lookups by name find the
      manufacturing (index 4), packing (6) and shipping (7) stages. */
  lemma DefaultPipelineLookups(ss: seq<Stage>, ids: seq<string>)
    requires |ids| == |StagesConfig| && IsDefaultPipeline(ss, ids)
    ensures FindStageIndex(ss, ManufacturingName, 5) == Some(4)
    ensures FindStageIndex(ss, PackagingName, 7) == Some(6)
    ensures FindStageIndex(ss, ShippingName, 8) == Some(7)
  {
    DefaultStageNames(ss, ids);
    FirstMatchAt(ss, ManufacturingName, 5, 4);
    FirstMatchAt(ss, PackagingName, 7, 6);
    FirstMatchAt(ss, ShippingName, 8, 7);
  }

  /** The stages of a fresh pipeline carry no `stage_order`, and their names
      tell the three looked-up stages apart by their first letters. */
  lemma DefaultStageNames(ss: seq<Stage>, ids: seq<string>)
    requires |ids| == |StagesConfig| && IsDefaultPipeline(ss, ids)
    ensures |ss| == 8 && forall i :: 0 <= i < 8 ==> ss[i].stageOrder.None? && |ss[i].name| > 0
    ensures ss[4].name == ManufacturingName && ss[6].name == PackagingName && ss[7].name == ShippingName
    ensures forall i :: 0 <= i < 4 ==> ss[i].name[0] == 'П'
    ensures ss[5].name[0] == 'П'
  {
    assert forall i :: 0 <= i < |ss| ==> IsDefaultStage(ss[i], i, ids[i]);
  }

  /** A lookup finds the first stage that matches. */
  lemma FirstMatchAt(ss: seq<Stage>, name: string, position: int, k: int)
    requires 0 <= k < |ss| && MatchesStage(ss[k], name, position)
    requires forall j :: 0 <= j < k ==> !MatchesStage(ss[j], name, position)
    ensures FindStageIndex(ss, name, position) == Some(k)
  {
  }

  /** `calculateTotalCost`: 0 without a quantity (missing or 0); otherwise
      the per-unit cost times the quantity, with the rate falling back to the
      market's default when 0 or missing. */
  function CalculateTotalCost(order: Option<ClientOrder>): (r: real)
    ensures order.None? || !Truthy(order.value.quantity) ==> r == 0.0
    ensures order.Some? && Truthy(order.value.quantity) ==>
      var o := order.value;
      r == InlineTotal(Or(o.materialCost, 0.0), o.quantity.value, Or(o.processingTimePerUnit, 0.0),
                       FallbackRate(IsDomestic(o.marketType), o.minuteRateDomestic, o.minuteRateForeign))
  {
    if order.None? || !Truthy(order.value.quantity) then 0.0
    else
      var o := order.value;
      var q := o.quantity.value;
      var materialCostPerUnit := Or(o.materialCost, 0.0) / q;
      var processingTime := Or(o.processingTimePerUnit, 0.0);
      var minuteRate := FallbackRate(IsDomestic(o.marketType), o.minuteRateDomestic, o.minuteRateForeign);
      var processingCostPerUnit := processingTime * minuteRate;
      var totalCostPerUnit := materialCostPerUnit + processingCostPerUnit;
      assert materialCostPerUnit * q == Or(o.materialCost, 0.0);
      totalCostPerUnit * q
  }

  /** For an order with a positive quantity and non-zero rates the dashboard
      shows the backend's total order cost. */
  lemma DashboardTotalMatchesBackend(o: OrderModel.Order)
    requires o.quantity > 0 && o.minuteRateDomestic != 0.0 && o.minuteRateForeign != 0.0
    ensures CalculateTotalCost(Some(ClientView(o))) == OrderModel.TotalOrderCost(o)
  {
  }

  /** Where the backend stores a zero rate the dashboard prices the work at
      the default rate instead: the sample order shows 12250 rather than 1000. */
  lemma DashboardReplacesZeroRate(o: OrderModel.Order)
    requires o.quantity == 10 && o.materialCost == 1000.0 && o.processingTimePerUnit == 45.0
    requires o.marketType == OrderModel.Domestic && o.minuteRateDomestic == 0.0
    ensures OrderModel.TotalOrderCost(o) == 1000.0
    ensures CalculateTotalCost(Some(ClientView(o))) == 12250.0
  {
  }
}
