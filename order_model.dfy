/** The backend's order record (backend/server.py): its cost properties, the
    order update endpoint's handling of the request body, and the view of an
    order an employee receives. Timestamps are not modelled. */
module OrderModel {
  import opened Common
  import opened Pipeline
  import opened Costs

  datatype UserRole = Manager | Employee

  datatype Market = Domestic | Foreign

  datatype ProcessingType =
    Turning | Milling | TurnMilling | Grinding | HeatTreatment | Sandblasting | Galvanizing | Locksmith

  datatype FileInfo = FileInfo(id: string, filename: string, originalFilename: string, filePath: string)

  datatype Order = Order(
    id: string,
    orderNumber: string,
    clientName: string,
    description: string,
    quantity: int,
    marketType: Market,
    materialCost: real,
    processingTimePerUnit: real,
    processingTypes: seq<ProcessingType>,
    minuteRateDomestic: real,
    minuteRateForeign: real,
    files: seq<FileInfo>,
    stages: seq<Stage>,
    createdBy: string)

  /** The minute rate of the order's market, as stored (no fallback). */
  function MinuteRate(o: Order): real {
    PickRate(o.marketType == Domestic, o.minuteRateDomestic, o.minuteRateForeign)
  }

  /** `processing_cost_per_unit`: minutes per part times the market's rate. */
  function ProcessingCostPerUnit(o: Order): (r: real)
    ensures o.marketType == Domestic ==> r == o.processingTimePerUnit * o.minuteRateDomestic
    ensures o.marketType == Foreign ==> r == o.processingTimePerUnit * o.minuteRateForeign
  {
    o.processingTimePerUnit * MinuteRate(o)
  }

  /** `material_cost_per_unit`: the material cost shared out over the parts,
      0 for a quantity of 0 or below. */
  function MaterialCostPerUnit(o: Order): (r: real)
    ensures o.quantity > 0 ==> r * o.quantity as real == o.materialCost
    ensures o.quantity <= 0 ==> r == 0.0
  {
    MaterialPerUnit(o.materialCost, o.quantity as real)
  }

  /** `total_cost_per_unit`: one part's share of the material plus its
      processing; without a positive quantity, the processing alone. */
  function TotalCostPerUnit(o: Order): (r: real)
    ensures o.quantity > 0 ==>
      r * o.quantity as real == o.materialCost + o.quantity as real * ProcessingCostPerUnit(o)
    ensures o.quantity <= 0 ==> r == ProcessingCostPerUnit(o)
  {
    MaterialCostPerUnit(o) + ProcessingCostPerUnit(o)
  }

  /** `total_order_cost`: per-part cost times the quantity. For a positive
      quantity that is the material cost plus every part's processing; for a
      quantity of 0 it is 0; below 0 the material cost is lost. */
  function TotalOrderCost(o: Order): (r: real)
    ensures o.quantity > 0 ==>
      r == o.materialCost + o.quantity as real * o.processingTimePerUnit * MinuteRate(o)
    ensures o.quantity == 0 ==> r == 0.0
    ensures o.quantity < 0 ==> r == o.quantity as real * o.processingTimePerUnit * MinuteRate(o)
  {
    if o.quantity > 0 then
      TotalsAgreeForPositiveQuantity(o.materialCost, o.quantity as real, o.processingTimePerUnit, MinuteRate(o));
      TotalCostPerUnit(o) * o.quantity as real
    else TotalCostPerUnit(o) * o.quantity as real
  }

  /** The body of an order update request: every field optional. */
  datatype OrderUpdate = OrderUpdate(
    clientName: Option<string>,
    description: Option<string>,
    quantity: Option<int>,
    marketType: Option<Market>,
    materialCost: Option<real>,
    processingTimePerUnit: Option<real>,
    processingTypes: Option<seq<ProcessingType>>,
    minuteRateDomestic: Option<real>,
    minuteRateForeign: Option<real>)

  /** Every field of the request is `None`, so nothing is left after the
      `None` filter. */
  predicate NothingSupplied(u: OrderUpdate) {
    u.clientName.None? && u.description.None? && u.quantity.None? && u.marketType.None? &&
    u.materialCost.None? && u.processingTimePerUnit.None? && u.processingTypes.None? &&
    u.minuteRateDomestic.None? && u.minuteRateForeign.None?
  }

  /** The `$set` of the supplied fields onto the stored order. */
  function Merge(o: Order, u: OrderUpdate): Order {
    o.(clientName := u.clientName.GetOr(o.clientName),
       description := u.description.GetOr(o.description),
       quantity := u.quantity.GetOr(o.quantity),
       marketType := u.marketType.GetOr(o.marketType),
       materialCost := u.materialCost.GetOr(o.materialCost),
       processingTimePerUnit := u.processingTimePerUnit.GetOr(o.processingTimePerUnit),
       processingTypes := u.processingTypes.GetOr(o.processingTypes),
       minuteRateDomestic := u.minuteRateDomestic.GetOr(o.minuteRateDomestic),
       minuteRateForeign := u.minuteRateForeign.GetOr(o.minuteRateForeign))
  }

  const OnlyManagers := HttpError(403, "Only managers can update orders")
  const NoUpdateData := HttpError(400, "No update data provided")
  const OrderNotFound := HttpError(404, "Order not found")

  /** `update_order`: only a manager may update; a request with no supplied
      field is refused; an unknown order is 404 (`stored` is the stored order,
      `None` when there is none). Otherwise each supplied field replaces the
      stored one, and nothing else changes. */
  function UpdateOrder(role: UserRole, stored: Option<Order>, u: OrderUpdate): (r: Result<Order>)
    ensures role != Manager ==> r == Err(OnlyManagers)
    ensures role == Manager && NothingSupplied(u) ==> r == Err(NoUpdateData)
    ensures role == Manager && !NothingSupplied(u) && stored.None? ==> r == Err(OrderNotFound)
    ensures r.Ok? <==> role == Manager && !NothingSupplied(u) && stored.Some?
    ensures r.Ok? ==>
      var o, n := stored.value, r.value;
      n.id == o.id && n.orderNumber == o.orderNumber && n.files == o.files &&
      n.stages == o.stages && n.createdBy == o.createdBy &&
      (u.quantity.Some? ==> n.quantity == u.quantity.value) &&
      (u.quantity.None? ==> n.quantity == o.quantity) &&
      (u.materialCost.Some? ==> n.materialCost == u.materialCost.value) &&
      (u.materialCost.None? ==> n.materialCost == o.materialCost) &&
      (u.processingTypes.Some? ==> n.processingTypes == u.processingTypes.value) &&
      (u.processingTypes.None? ==> n.processingTypes == o.processingTypes) &&
      (u.clientName.Some? ==> n.clientName == u.clientName.value) &&
      (u.clientName.None? ==> n.clientName == o.clientName) &&
      (u.description.Some? ==> n.description == u.description.value) &&
      (u.description.None? ==> n.description == o.description) &&
      (u.marketType.Some? ==> n.marketType == u.marketType.value) &&
      (u.marketType.None? ==> n.marketType == o.marketType) &&
      (u.processingTimePerUnit.Some? ==> n.processingTimePerUnit == u.processingTimePerUnit.value) &&
      (u.processingTimePerUnit.None? ==> n.processingTimePerUnit == o.processingTimePerUnit) &&
      (u.minuteRateDomestic.Some? ==> n.minuteRateDomestic == u.minuteRateDomestic.value) &&
      (u.minuteRateDomestic.None? ==> n.minuteRateDomestic == o.minuteRateDomestic) &&
      (u.minuteRateForeign.Some? ==> n.minuteRateForeign == u.minuteRateForeign.value) &&
      (u.minuteRateForeign.None? ==> n.minuteRateForeign == o.minuteRateForeign)
  {
    if role != Manager then Err(OnlyManagers)
    else if NothingSupplied(u) then Err(NoUpdateData)
    else match stored
      case None => Err(OrderNotFound)
      case Some(o) => Ok(Merge(o, u))
  }

  /** Sending the same update again changes nothing further. */
  lemma UpdateOrderIdempotent(role: UserRole, stored: Option<Order>, u: OrderUpdate)
    requires UpdateOrder(role, stored, u).Ok?
    ensures UpdateOrder(role, Some(UpdateOrder(role, stored, u).value), u) == UpdateOrder(role, stored, u)
  {
  }

  /** The employee view of an order as the source builds it. The source zeroes
      `material_cost` and the keys `hourly_rate_domestic` and
      `hourly_rate_foreign`, and empties `files`; the order record has no
      `hourly_rate_*` fields, so rebuilding the record drops those two keys
      and the stored minute rates pass through unchanged. */
  function EmployeeViewAsWritten(o: Order): (v: Order)
    ensures v.materialCost == 0.0 && v.files == []
    ensures v.minuteRateDomestic == o.minuteRateDomestic && v.minuteRateForeign == o.minuteRateForeign
  {
    o.(materialCost := 0.0, files := [])
  }

  /** The view as written still carries the stored minute rates, from which
      the processing cost per part follows: 1125 on the sample order. */
  lemma EmployeeViewAsWrittenShowsProcessingCost(o: Order)
    ensures ProcessingCostPerUnit(EmployeeViewAsWritten(o)) == ProcessingCostPerUnit(o)
    ensures var sample := o.(marketType := Domestic, processingTimePerUnit := 45.0, minuteRateDomestic := 25.0);
      ProcessingCostPerUnit(EmployeeViewAsWritten(sample)) == 1125.0
  {
  }

  /** The employee view as intended: material cost, both minute rates and the
      files removed. */
  function EmployeeView(o: Order): (v: Order)
    ensures v.materialCost == 0.0 && v.minuteRateDomestic == 0.0 && v.minuteRateForeign == 0.0 && v.files == []
    ensures v.(materialCost := o.materialCost, minuteRateDomestic := o.minuteRateDomestic,
               minuteRateForeign := o.minuteRateForeign, files := o.files) == o
  {
    o.(materialCost := 0.0, minuteRateDomestic := 0.0, minuteRateForeign := 0.0, files := [])
  }

  /** Every cost an employee can derive from the intended view is 0, and
      the production data (stages, quantity) is the manager's. */
  lemma EmployeeViewHidesCosts(o: Order)
    ensures var v := EmployeeView(o);
      ProcessingCostPerUnit(v) == 0.0 && MaterialCostPerUnit(v) == 0.0 &&
      TotalCostPerUnit(v) == 0.0 && TotalOrderCost(v) == 0.0 &&
      v.stages == o.stages && v.quantity == o.quantity
  {
  }

  /** What `get_orders` and `get_order` return for a user of the given role. */
  function OrderForRole(role: UserRole, o: Order): (v: Order)
    ensures role == Manager ==> v == o
    ensures role == Employee ==> v == EmployeeView(o)
  {
    if role == Employee then EmployeeView(o) else o
  }
}
