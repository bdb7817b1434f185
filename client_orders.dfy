/** An order as the browser receives it from the order endpoints: numbers may
    be missing (`null`/`undefined`) or `NaN`, and the stage list may be
    absent. */
module ClientOrders {
  import opened Common
  import opened Pipeline
  import OrderModel

  datatype ClientOrder = ClientOrder(
    id: string,
    quantity: Num,
    marketType: string,
    materialCost: Num,
    processingTimePerUnit: Num,
    minuteRateDomestic: Num,
    minuteRateForeign: Num,
    processingTypes: Option<seq<string>>,
    stages: Option<seq<Stage>>)

  function MarketText(m: OrderModel.Market): string {
    match m
    case Domestic => "domestic"
    case Foreign => "foreign"
  }

  function ProcessingTypeText(t: OrderModel.ProcessingType): string {
    match t
    case Turning => "turning"
    case Milling => "milling"
    case TurnMilling => "turn_milling"
    case Grinding => "grinding"
    case HeatTreatment => "heat_treatment"
    case Sandblasting => "sandblasting"
    case Galvanizing => "galvanizing"
    case Locksmith => "locksmith"
  }

  /** The JSON the backend sends for an order, as the browser reads it. */
  function ClientView(o: OrderModel.Order): (c: ClientOrder)
    ensures c.stages == Some(o.stages) && c.quantity == Some(o.quantity as real)
    ensures (c.marketType == "domestic") <==> o.marketType == OrderModel.Domestic
    ensures c.id == o.id
    ensures c.materialCost == Some(o.materialCost) && c.processingTimePerUnit == Some(o.processingTimePerUnit)
    ensures c.minuteRateDomestic == Some(o.minuteRateDomestic) && c.minuteRateForeign == Some(o.minuteRateForeign)
    ensures c.processingTypes.Some? && |c.processingTypes.value| == |o.processingTypes|
    ensures forall i :: 0 <= i < |o.processingTypes| ==>
      c.processingTypes.value[i] == ProcessingTypeText(o.processingTypes[i])
  {
    ClientOrder(o.id, Some(o.quantity as real), MarketText(o.marketType), Some(o.materialCost),
                Some(o.processingTimePerUnit), Some(o.minuteRateDomestic), Some(o.minuteRateForeign),
                Some(seq(|o.processingTypes|, i requires 0 <= i < |o.processingTypes| => ProcessingTypeText(o.processingTypes[i]))),
                Some(o.stages))
  }
}
