/** The cost test page (frontend/src/TestOrderForm.js): the form record with
    the sample order preloaded, its `handleChange`, and the `calculate*`
    helpers applied to it. Inputs reach `handleChange` through
    `parseInt`/`parseFloat` with no fallback, so a cleared input stores `NaN`. */
module TestOrderForm {
  import opened Common
  import opened Costs
  import opened FormCosts

  /** The preloaded sample: 10 parts, material 1000, 45 minutes per part,
      domestic market, rates 25 and 0.42. */
  const InitialData := CostInput(Some(10.0), Some(1000.0), Some(45.0), "domestic", Some(25.0), Some(0.42))

  /** The inputs of the page, each with what its parser produced. */
  datatype Input =
    | QuantityInput(parsedInt: Option<int>)
    | MaterialCostInput(parsedFloat: Num)
    | ProcessingTimeInput(parsedFloat: Num)
    | MarketTypeInput(text: string)

  /** `handleChange(name, value)`: only the named field changes. */
  function HandleChange(d: CostInput, input: Input): (r: CostInput)
    ensures input.QuantityInput? ==>
      r == d.(quantity := if input.parsedInt.Some? then Some(input.parsedInt.value as real) else None)
    ensures input.MaterialCostInput? ==> r == d.(materialCost := input.parsedFloat)
    ensures input.ProcessingTimeInput? ==> r == d.(processingTimePerUnit := input.parsedFloat)
    ensures input.MarketTypeInput? ==> r == d.(marketType := input.text)
    ensures r.minuteRateDomestic == d.minuteRateDomestic && r.minuteRateForeign == d.minuteRateForeign
  {
    match input
    case QuantityInput(q) => d.(quantity := match q case None => None case Some(n) => Some(n as real))
    case MaterialCostInput(m) => d.(materialCost := m)
    case ProcessingTimeInput(t) => d.(processingTimePerUnit := t)
    case MarketTypeInput(mt) => d.(marketType := mt)
  }

  /** The preloaded sample shows 100, 1125, 1225 and 12250, the figures the
      backend computes for the same order. */
  lemma InitialFigures()
    ensures HelperMaterialCostPerUnit(InitialData) == 100.0
    ensures HelperProcessingCostPerUnit(InitialData) == 1125.0
    ensures HelperTotalCostPerUnit(InitialData) == 1225.0
    ensures HelperTotalOrderCost(InitialData) == 12250.0
    ensures HelperTotalOrderCost(InitialData) == InlineTotal(1000.0, 10.0, 45.0, DefaultDomesticRate)
  {
    assert Trunc(10.0) == 10;
  }

  /** Clearing the quantity input leaves `NaN`: the material cost drops out
      and the order is priced as one part's processing. */
  lemma ClearedQuantity(d: CostInput)
    ensures var e := HandleChange(d, QuantityInput(None));
      HelperMaterialCostPerUnit(e) == 0.0 && HelperTotalOrderCost(e) == HelperProcessingCostPerUnit(d)
  {
  }

  /** Switching the sample to the foreign market prices it at 0.42 per
      minute: 118.9 per part, 1189 in all. */
  lemma ForeignFigures()
    ensures var e := HandleChange(InitialData, MarketTypeInput("foreign"));
      HelperTotalCostPerUnit(e) == 118.9 && HelperTotalOrderCost(e) == 1189.0
  {
    assert Trunc(10.0) == 10;
  }
}
