/** The cost figures the order forms display, in the two styles the forms
    use: the render-time summary computed from the (already coerced) form
    values, and the `calculate*` helpers that coerce each value themselves
    (frontend/src/components/OrderForm.js and frontend/src/TestOrderForm.js). */
module FormCosts {
  import opened Common
  import opened Costs

  /** The figures a form shows under "cost calculation". */
  datatype CostSummary = CostSummary(materialPerUnit: real, processingPerUnit: real, totalPerUnit: real, totalOrder: real)

  /** `quantity > 0 ? material / quantity : 0`, `time * rate`, their sum, and
      `material + quantity * time * rate`. The total agrees with the per-part
      cost times the quantity exactly when the quantity is positive (or the
      material cost is 0). */
  function RenderCosts(quantity: real, material: real, time: real, rate: real): (c: CostSummary)
    ensures quantity > 0.0 ==> c.materialPerUnit * quantity == material
    ensures quantity <= 0.0 ==> c.materialPerUnit == 0.0
    ensures c.totalPerUnit == c.materialPerUnit + c.processingPerUnit
    ensures c.totalOrder == InlineTotal(material, quantity, time, rate)
    ensures quantity > 0.0 ==> c.totalOrder == c.totalPerUnit * quantity
    ensures quantity <= 0.0 ==> c.totalOrder - c.totalPerUnit * quantity == material
  {
    var materialPerUnit := MaterialPerUnit(material, quantity);
    var processingPerUnit := time * rate;
    if quantity > 0.0 then
      TotalsAgreeForPositiveQuantity(material, quantity, time, rate);
      CostSummary(materialPerUnit, processingPerUnit, materialPerUnit + processingPerUnit, InlineTotal(material, quantity, time, rate))
    else
      TotalsDifferByMaterialOtherwise(material, quantity, time, rate);
      CostSummary(materialPerUnit, processingPerUnit, materialPerUnit + processingPerUnit, InlineTotal(material, quantity, time, rate))
  }

  /** The form values the `calculate*` helpers read; any of the numbers may
      be `NaN` (`None`). */
  datatype CostInput = CostInput(
    quantity: Num,
    materialCost: Num,
    processingTimePerUnit: Num,
    marketType: string,
    minuteRateDomestic: Num,
    minuteRateForeign: Num)

  /** `parseInt(data.quantity) || 1`. */
  function QuantityOrOne(quantity: Num): (q: real)
    ensures q != 0.0
    ensures quantity.Some? && Trunc(quantity.value) != 0 ==> q == Trunc(quantity.value) as real
    ensures quantity.None? || Trunc(quantity.value) == 0 ==> q == 1.0
  {
    Or(ParseIntOfNum(quantity), 1.0)
  }

  /** `calculateMaterialCostPerUnit`: 0 for a falsy quantity, otherwise the
      material cost (0 when missing) over the whole-number quantity (1 when
      that is 0). */
  function HelperMaterialCostPerUnit(d: CostInput): (r: real)
    ensures !Truthy(d.quantity) ==> r == 0.0
    ensures Truthy(d.quantity) ==> r * QuantityOrOne(d.quantity) == Or(d.materialCost, 0.0)
  {
    if !Truthy(d.quantity) then 0.0
    else Or(d.materialCost, 0.0) / QuantityOrOne(d.quantity)
  }

  /** `calculateProcessingCostPerUnit`: minutes (0 when missing) times the
      market's rate with the default-rate fallback. */
  function HelperProcessingCostPerUnit(d: CostInput): (r: real)
    ensures IsDomestic(d.marketType) && Truthy(d.minuteRateDomestic) ==>
      r == Or(d.processingTimePerUnit, 0.0) * d.minuteRateDomestic.value
    ensures IsDomestic(d.marketType) && !Truthy(d.minuteRateDomestic) ==> r == Or(d.processingTimePerUnit, 0.0) * 25.0
    ensures !IsDomestic(d.marketType) && Truthy(d.minuteRateForeign) ==>
      r == Or(d.processingTimePerUnit, 0.0) * d.minuteRateForeign.value
    ensures !IsDomestic(d.marketType) && !Truthy(d.minuteRateForeign) ==> r == Or(d.processingTimePerUnit, 0.0) * 0.42
  {
    Or(d.processingTimePerUnit, 0.0) * FallbackRate(IsDomestic(d.marketType), d.minuteRateDomestic, d.minuteRateForeign)
  }

  /** `calculateTotalCostPerUnit`: one part's share of the material plus
      its processing; without a quantity, the processing alone. */
  function HelperTotalCostPerUnit(d: CostInput): (r: real)
    ensures !Truthy(d.quantity) ==> r == HelperProcessingCostPerUnit(d)
    ensures Truthy(d.quantity) ==>
      r * QuantityOrOne(d.quantity) == Or(d.materialCost, 0.0) + QuantityOrOne(d.quantity) * HelperProcessingCostPerUnit(d)
  {
    HelperMaterialCostPerUnit(d) + HelperProcessingCostPerUnit(d)
  }

  /** `calculateTotalOrderCost`: the per-part total times `parseInt(quantity) || 1`. */
  function HelperTotalOrderCost(d: CostInput): (r: real)
    ensures !Truthy(d.quantity) ==> r == HelperProcessingCostPerUnit(d)
    ensures Truthy(d.quantity) ==>
      r == Or(d.materialCost, 0.0) + QuantityOrOne(d.quantity) * HelperProcessingCostPerUnit(d)
  {
    HelperTotalCostPerUnit(d) * QuantityOrOne(d.quantity)
  }

  /** For a whole positive quantity the helpers' total is the material cost
      plus every part's processing, the same figure as the render summary. */
  lemma HelperTotalIsRenderTotal(d: CostInput, n: int)
    requires n >= 1 && d.quantity == Some(n as real)
    ensures HelperTotalOrderCost(d) ==
      RenderCosts(n as real, Or(d.materialCost, 0.0), Or(d.processingTimePerUnit, 0.0),
                  FallbackRate(IsDomestic(d.marketType), d.minuteRateDomestic, d.minuteRateForeign)).totalOrder
  {
    assert Trunc(n as real) == n;
    var rate := FallbackRate(IsDomestic(d.marketType), d.minuteRateDomestic, d.minuteRateForeign);
    TotalsAgreeForPositiveQuantity(Or(d.materialCost, 0.0), n as real, Or(d.processingTimePerUnit, 0.0), rate);
  }

  /** A fractional quantity below one is truthy but `parseInt` makes it 0,
      so the helpers count one part where the render summary counts half. */
  lemma HelperTotalTruncatesQuantity()
    ensures var d := CostInput(Some(0.5), Some(1000.0), Some(45.0), "domestic", Some(25.0), Some(0.42));
      HelperTotalOrderCost(d) == 2125.0 && RenderCosts(0.5, 1000.0, 45.0, 25.0).totalOrder == 1562.5
  {
    assert Trunc(0.5) == 0;
  }
}
