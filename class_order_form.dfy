/** The class-component test form (frontend/src/components/ClassOrderForm.js):
    its state fields, the `update*` handlers (each also bumping the render
    key), the click counter, and the figures of `render` at the fixed
    default rates. Alerts and logging are not modelled. */
module ClassOrderFormComponent {
  import opened Common
  import opened Costs
  import opened FormCosts

  class ClassOrderForm {
    var quantity: int
    var materialCost: real
    var processingTime: real
    var marketType: string
    var testClicks: int
    var forceRenderKey: int

    constructor ()
      ensures quantity == 1 && materialCost == 0.0 && processingTime == 30.0 && marketType == "domestic"
      ensures testClicks == 0 && forceRenderKey == 0
    {
      quantity := 1;
      materialCost := 0.0;
      processingTime := 30.0;
      marketType := "domestic";
      testClicks := 0;
      forceRenderKey := 0;
    }

    /** `testJavaScript`: one more click and one more render key. */
    method TestJavaScript()
      modifies this
      ensures testClicks == old(testClicks) + 1 && forceRenderKey == old(forceRenderKey) + 1
      ensures quantity == old(quantity) && materialCost == old(materialCost)
      ensures processingTime == old(processingTime) && marketType == old(marketType)
    {
      testClicks := testClicks + 1;
      forceRenderKey := forceRenderKey + 1;
    }

    /** `updateQuantity`: `parseInt(value) || 1`, never 0. */
    method UpdateQuantity(parsed: Option<int>)
      modifies this
      ensures quantity == IntOr(parsed, 1) && quantity != 0
      ensures forceRenderKey == old(forceRenderKey) + 1
      ensures materialCost == old(materialCost) && processingTime == old(processingTime)
      ensures marketType == old(marketType) && testClicks == old(testClicks)
    {
      var value := IntOr(parsed, 1);
      quantity := value;
      forceRenderKey := forceRenderKey + 1;
    }

    /** `updateMaterialCost`: `parseFloat(value) || 0`. */
    method UpdateMaterialCost(parsed: Num)
      modifies this
      ensures materialCost == Or(parsed, 0.0)
      ensures forceRenderKey == old(forceRenderKey) + 1
      ensures quantity == old(quantity) && processingTime == old(processingTime)
      ensures marketType == old(marketType) && testClicks == old(testClicks)
    {
      materialCost := Or(parsed, 0.0);
      forceRenderKey := forceRenderKey + 1;
    }

    /** `updateProcessingTime`: `parseFloat(value) || 0`. */
    method UpdateProcessingTime(parsed: Num)
      modifies this
      ensures processingTime == Or(parsed, 0.0)
      ensures forceRenderKey == old(forceRenderKey) + 1
      ensures quantity == old(quantity) && materialCost == old(materialCost)
      ensures marketType == old(marketType) && testClicks == old(testClicks)
    {
      processingTime := Or(parsed, 0.0);
      forceRenderKey := forceRenderKey + 1;
    }

    /** `updateMarketType`: the selected text as it is. */
    method UpdateMarketType(value: string)
      modifies this
      ensures marketType == value
      ensures forceRenderKey == old(forceRenderKey) + 1
      ensures quantity == old(quantity) && materialCost == old(materialCost)
      ensures processingTime == old(processingTime) && testClicks == old(testClicks)
    {
      marketType := value;
      forceRenderKey := forceRenderKey + 1;
    }

    function RenderedCosts(): CostSummary
      reads this
    {
      FixedRateCosts(quantity, materialCost, processingTime, marketType)
    }
  }

  /** The figures of `render`: the rate fixed at 25 or 0.42 per minute. */
  function FixedRateCosts(quantity: int, materialCost: real, processingTime: real, marketType: string): (c: CostSummary)
    ensures c.processingPerUnit == processingTime * FixedRate(IsDomestic(marketType))
    ensures c.totalOrder == materialCost + quantity as real * c.processingPerUnit
    ensures quantity > 0 ==> c.totalOrder == c.totalPerUnit * quantity as real
    ensures quantity <= 0 ==> c.materialPerUnit == 0.0
  {
    RenderCosts(quantity as real, materialCost, processingTime, FixedRate(IsDomestic(marketType)))
  }

  /** The foreign market at 0.42 per minute: the sample order comes to 1189. */
  lemma ForeignSample()
    ensures FixedRateCosts(10, 1000.0, 45.0, "foreign").totalOrder == 1189.0
    ensures FixedRateCosts(10, 1000.0, 45.0, "foreign").totalPerUnit == 118.9
  {
  }
}
