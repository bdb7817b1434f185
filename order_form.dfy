/** The hook-based order-creation form (frontend/src/components/OrderForm.js):
    the form state and its handlers, the cost figures shown while typing, and
    the `calculate*` helpers. Alerts, navigation and the POST request itself
    are not modelled; submitting yields the request body. */
module OrderFormComponent {
  import opened Common
  import opened Costs
  import opened FormFields
  import opened FormCosts

  class OrderForm {
    var formData: FormData
    var loading: bool
    /** Bumped by the field handlers to force a re-render. */
    var forceUpdate: int

    constructor ()
      ensures formData == InitialFormData && !loading && forceUpdate == 0
    {
      formData := InitialFormData;
      loading := false;
      forceUpdate := 0;
    }

    /** `updateNumberField`: the named field takes `parseFloat(value) || 0`. */
    method UpdateNumberField(field: NumberField, parsed: Num)
      modifies this
      ensures formData == With(old(formData), NumberValue(field, Or(parsed, 0.0)))
      ensures forceUpdate == old(forceUpdate) + 1 && loading == old(loading)
    {
      var numValue := Or(parsed, 0.0);
      formData := With(formData, NumberValue(field, numValue));
      forceUpdate := forceUpdate + 1;
    }

    /** `handleChange`, as the text and select inputs use it. */
    method HandleChange(field: TextField, value: string)
      modifies this
      ensures formData == With(old(formData), TextValue(field, value))
      ensures forceUpdate == old(forceUpdate) + 1 && loading == old(loading)
    {
      formData := With(formData, TextValue(field, value));
      forceUpdate := forceUpdate + 1;
    }

    /** The domestic rate input stores `parseFloat(value) || 25`, so the
        stored rate is never 0. */
    method ChangeMinuteRateDomestic(parsed: Num)
      modifies this
      ensures formData == old(formData).(minuteRateDomestic := Or(parsed, DefaultDomesticRate))
      ensures formData.minuteRateDomestic != 0.0
      ensures forceUpdate == old(forceUpdate) && loading == old(loading)
    {
      formData := formData.(minuteRateDomestic := Or(parsed, DefaultDomesticRate));
    }

    /** The foreign rate input stores `parseFloat(value) || 0.42`. */
    method ChangeMinuteRateForeign(parsed: Num)
      modifies this
      ensures formData == old(formData).(minuteRateForeign := Or(parsed, DefaultForeignRate))
      ensures formData.minuteRateForeign != 0.0
      ensures forceUpdate == old(forceUpdate) && loading == old(loading)
    {
      formData := formData.(minuteRateForeign := Or(parsed, DefaultForeignRate));
    }

    /** `handleProcessingTypeToggle`. */
    method HandleProcessingTypeToggle(t: string)
      modifies this
      ensures formData == old(formData).(processingTypes := Toggle(old(formData).processingTypes, t))
      ensures t in formData.processingTypes <==> t !in old(formData).processingTypes
      ensures forceUpdate == old(forceUpdate) && loading == old(loading)
    {
      formData := formData.(processingTypes := Toggle(formData.processingTypes, t));
    }

    /** `handleSubmit`: with no processing type chosen nothing is sent and
        nothing changes; otherwise the form record is the request body and
        the form is no longer loading once the request has settled. */
    method HandleSubmit() returns (request: Option<FormData>)
      modifies this
      ensures |old(formData).processingTypes| == 0 ==> request.None? && loading == old(loading)
      ensures |old(formData).processingTypes| > 0 ==> request == Some(old(formData)) && !loading
      ensures formData == old(formData) && forceUpdate == old(forceUpdate)
    {
      if |formData.processingTypes| == 0 {
        return None;
      }
      loading := true;
      request := Some(formData);
      loading := false;
    }

    /** The figures shown for the current form values. */
    function RenderedCosts(): CostSummary
      reads this
    {
      DisplayedCosts(formData)
    }
  }

  /** The rate the form uses: the stored rate of the chosen market, or that
      market's default when it is 0. */
  function DisplayRate(d: FormData): (r: real)
    ensures r != 0.0
    ensures IsDomestic(d.marketType) && d.minuteRateDomestic != 0.0 ==> r == d.minuteRateDomestic
    ensures !IsDomestic(d.marketType) && d.minuteRateForeign != 0.0 ==> r == d.minuteRateForeign
    ensures IsDomestic(d.marketType) && d.minuteRateDomestic == 0.0 ==> r == 25.0
    ensures !IsDomestic(d.marketType) && d.minuteRateForeign == 0.0 ==> r == 0.42
  {
    FallbackRate(IsDomestic(d.marketType), Some(d.minuteRateDomestic), Some(d.minuteRateForeign))
  }

  /** The figures shown while typing: the quantity counts as 1 when it is 0,
      and the total is the material cost plus every part's processing. */
  function DisplayedCosts(d: FormData): (c: CostSummary)
    ensures d.quantity != 0.0 ==>
      c.totalOrder == d.materialCost + d.quantity * d.processingTimePerUnit * DisplayRate(d)
    ensures d.quantity == 0.0 ==>
      c.totalOrder == d.materialCost + d.processingTimePerUnit * DisplayRate(d)
    ensures d.quantity > 0.0 ==> c.totalOrder == c.totalPerUnit * d.quantity
    ensures d.quantity < 0.0 ==> c.materialPerUnit == 0.0
    ensures c.processingPerUnit == d.processingTimePerUnit * DisplayRate(d)
  {
    var quantity := Or(Some(d.quantity), 1.0);
    var materialCost := Or(Some(d.materialCost), 0.0);
    var processingTime := Or(Some(d.processingTimePerUnit), 0.0);
    RenderCosts(quantity, materialCost, processingTime, DisplayRate(d))
  }

  /** The values the `calculate*` helpers read from the form. */
  function AsCostInput(d: FormData): CostInput {
    CostInput(Some(d.quantity), Some(d.materialCost), Some(d.processingTimePerUnit), d.marketType,
              Some(d.minuteRateDomestic), Some(d.minuteRateForeign))
  }

  /** For a whole positive quantity the helpers and the displayed figures
      give the same order total. */
  lemma HelpersAgreeWithDisplay(d: FormData, n: int)
    requires n >= 1 && d.quantity == n as real
    ensures HelperTotalOrderCost(AsCostInput(d)) == DisplayedCosts(d).totalOrder
  {
    HelperTotalIsRenderTotal(AsCostInput(d), n);
  }

  /** The initial form shows 30 minutes at 25 per minute: 750 per part and
      for the single part ordered. */
  lemma InitialFormCosts()
    ensures DisplayedCosts(InitialFormData) == CostSummary(0.0, 750.0, 750.0, 750.0)
  {
  }
}
