/** The class-based order-creation form
    (frontend/src/components/OrderFormClass.js): the state's form record and
    loading flag, the curried change handlers, and the figures computed in
    `render`, which use the stored rates with no fallback. */
module OrderFormClassComponent {
  import opened Common
  import opened Costs
  import opened FormFields
  import opened FormCosts
  import OrderFormComponent

  class OrderFormClass {
    var formData: FormData
    var loading: bool

    constructor ()
      ensures formData == InitialFormData && !loading
    {
      formData := InitialFormData;
      loading := false;
    }

    /** `handleChange(name, value)`: only the named field changes. */
    method HandleChange(v: FieldValue)
      modifies this
      ensures formData == With(old(formData), v) && loading == old(loading)
    {
      formData := With(formData, v);
    }

    /** `handleNumberChange(name)`: `parseFloat(...) || 0`. */
    method HandleNumberChange(field: NumberField, parsed: Num)
      modifies this
      ensures formData == With(old(formData), NumberValue(field, Or(parsed, 0.0))) && loading == old(loading)
    {
      var value := Or(parsed, 0.0);
      HandleChange(NumberValue(field, value));
    }

    /** `handleIntChange(name)`: the parsed integer, or 1 for the quantity and
        0 for any other field when it is `NaN` or 0. */
    method HandleIntChange(field: NumberField, parsed: Option<int>)
      modifies this
      ensures formData == With(old(formData), NumberValue(field, IntOr(parsed, if field == Quantity then 1 else 0) as real))
      ensures field == Quantity ==> formData.quantity != 0.0
      ensures loading == old(loading)
    {
      var value := IntOr(parsed, if field == Quantity then 1 else 0);
      HandleChange(NumberValue(field, value as real));
    }

    /** `handleProcessingTypeToggle`. */
    method HandleProcessingTypeToggle(t: string)
      modifies this
      ensures formData == old(formData).(processingTypes := Toggle(old(formData).processingTypes, t))
      ensures t in formData.processingTypes <==> t !in old(formData).processingTypes
      ensures loading == old(loading)
    {
      formData := formData.(processingTypes := Toggle(formData.processingTypes, t));
    }

    /** `handleSubmit`: refused without a processing type; otherwise the form
        record is posted and loading is cleared once the request settles. */
    method HandleSubmit() returns (request: Option<FormData>)
      modifies this
      ensures |old(formData).processingTypes| == 0 ==> request.None? && loading == old(loading)
      ensures |old(formData).processingTypes| > 0 ==> request == Some(old(formData)) && !loading
      ensures formData == old(formData)
    {
      if |formData.processingTypes| == 0 {
        return None;
      }
      loading := true;
      request := Some(formData);
      loading := false;
    }

    function RenderedCosts(): CostSummary
      reads this
    {
      ClassRenderCosts(formData)
    }
  }

  /** The figures of `render`: the stored rate of the chosen market, used as
      it is, and the quantity as stored. */
  function ClassRenderCosts(d: FormData): (c: CostSummary)
    ensures c.processingPerUnit == d.processingTimePerUnit *
      (if IsDomestic(d.marketType) then d.minuteRateDomestic else d.minuteRateForeign)
    ensures c.totalOrder == d.materialCost + d.quantity * c.processingPerUnit
    ensures d.quantity > 0.0 ==> c.totalOrder == c.totalPerUnit * d.quantity
    ensures d.quantity <= 0.0 ==> c.materialPerUnit == 0.0
  {
    RenderCosts(d.quantity, d.materialCost, d.processingTimePerUnit,
                PickRate(IsDomestic(d.marketType), d.minuteRateDomestic, d.minuteRateForeign))
  }

  /** With non-zero stored rates and a positive quantity this form shows the
      same figures as the hook-based form. */
  lemma AgreesWithHookFormOnStoredRates(d: FormData)
    requires d.minuteRateDomestic != 0.0 && d.minuteRateForeign != 0.0 && d.quantity > 0.0
    ensures ClassRenderCosts(d) == OrderFormComponent.DisplayedCosts(d)
  {
  }

  /** A rate of 0 typed into this form prices processing at 0 where the
      hook-based form falls back to 25 per minute. */
  lemma ZeroRateIsNotReplaced(d: FormData)
    requires IsDomestic(d.marketType) && d.minuteRateDomestic == 0.0 && d.processingTimePerUnit == 30.0
    ensures ClassRenderCosts(d).processingPerUnit == 0.0
    ensures OrderFormComponent.DisplayedCosts(d).processingPerUnit == 750.0
  {
  }
}
