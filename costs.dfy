/** The cost arithmetic every part of the project repeats, in its variants:
    the minute rate chosen by market type (with or without the browser's
    fallback to the default rates, or fixed at them), the material cost per
    unit guarded against a non-positive quantity, and the two ways of forming
    an order total, `material + quantity * time * rate` and
    `(material per unit + time * rate) * quantity`. Costs are exact reals. */
module Costs {
  import opened Common

  /** The default minute rates: 25 per minute on the domestic market, 0.42
      per minute on the foreign one. */
  const DefaultDomesticRate: real := 25.0
  const DefaultForeignRate: real := 0.42

  /** The browser compares the market type text with `'domestic'`; any other
      text selects the foreign rate. */
  predicate IsDomestic(marketType: string) {
    marketType == "domestic"
  }

  /** The rate the market selects, taken as stored. */
  function PickRate(domestic: bool, domesticRate: real, foreignRate: real): (r: real)
    ensures domestic ==> r == domesticRate
    ensures !domestic ==> r == foreignRate
  {
    if domestic then domesticRate else foreignRate
  }

  /** `rate || 25` or `rate || 0.42`: a zero or missing stored rate falls back
      to the market's default. */
  function FallbackRate(domestic: bool, domesticRate: Num, foreignRate: Num): (r: real)
    ensures domestic && Truthy(domesticRate) ==> r == domesticRate.value
    ensures !domestic && Truthy(foreignRate) ==> r == foreignRate.value
    ensures domestic && !Truthy(domesticRate) ==> r == DefaultDomesticRate
    ensures !domestic && !Truthy(foreignRate) ==> r == DefaultForeignRate
    ensures r != 0.0
  {
    if domestic then Or(domesticRate, DefaultDomesticRate) else Or(foreignRate, DefaultForeignRate)
  }

  /** A rate fixed at the market's default, as the two test forms use. */
  function FixedRate(domestic: bool): (r: real)
    ensures r > 0.0
  {
    if domestic then DefaultDomesticRate else DefaultForeignRate
  }

  /** Stored rates that are present and not zero are used as they are: the
      fallback and the plain choice then agree. */
  lemma FallbackAgreesWithStoredRates(domestic: bool, domesticRate: real, foreignRate: real)
    requires domesticRate != 0.0 && foreignRate != 0.0
    ensures FallbackRate(domestic, Some(domesticRate), Some(foreignRate)) == PickRate(domestic, domesticRate, foreignRate)
  {
  }

  /** `quantity > 0 ? material / quantity : 0`. */
  function MaterialPerUnit(material: real, quantity: real): (r: real)
    ensures quantity > 0.0 ==> r * quantity == material
    ensures quantity <= 0.0 ==> r == 0.0
  {
    if quantity > 0.0 then material / quantity else 0.0
  }

  /** `material + quantity * time * rate`: the total the forms display. */
  function InlineTotal(material: real, quantity: real, time: real, rate: real): real {
    material + quantity * time * rate
  }

  /** `(material per unit + time * rate) * quantity`: the total built from the
      per-unit cost. */
  function PerUnitTotal(materialPerUnit: real, quantity: real, time: real, rate: real): real {
    (materialPerUnit + time * rate) * quantity
  }

  /** For a positive quantity the two totals are the same number. */
  lemma TotalsAgreeForPositiveQuantity(material: real, quantity: real, time: real, rate: real)
    requires quantity > 0.0
    ensures PerUnitTotal(MaterialPerUnit(material, quantity), quantity, time, rate) ==
            InlineTotal(material, quantity, time, rate)
  {
    var m := MaterialPerUnit(material, quantity);
    calc {
      PerUnitTotal(m, quantity, time, rate);
      m * quantity + quantity * time * rate;
      { assert m * quantity == material; }
      InlineTotal(material, quantity, time, rate);
    }
  }

  /** For a quantity of 0 or below the per-unit total drops the material cost,
      so the two totals differ by exactly that cost. */
  lemma TotalsDifferByMaterialOtherwise(material: real, quantity: real, time: real, rate: real)
    requires quantity <= 0.0
    ensures InlineTotal(material, quantity, time, rate) -
            PerUnitTotal(MaterialPerUnit(material, quantity), quantity, time, rate) == material
  {
  }

  /** The sample order of the cost tests: 10 parts, material 1000, 45 minutes
      per part at 25 per minute give 100 and 1125 per part, 1225 per part in
      all and 12250 for the order; on the foreign market at 0.42 per minute,
      18.9, 118.9 and 1189. */
  lemma SampleOrderCosts()
    ensures MaterialPerUnit(1000.0, 10.0) == 100.0
    ensures 45.0 * DefaultDomesticRate == 1125.0
    ensures MaterialPerUnit(1000.0, 10.0) + 45.0 * DefaultDomesticRate == 1225.0
    ensures PerUnitTotal(MaterialPerUnit(1000.0, 10.0), 10.0, 45.0, DefaultDomesticRate) == 12250.0
    ensures InlineTotal(1000.0, 10.0, 45.0, DefaultDomesticRate) == 12250.0
    ensures 45.0 * DefaultForeignRate == 18.9
    ensures MaterialPerUnit(1000.0, 10.0) + 45.0 * DefaultForeignRate == 118.9
    ensures InlineTotal(1000.0, 10.0, 45.0, DefaultForeignRate) == 1189.0
  {
  }
}
