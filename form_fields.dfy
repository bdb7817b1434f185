/** The state the order-creation forms keep (frontend/src/components/OrderForm.js
    and OrderFormClass.js): the form record, the update of one named field,
    and the processing-type checkbox toggle that OrderDetail.js shares. The
    text an input holds is not modelled; a handler receives what `parseFloat`
    or `parseInt` made of it (`None` for `NaN`). */
module FormFields {
  import opened Common

  datatype FormData = FormData(
    orderNumber: string,
    clientName: string,
    description: string,
    quantity: real,
    marketType: string,
    materialCost: real,
    processingTimePerUnit: real,
    processingTypes: seq<string>,
    minuteRateDomestic: real,
    minuteRateForeign: real)

  /** Both forms start from the same record: one part, domestic market, no
      material cost, 30 minutes per part, no processing type, the default rates. */
  const InitialFormData := FormData("", "", "", 1.0, "domestic", 0.0, 30.0, [], 25.0, 0.42)

  datatype NumberField = Quantity | MaterialCost | ProcessingTimePerUnit | MinuteRateDomestic | MinuteRateForeign

  datatype TextField = OrderNumber | ClientName | Description | MarketType

  /** `{ ...prev, [name]: value }` for the fields the handlers address. */
  datatype FieldValue = NumberValue(numberField: NumberField, number: real) | TextValue(textField: TextField, text: string)

  /** The form record with one field replaced; every other field, and the
      processing types, are those of `d`. */
  function With(d: FormData, v: FieldValue): (r: FormData)
    ensures r.processingTypes == d.processingTypes
    ensures v.NumberValue? && v.numberField == Quantity ==> r == d.(quantity := v.number)
    ensures v.NumberValue? && v.numberField == MaterialCost ==> r == d.(materialCost := v.number)
    ensures v.NumberValue? && v.numberField == ProcessingTimePerUnit ==> r == d.(processingTimePerUnit := v.number)
    ensures v.NumberValue? && v.numberField == MinuteRateDomestic ==> r == d.(minuteRateDomestic := v.number)
    ensures v.NumberValue? && v.numberField == MinuteRateForeign ==> r == d.(minuteRateForeign := v.number)
    ensures v.TextValue? && v.textField == OrderNumber ==> r == d.(orderNumber := v.text)
    ensures v.TextValue? && v.textField == ClientName ==> r == d.(clientName := v.text)
    ensures v.TextValue? && v.textField == Description ==> r == d.(description := v.text)
    ensures v.TextValue? && v.textField == MarketType ==> r == d.(marketType := v.text)
  {
    match v
    case NumberValue(f, x) =>
      (match f
       case Quantity => d.(quantity := x)
       case MaterialCost => d.(materialCost := x)
       case ProcessingTimePerUnit => d.(processingTimePerUnit := x)
       case MinuteRateDomestic => d.(minuteRateDomestic := x)
       case MinuteRateForeign => d.(minuteRateForeign := x))
    case TextValue(f, s) =>
      (match f
       case OrderNumber => d.(orderNumber := s)
       case ClientName => d.(clientName := s)
       case Description => d.(description := s)
       case MarketType => d.(marketType := s))
  }

  /** Which field a change addresses. */
  predicate SameField(a: FieldValue, b: FieldValue) {
    (a.NumberValue? && b.NumberValue? && a.numberField == b.numberField) ||
    (a.TextValue? && b.TextValue? && a.textField == b.textField)
  }

  /** The last write to a field wins, and writes to different fields commute. */
  lemma WithLastWriteWins(d: FormData, a: FieldValue, b: FieldValue)
    ensures SameField(a, b) ==> With(With(d, a), b) == With(d, b)
    ensures !SameField(a, b) ==> With(With(d, a), b) == With(With(d, b), a)
  {
    // One case per kind of the first change: the solver then only has to
    // compare field names of the same kind.
    match a
    case NumberValue(fa, _) =>
      if b.NumberValue? && fa == b.numberField {
      } else {
      }
    case TextValue(fa, _) =>
      if b.TextValue? && fa == b.textField {
      } else {
      }
  }

  /** `types.filter(t => t !== type)`. */
  function Without(types: seq<string>, t: string): (r: seq<string>)
    ensures t !in r
    ensures forall x :: x != t ==> (x in r <==> x in types)
    ensures t !in types ==> r == types
    ensures |r| <= |types|
  {
    if |types| == 0 then []
    else (if types[0] == t then [] else [types[0]]) + Without(types[1..], t)
  }

  /** The filter drops every occurrence of `t` and keeps every other type
      as often as it occurs. */
  lemma {:induction false} WithoutCounts(types: seq<string>, t: string)
    ensures multiset(Without(types, t)) == multiset(types)[t := 0]
  {
    if |types| > 0 {
      assert types == [types[0]] + types[1..];
      WithoutCounts(types[1..], t);
    }
  }

  /** The filter works element by element: filtering a concatenation
      filters each part in place, so the kept types keep their order. */
  lemma {:induction false} WithoutConcat(a: seq<string>, b: seq<string>, t: string)
    ensures Without(a + b, t) == Without(a, t) + Without(b, t)
  {
    if |a| == 0 {
      assert a + b == b;
    } else {
      var head := if a[0] == t then [] else [a[0]];
      calc {
        Without(a + b, t);
      == { assert (a + b)[0] == a[0] && (a + b)[1..] == a[1..] + b; WithoutStep(a + b, t); }
        head + Without(a[1..] + b, t);
      == { WithoutConcat(a[1..], b, t); }
        head + (Without(a[1..], t) + Without(b, t));
      ==
        (head + Without(a[1..], t)) + Without(b, t);
      == { WithoutStep(a, t); }
        Without(a, t) + Without(b, t);
      }
    }
  }

  /** One step of the filter: the first type, unless it is `t`, then the rest filtered. */
  lemma WithoutStep(types: seq<string>, t: string)
    requires |types| > 0
    ensures Without(types, t) == (if types[0] == t then [] else [types[0]]) + Without(types[1..], t)
  {
  }

  /** The checkbox handler: a present type is removed (every occurrence),
      an absent one appended. */
  function Toggle(types: seq<string>, t: string): (r: seq<string>)
    ensures t in r <==> t !in types
    ensures forall x :: x != t ==> (x in r <==> x in types)
    ensures t !in types ==> r == types + [t]
    ensures t in types ==> multiset(r) == multiset(types)[t := 0]
  {
    if t in types then WithoutCounts(types, t); Without(types, t) else types + [t]
  }

  lemma {:induction false} WithoutAppended(types: seq<string>, t: string)
    ensures Without(types + [t], t) == Without(types, t)
  {
    if |types| == 0 {
      assert Without([t], t) == [] + Without([], t);
    } else {
      assert (types + [t])[1..] == types[1..] + [t];
      WithoutAppended(types[1..], t);
    }
  }

  /** Ticking a box and unticking it again restores the list. */
  lemma ToggleTwiceRestores(types: seq<string>, t: string)
    requires t !in types
    ensures Toggle(Toggle(types, t), t) == types
  {
    WithoutAppended(types, t);
  }
}
