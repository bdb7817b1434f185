/** The reducer-based test form (frontend/src/components/SimpleOrderForm.js):
    `formReducer` over the form state, the input handlers that coerce what
    was typed, and the figures shown at the fixed default rates. The
    `Math.random()` each dispatch stores in `_updateId` is a parameter. */
module SimpleOrderForm {
  import opened Common
  import opened Costs
  import opened FormCosts

  datatype FormState = FormState(
    quantity: real,
    materialCost: real,
    processingTime: real,
    marketType: string,
    testClicks: int,
    updateId: real)

  datatype Action =
    | SetQuantity(quantity: real)
    | SetMaterialCost(materialCost: real)
    | SetProcessingTime(processingTime: real)
    | SetMarketType(marketType: string)
    | IncrementClicks
    | Unknown(actionType: string)

  /** `formReducer`: an unknown action returns the very same state; every
      other action stores a fresh `_updateId` and changes exactly its own
      field, `INCREMENT_CLICKS` adding one click. */
  function FormReducer(state: FormState, action: Action, updateId: real): (r: FormState)
    ensures action.Unknown? ==> r == state
    ensures !action.Unknown? ==> r.updateId == updateId
    ensures action.SetQuantity? ==>
      r.quantity == action.quantity && r.(quantity := state.quantity, updateId := state.updateId) == state
    ensures action.SetMaterialCost? ==>
      r.materialCost == action.materialCost && r.(materialCost := state.materialCost, updateId := state.updateId) == state
    ensures action.SetProcessingTime? ==>
      r.processingTime == action.processingTime && r.(processingTime := state.processingTime, updateId := state.updateId) == state
    ensures action.SetMarketType? ==>
      r.marketType == action.marketType && r.(marketType := state.marketType, updateId := state.updateId) == state
    ensures action.IncrementClicks? ==>
      r.testClicks == state.testClicks + 1 && r.(testClicks := state.testClicks, updateId := state.updateId) == state
  {
    var newState := state.(updateId := updateId);
    match action
    case SetQuantity(q) => newState.(quantity := q)
    case SetMaterialCost(m) => newState.(materialCost := m)
    case SetProcessingTime(t) => newState.(processingTime := t)
    case SetMarketType(mt) => newState.(marketType := mt)
    case IncrementClicks => newState.(testClicks := state.testClicks + 1)
    case Unknown(_) => state
  }

  /** A run of dispatches, each with the `_updateId` it draws. */
  function Dispatch(state: FormState, actions: seq<Action>, updateIds: seq<real>): FormState
    requires |updateIds| == |actions|
    decreases |actions|
  {
    if |actions| == 0 then state
    else Dispatch(FormReducer(state, actions[0], updateIds[0]), actions[1..], updateIds[1..])
  }

  function ClickCount(actions: seq<Action>): nat {
    if |actions| == 0 then 0 else (if actions[0].IncrementClicks? then 1 else 0) + ClickCount(actions[1..])
  }

  /** The click counter counts exactly the `INCREMENT_CLICKS` dispatches,
      whatever else is dispatched in between. */
  lemma {:induction false} DispatchCountsClicks(state: FormState, actions: seq<Action>, updateIds: seq<real>)
    requires |updateIds| == |actions|
    ensures Dispatch(state, actions, updateIds).testClicks == state.testClicks + ClickCount(actions)
    decreases |actions|
  {
    if |actions| > 0 {
      DispatchCountsClicks(FormReducer(state, actions[0], updateIds[0]), actions[1..], updateIds[1..]);
    }
  }

  /** The quantity input dispatches `parseInt(value) || 1`, so the stored
      quantity is never 0. */
  function OnQuantityChange(state: FormState, parsed: Option<int>, updateId: real): (r: FormState)
    ensures r.quantity != 0.0
    ensures parsed.Some? && parsed.value != 0 ==> r.quantity == parsed.value as real
    ensures parsed.None? || parsed.value == 0 ==> r.quantity == 1.0
    ensures r == FormReducer(state, SetQuantity(r.quantity), updateId)
  {
    FormReducer(state, SetQuantity(IntOr(parsed, 1) as real), updateId)
  }

  /** The material input dispatches `parseFloat(value) || 0`. */
  function OnMaterialCostChange(state: FormState, parsed: Num, updateId: real): (r: FormState)
    ensures Truthy(parsed) ==> r.materialCost == parsed.value
    ensures !Truthy(parsed) ==> r.materialCost == 0.0
    ensures r == FormReducer(state, SetMaterialCost(r.materialCost), updateId)
  {
    FormReducer(state, SetMaterialCost(Or(parsed, 0.0)), updateId)
  }

  /** The processing-time input dispatches `parseFloat(value) || 0`. */
  function OnProcessingTimeChange(state: FormState, parsed: Num, updateId: real): (r: FormState)
    ensures Truthy(parsed) ==> r.processingTime == parsed.value
    ensures !Truthy(parsed) ==> r.processingTime == 0.0
    ensures r == FormReducer(state, SetProcessingTime(r.processingTime), updateId)
  {
    FormReducer(state, SetProcessingTime(Or(parsed, 0.0)), updateId)
  }

  /** The figures shown: the rate is fixed at 25 per minute for the domestic
      market and 0.42 otherwise, whatever the state holds. */
  function StateCosts(state: FormState): (c: CostSummary)
    ensures c.processingPerUnit == state.processingTime * FixedRate(IsDomestic(state.marketType))
    ensures c.totalOrder == state.materialCost + state.quantity * c.processingPerUnit
    ensures state.quantity > 0.0 ==> c.totalOrder == c.totalPerUnit * state.quantity
    ensures state.quantity <= 0.0 ==> c.materialPerUnit == 0.0
  {
    RenderCosts(state.quantity, state.materialCost, state.processingTime, FixedRate(IsDomestic(state.marketType)))
  }

  /** Entering the sample order (10 parts, material 1000, 45 minutes) shows
      1225 per part and 12250 in all. */
  lemma SampleEntry(state: FormState, id1: real, id2: real, id3: real)
    requires state.marketType == "domestic"
    ensures var s := OnProcessingTimeChange(OnMaterialCostChange(OnQuantityChange(state, Some(10), id1), Some(1000.0), id2), Some(45.0), id3);
      StateCosts(s).totalPerUnit == 1225.0 && StateCosts(s).totalOrder == 12250.0
  {
  }
}
