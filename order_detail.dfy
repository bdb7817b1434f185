/** The order page's client-side logic (frontend/src/components/OrderDetail.js):
    the stage editor's draft and the payload prepared from it when saving,
    the local merge of a saved stage into the order, the processing-type
    toggle of the order editor, the progress figure and the cost helpers.
    Requests, alerts and the delayed refetch are not modelled; saving yields
    the payload that would be sent, or `None` when nothing is sent. */
module OrderDetail {
  import opened Common
  import opened Costs
  import opened Dates
  import opened Pipeline
  import opened ClientOrders
  import opened FormFields
  import Dashboard
  import StageEngine

  /** The stage editor's state (`stageData`): text inputs hold `''` for a
      missing value; `completedUnits` is `None` for the empty input. */
  datatype StageDraft = StageDraft(
    status: Status,
    startDate: string,
    endDate: string,
    percentage: int,
    completedUnits: Option<int>,
    notes: string,
    responsiblePerson: string)

  /** `value || ''` for a stored text. */
  function TextOrEmpty(t: Option<string>): (r: string)
    ensures r == "" <==> t.None? || t.value == ""
    ensures t.Some? ==> r == t.value
  {
    if t.Some? then t.value else ""
  }

  /** `handleStageEdit`: the draft opened for a stage. Unit count 0 shows as
      an empty input, as does a missing one. */
  function StageEdit(s: Stage): (d: StageDraft)
    ensures d.status == s.status && d.percentage == s.percentage
    ensures d.startDate == TextOrEmpty(s.startDate) && d.endDate == TextOrEmpty(s.endDate)
    ensures d.completedUnits.None? <==> UnitsOf(s) == 0
    ensures d.completedUnits.Some? ==> d.completedUnits == s.completedUnits
    ensures d.notes == TextOrEmpty(s.notes) && d.responsiblePerson == TextOrEmpty(s.responsiblePerson)
  {
    StageDraft(s.status, TextOrEmpty(s.startDate), TextOrEmpty(s.endDate), s.percentage,
               if UnitsOf(s) != 0 then s.completedUnits else None,
               TextOrEmpty(s.notes), TextOrEmpty(s.responsiblePerson))
  }

  /** The body of the stage update request: `''` has become `null`. */
  datatype StagePayload = StagePayload(
    status: Status,
    startDate: Option<string>,
    endDate: Option<string>,
    percentage: int,
    completedUnits: Option<int>,
    notes: Option<string>,
    responsiblePerson: Option<string>)

  /** `''` becomes `null`; any other text is kept. */
  function NullIfEmpty(t: string): (r: Option<string>)
    ensures r.None? <==> t == ""
    ensures r.Some? ==> r.value == t
  {
    if t == "" then None else Some(t)
  }

  /** The automatic dates of the first three stages: starting work dates an
      undated start with today, completing dates an undated start and end with
      today. Dates already entered, every other field, and every stage from
      the fourth on are left as they are. */
  function AutoDated(d: StageDraft, index: int, today: string): (r: StageDraft)
    requires today != ""
    ensures index >= 3 ==> r == d
    ensures r.(startDate := d.startDate, endDate := d.endDate) == d
    ensures d.startDate != "" ==> r.startDate == d.startDate
    ensures d.endDate != "" ==> r.endDate == d.endDate
    ensures index < 3 && d.startDate == "" && (d.status == InProgress || d.status == Completed) ==> r.startDate == today
    ensures index < 3 && d.endDate == "" && d.status == Completed ==> r.endDate == today
    ensures d.status != InProgress && d.status != Completed ==> r == d
    ensures d.status == InProgress ==> r.endDate == d.endDate
  {
    if index >= 3 then d
    else if d.status == InProgress then d.(startDate := if d.startDate == "" then today else d.startDate)
    else if d.status == Completed then
      d.(startDate := if d.startDate == "" then today else d.startDate,
         endDate := if d.endDate == "" then today else d.endDate)
    else d
  }

  /** Every empty text of the draft sent as `null`. */
  function Normalised(d: StageDraft): (p: StagePayload)
    ensures p.status == d.status && p.percentage == d.percentage && p.completedUnits == d.completedUnits
    ensures p.startDate == NullIfEmpty(d.startDate) && p.endDate == NullIfEmpty(d.endDate)
    ensures p.notes == NullIfEmpty(d.notes) && p.responsiblePerson == NullIfEmpty(d.responsiblePerson)
  {
    StagePayload(d.status, NullIfEmpty(d.startDate), NullIfEmpty(d.endDate), d.percentage,
                 d.completedUnits, NullIfEmpty(d.notes), NullIfEmpty(d.responsiblePerson))
  }

  /** `!editingStage || !order || !order.stages`: nothing can be saved. */
  predicate CannotSave(editingStage: Option<string>, order: Option<ClientOrder>) {
    editingStage.None? || editingStage.value == "" || order.None? || order.value.stages.None?
  }

  /** `handleStageSave`: nothing is sent without a stage being edited, an
      order and its stages, or when the edited stage is not in the order;
      otherwise the draft, auto-dated by the position of the first stage with
      that id and with empty texts as `null`. `today` is the current UTC date. */
  method HandleStageSave(editingStage: Option<string>, stageData: StageDraft, order: Option<ClientOrder>, today: IsoDate)
    returns (sent: Option<StagePayload>)
    ensures CannotSave(editingStage, order) ==> sent.None?
    ensures !CannotSave(editingStage, order) ==>
      (sent.Some? <==> StageEngine.IndexOfStage(order.value.stages.value, editingStage.value).Some?)
    ensures sent.Some? ==>
      var index := StageEngine.IndexOfStage(order.value.stages.value, editingStage.value).value;
      sent.value == Normalised(AutoDated(stageData, index, IsoFormat(today)))
  {
    if editingStage.None? || editingStage.value == "" || order.None? || order.value.stages.None? {
      return None;
    }
    var updateData := stageData;
    var found := StageEngine.IndexOfStage(order.value.stages.value, editingStage.value);
    if found.None? {
      return None;
    }
    var currentStageIndex := found.value;
    if currentStageIndex < 3 {
      var todayText := IsoFormat(today);
      if updateData.status == InProgress && updateData.startDate == "" {
        updateData := updateData.(startDate := todayText);
      }
      if updateData.status == Completed {
        if updateData.startDate == "" {
          updateData := updateData.(startDate := todayText);
        }
        if updateData.endDate == "" {
          updateData := updateData.(endDate := todayText);
        }
      }
    }
    // The `''`-to-`null` pass over the draft's keys, key by key.
    var startDate := NullIfEmpty(updateData.startDate);
    var endDate := NullIfEmpty(updateData.endDate);
    var notes := NullIfEmpty(updateData.notes);
    var responsiblePerson := NullIfEmpty(updateData.responsiblePerson);
    sent := Some(StagePayload(updateData.status, startDate, endDate, updateData.percentage,
                              updateData.completedUnits, notes, responsiblePerson));
  }

  /** `{ ...stage, ...updatedStageData }`: the payload's fields replace the
      stage's; id, name and `stage_order` stay. */
  function MergeStage(s: Stage, p: StagePayload): (r: Stage)
    ensures r.id == s.id && r.name == s.name && r.stageOrder == s.stageOrder
    ensures r.status == p.status && r.startDate == p.startDate && r.endDate == p.endDate
    ensures r.percentage == p.percentage && r.completedUnits == p.completedUnits
    ensures r.notes == p.notes && r.responsiblePerson == p.responsiblePerson
  {
    s.(status := p.status, startDate := p.startDate, endDate := p.endDate, percentage := p.percentage,
       completedUnits := p.completedUnits, notes := p.notes, responsiblePerson := p.responsiblePerson)
  }

  /** `updateStageInOrder`: every stage with the id takes the payload, all
      other stages and the order's other fields are kept; a missing order or
      stage list is returned as it is. */
  function UpdateStageInOrder(order: Option<ClientOrder>, stageId: string, p: StagePayload): (r: Option<ClientOrder>)
    ensures order.None? || order.value.stages.None? ==> r == order
    ensures order.Some? && order.value.stages.Some? ==>
      r.Some? && r.value.stages.Some? && r.value.(stages := order.value.stages) == order.value &&
      |r.value.stages.value| == |order.value.stages.value| &&
      forall i :: 0 <= i < |order.value.stages.value| ==>
        r.value.stages.value[i] ==
          (if order.value.stages.value[i].id == stageId then MergeStage(order.value.stages.value[i], p)
           else order.value.stages.value[i])
  {
    if order.None? || order.value.stages.None? then order
    else
      var ss := order.value.stages.value;
      var updatedStages := seq(|ss|, i requires 0 <= i < |ss| => if ss[i].id == stageId then MergeStage(ss[i], p) else ss[i]);
      Some(order.value.(stages := Some(updatedStages)))
  }

  /** Merging the same payload again changes nothing more. */
  lemma UpdateStageInOrderIdempotent(order: Option<ClientOrder>, stageId: string, p: StagePayload)
    ensures UpdateStageInOrder(UpdateStageInOrder(order, stageId, p), stageId, p) == UpdateStageInOrder(order, stageId, p)
  {
    if order.Some? && order.value.stages.Some? {
      var once := UpdateStageInOrder(order, stageId, p);
      var twice := UpdateStageInOrder(once, stageId, p);
      assert twice.value.stages.value == once.value.stages.value;
    }
  }

  /** Opening a stage in the editor and saving it untouched sends the stage
      back as it was, for a stage past the auto-dated three whose texts are
      not empty and whose unit count is not 0. */
  lemma UntouchedDraftRoundTrip(s: Stage, index: int, today: IsoDate)
    requires index >= 3
    requires s.startDate != Some("") && s.endDate != Some("") && s.notes != Some("") && s.responsiblePerson != Some("")
    requires s.completedUnits != Some(0)
    ensures MergeStage(s, Normalised(AutoDated(StageEdit(s), index, IsoFormat(today)))) == s
  {
  }

  /** What the untouched round trip does lose: a unit count of 0 (the count
      every unit-based stage starts with) is saved as `null`, and so is an
      empty text; the dates only past the auto-dated three, since those may
      be stamped with today. */
  lemma UntouchedDraftNullsZeroAndEmpty(s: Stage, index: int, today: IsoDate)
    ensures var r := MergeStage(s, Normalised(AutoDated(StageEdit(s), index, IsoFormat(today))));
      s.completedUnits == Some(0) ==> r.completedUnits == None
    ensures var r := MergeStage(s, Normalised(AutoDated(StageEdit(s), index, IsoFormat(today))));
      (s.notes == Some("") ==> r.notes == None) && (s.responsiblePerson == Some("") ==> r.responsiblePerson == None)
    ensures var r := MergeStage(s, Normalised(AutoDated(StageEdit(s), index, IsoFormat(today))));
      index >= 3 ==> (s.startDate == Some("") ==> r.startDate == None) && (s.endDate == Some("") ==> r.endDate == None)
  {
  }

  /** The order editor's checkbox: `(types || [])` toggled. */
  function HandleProcessingTypeToggle(types: Option<seq<string>>, t: string): (r: seq<string>)
    ensures t in r <==> types.None? || t !in types.value
    ensures types.Some? ==> forall x :: x != t ==> (x in r <==> x in types.value)
    ensures types.None? ==> r == [t]
    ensures types.Some? && t in types.value ==> multiset(r) == multiset(types.value)[t := 0]
    ensures types.Some? && t !in types.value ==> r == types.value + [t]
  {
    Toggle(types.GetOr([]), t)
  }

  /** `getProgressPercentage`: 0 without an order; for an empty stage list the
      division gives `NaN` (`None`); otherwise the dashboard's progress figure.
      A loaded order without a stage list makes the source throw. */
  function GetProgressPercentage(order: Option<ClientOrder>): (r: Num)
    requires order.Some? ==> order.value.stages.Some?
    ensures order.None? ==> r == Some(0.0)
    ensures order.Some? && |order.value.stages.value| == 0 ==> r.None?
    ensures order.Some? && |order.value.stages.value| > 0 ==> r == Some(Dashboard.OrderProgress(order) as real)
    ensures r.Some? ==> 0.0 <= r.value <= 100.0
  {
    if order.None? then Some(0.0)
    else
      var ss := order.value.stages.value;
      if |ss| == 0 then None
      else Some(RoundHalfUp(Dashboard.CompletedCount(ss) * 100, |ss|) as real)
  }

  /** `calculateProcessingCostPerUnit`: minutes (0 when missing) times the
      rate with the default-rate fallback; 0 without an order. */
  function ProcessingCostPerUnit(order: Option<ClientOrder>): (r: real)
    ensures order.None? ==> r == 0.0
    ensures order.Some? && !Truthy(order.value.processingTimePerUnit) ==> r == 0.0
    ensures order.Some? && IsDomestic(order.value.marketType) && !Truthy(order.value.minuteRateDomestic) ==>
      r == Or(order.value.processingTimePerUnit, 0.0) * DefaultDomesticRate
    ensures order.Some? && !IsDomestic(order.value.marketType) && !Truthy(order.value.minuteRateForeign) ==>
      r == Or(order.value.processingTimePerUnit, 0.0) * DefaultForeignRate
    ensures order.Some? && IsDomestic(order.value.marketType) && Truthy(order.value.minuteRateDomestic) ==>
      r == Or(order.value.processingTimePerUnit, 0.0) * order.value.minuteRateDomestic.value
    ensures order.Some? && !IsDomestic(order.value.marketType) && Truthy(order.value.minuteRateForeign) ==>
      r == Or(order.value.processingTimePerUnit, 0.0) * order.value.minuteRateForeign.value
  {
    if order.None? then 0.0
    else
      var o := order.value;
      Or(o.processingTimePerUnit, 0.0) * FallbackRate(IsDomestic(o.marketType), o.minuteRateDomestic, o.minuteRateForeign)
  }

  /** `calculateMaterialCostPerUnit`: 0 without an order or quantity,
      otherwise the material cost (0 when missing) shared over the parts. */
  function MaterialCostPerUnit(order: Option<ClientOrder>): (r: real)
    ensures order.None? || !Truthy(order.value.quantity) ==> r == 0.0
    ensures order.Some? && Truthy(order.value.quantity) ==>
      r * order.value.quantity.value == Or(order.value.materialCost, 0.0)
  {
    if order.None? || !Truthy(order.value.quantity) then 0.0
    else Or(order.value.materialCost, 0.0) / order.value.quantity.value
  }

  /** `calculateTotalCostPerUnit`: one part's share of the material plus its
      processing; without a quantity, the processing alone. */
  function TotalCostPerUnit(order: Option<ClientOrder>): (r: real)
    ensures order.None? || !Truthy(order.value.quantity) ==> r == ProcessingCostPerUnit(order)
    ensures order.Some? && Truthy(order.value.quantity) ==>
      r * order.value.quantity.value ==
        Or(order.value.materialCost, 0.0) + order.value.quantity.value * ProcessingCostPerUnit(order)
  {
    MaterialCostPerUnit(order) + ProcessingCostPerUnit(order)
  }

  /** `calculateTotalOrderCost`: the per-part total times `quantity || 1`;
      the page only calls it with an order loaded. */
  function TotalOrderCost(order: Option<ClientOrder>): (r: real)
    requires order.Some?
    ensures Truthy(order.value.quantity) ==>
      r == Or(order.value.materialCost, 0.0) + order.value.quantity.value * ProcessingCostPerUnit(order)
    ensures !Truthy(order.value.quantity) ==> r == ProcessingCostPerUnit(order)
  {
    TotalCostPerUnit(order) * Or(order.value.quantity, 1.0)
  }

  /** With a quantity the page shows the dashboard's total; without one it
      shows one part's processing where the dashboard shows 0. */
  lemma TotalOrderCostMatchesDashboard(o: ClientOrder)
    ensures Truthy(o.quantity) ==> TotalOrderCost(Some(o)) == Dashboard.CalculateTotalCost(Some(o))
    ensures !Truthy(o.quantity) ==>
      TotalOrderCost(Some(o)) == ProcessingCostPerUnit(Some(o)) && Dashboard.CalculateTotalCost(Some(o)) == 0.0
  {
    if Truthy(o.quantity) {
      var q := o.quantity.value;
      var rate := FallbackRate(IsDomestic(o.marketType), o.minuteRateDomestic, o.minuteRateForeign);
      SharedOutTotal(Or(o.materialCost, 0.0), q, Or(o.processingTimePerUnit, 0.0), rate);
    }
  }

  /** Sharing the material cost out over any non-zero quantity and
      multiplying back gives the material cost plus every part's processing. */
  lemma SharedOutTotal(material: real, quantity: real, time: real, rate: real)
    requires quantity != 0.0
    ensures (material / quantity + time * rate) * quantity == InlineTotal(material, quantity, time, rate)
  {
    assert material / quantity * quantity == material;
  }
}
