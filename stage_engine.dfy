/** The backend's stage logic (backend/server.py): building the default
    pipeline, the per-stage percentage, the two cascades over earlier stages,
    and the stage-list part of the stage update endpoint. The order document's
    stage list is an array updated in place, as the source mutates its list of
    stage dictionaries; each in-place method is proved against a function on
    the sequence of stages, and the promised properties are proved about those
    functions. */
module StageEngine {
  import opened Common
  import opened Dates
  import opened Pipeline

  /** `create_default_stages`: one pending stage at 0% per configuration
      entry; unit-based stages start with 0 units. Stage ids come from
      `uuid4()` in the source and are passed in here. */
  method CreateDefaultStages(ids: seq<string>) returns (stages: seq<Stage>)
    requires |ids| == |StagesConfig|
    ensures IsDefaultPipeline(stages, ids)
  {
    stages := [];
    var i := 0;
    while i < |StagesConfig|
      invariant 0 <= i <= |StagesConfig|
      invariant |stages| == i
      invariant forall j :: 0 <= j < i ==> IsDefaultStage(stages[j], j, ids[j])
    {
      var config := StagesConfig[i];
      var stage := Stage(ids[i], config.name, Pending, None, None, 0, None, None, None, None);
      if config.hasUnits {
        stage := stage.(completedUnits := Some(0));
      }
      stages := stages + [stage];
      i := i + 1;
    }
  }

  /** `calculate_stage_percentage`: stages 1 to 3 are all or nothing; stages
      4 to 8 report finished units as a share of the order quantity, rounded
      to the nearest integer (ties to even, as Python's `round`) and capped at
      100. */
  function StagePercentage(index: int, s: Stage, totalQuantity: int, isCompleted: bool): (p: int)
    ensures index < UnitStagesFrom ==> p == (if isCompleted then 100 else 0)
    ensures index >= UnitStagesFrom && totalQuantity <= 0 ==> p == 0
    ensures p <= 100
    ensures UnitsOf(s) >= 0 ==> p >= 0
    ensures index >= UnitStagesFrom && totalQuantity > 0 && UnitsOf(s) >= totalQuantity ==> p == 100
    ensures index >= UnitStagesFrom && totalQuantity > 0 && p < 100 ==>
      -totalQuantity <= 2 * (p * totalQuantity - 100 * UnitsOf(s)) <= totalQuantity
    ensures index >= UnitStagesFrom && totalQuantity > 0 ==>
      p == Min(100, RoundHalfEven(UnitsOf(s) * 100, totalQuantity))
  {
    if index < UnitStagesFrom then
      (if isCompleted then 100 else 0)
    else
      var units := UnitsOf(s);
      if totalQuantity > 0 then
        if units >= 0 then
          RoundHalfEvenAtLeast(units * 100, totalQuantity, 0);
          if units >= totalQuantity then
            RoundHalfEvenAtLeast(units * 100, totalQuantity, 100);
            Min(100, RoundHalfEven(units * 100, totalQuantity))
          else Min(100, RoundHalfEven(units * 100, totalQuantity))
        else Min(100, RoundHalfEven(units * 100, totalQuantity))
      else 0
  }

  /** More finished units never give a lower percentage. */
  lemma {:induction false} StagePercentageMonotone(index: int, s1: Stage, s2: Stage, totalQuantity: int, isCompleted: bool)
    requires UnitsOf(s1) <= UnitsOf(s2)
    ensures StagePercentage(index, s1, totalQuantity, isCompleted) <= StagePercentage(index, s2, totalQuantity, isCompleted)
  {
    if index >= UnitStagesFrom && totalQuantity > 0 {
      RoundHalfEvenMonotone(UnitsOf(s1) * 100, UnitsOf(s2) * 100, totalQuantity);
    }
  }

  /** The change the unit cascade makes to an earlier stage it raises to
      `units`: new count and percentage, a pending stage set in progress, and
      a start date filled in only where none was set. */
  function Raised(s: Stage, index: int, units: int, totalQuantity: int, date: Option<string>): Stage {
    var t := s.(completedUnits := Some(units));
    t.(percentage := StagePercentage(index, t, totalQuantity, false),
       status := if t.status == Pending then InProgress else t.status,
       startDate := if !DateSet(t.startDate) && DateSet(date) then date else t.startDate)
  }

  /** Whether the unit cascade from stage `index` raises stage `i`. */
  predicate RaisesAt(ss: seq<Stage>, index: int, i: int)
    requires 0 <= index < |ss| && 0 <= i < |ss|
  {
    index >= UnitStagesFrom && UnitStagesFrom <= i < index &&
    UnitsOf(ss[index]) > 0 && UnitsOf(ss[index]) > UnitsOf(ss[i])
  }

  /** `update_previous_stages_with_units` on the value of the stage list. */
  function CascadeUnits(ss: seq<Stage>, index: int, totalQuantity: int, date: Option<string>): (r: seq<Stage>)
    requires 0 <= index < |ss|
    ensures |r| == |ss|
    ensures forall i :: 0 <= i < |ss| && !(UnitStagesFrom <= i < index) ==> r[i] == ss[i]
    ensures index < UnitStagesFrom || UnitsOf(ss[index]) <= 0 ==> r == ss
    ensures forall i :: 0 <= i < |ss| ==> UnitsOf(r[i]) >= UnitsOf(ss[i])
    ensures forall i :: UnitStagesFrom <= i < index && UnitsOf(ss[index]) > 0 ==>
      UnitsOf(r[i]) >= UnitsOf(ss[index])
    ensures forall i :: 0 <= i < |ss| ==>
      r[i].id == ss[i].id && r[i].name == ss[i].name && r[i].endDate == ss[i].endDate
    ensures forall i :: 0 <= i < |ss| && RaisesAt(ss, index, i) ==>
      r[i].status == (if ss[i].status == Pending then InProgress else ss[i].status)
    ensures forall i :: 0 <= i < |ss| && DateSet(ss[i].startDate) ==> r[i].startDate == ss[i].startDate
    ensures forall i :: 0 <= i < |ss| && RaisesAt(ss, index, i) && DateSet(date) ==> DateSet(r[i].startDate)
    ensures forall i :: 0 <= i < |ss| && !RaisesAt(ss, index, i) ==> r[i] == ss[i]
    ensures forall i :: 0 <= i < |ss| && RaisesAt(ss, index, i) ==>
      r[i].completedUnits == Some(UnitsOf(ss[index])) &&
      r[i].percentage == StagePercentage(i, r[i], totalQuantity, false) &&
      r[i].startDate == (if !DateSet(ss[i].startDate) && DateSet(date) then date else ss[i].startDate)
    ensures forall i :: 0 <= i < |ss| ==>
      r[i].notes == ss[i].notes && r[i].responsiblePerson == ss[i].responsiblePerson &&
      r[i].stageOrder == ss[i].stageOrder
  {
    seq(|ss|, i requires 0 <= i < |ss| =>
      if RaisesAt(ss, index, i) then Raised(ss[i], i, UnitsOf(ss[index]), totalQuantity, date) else ss[i])
  }

  /** `update_previous_stages_with_units`, in place. */
  method UpdatePreviousStagesWithUnits(stages: array<Stage>, currentStageIndex: int, totalQuantity: int, currentStageDate: Option<string>)
    requires 0 <= currentStageIndex < stages.Length
    modifies stages
    ensures stages[..] == CascadeUnits(old(stages[..]), currentStageIndex, totalQuantity, currentStageDate)
  {
    if currentStageIndex < UnitStagesFrom {
      return;
    }
    var currentStage := stages[currentStageIndex];
    var currentUnits := UnitsOf(currentStage);
    if currentUnits > 0 {
      for i := UnitStagesFrom to currentStageIndex
        invariant stages[currentStageIndex] == currentStage
        invariant forall j :: 0 <= j < stages.Length ==>
          stages[j] == if UnitStagesFrom <= j < i && RaisesAt(old(stages[..]), currentStageIndex, j)
                       then Raised(old(stages[j]), j, currentUnits, totalQuantity, currentStageDate)
                       else old(stages[j])
      {
        if i < stages.Length {
          var prevStage := stages[i];
          var prevUnits := UnitsOf(prevStage);
          if currentUnits > prevUnits {
            prevStage := prevStage.(completedUnits := Some(currentUnits));
            prevStage := prevStage.(percentage := StagePercentage(i, prevStage, totalQuantity, false));
            if prevStage.status == Pending {
              prevStage := prevStage.(status := InProgress);
            }
            if !DateSet(prevStage.startDate) && DateSet(currentStageDate) {
              prevStage := prevStage.(startDate := currentStageDate);
            }
            stages[i] := prevStage;
          }
        }
      }
    }
  }

  /** The change the status cascade makes to an earlier stage that was not
      completed: completed at 100%, with only its missing dates filled in. */
  function Completing(s: Stage, currentStart: Option<string>, currentEnd: Option<string>): Stage {
    s.(status := Completed,
       percentage := 100,
       startDate := if DateSet(s.startDate) then s.startDate else DateOr(currentStart, currentEnd),
       endDate := if DateSet(s.endDate) then s.endDate else currentEnd)
  }

  /** Whether completing stage `index` touches stage `i`. */
  predicate CompletesAt(ss: seq<Stage>, index: int, status: Status, i: int)
    requires 0 <= i < |ss|
  {
    index < UnitStagesFrom && status == Completed && i < index && ss[i].status != Completed
  }

  /** `update_previous_status_stages` on the value of the stage list. */
  function CascadeStatus(ss: seq<Stage>, index: int, status: Status, currentStart: Option<string>, currentEnd: Option<string>): (r: seq<Stage>)
    ensures |r| == |ss|
    ensures index >= UnitStagesFrom || status != Completed ==> r == ss
    ensures forall i :: 0 <= i < |ss| && i >= index ==> r[i] == ss[i]
    ensures forall i :: 0 <= i < |ss| && ss[i].status == Completed ==> r[i] == ss[i]
    ensures forall i :: 0 <= i < |ss| && i < index && index < UnitStagesFrom && status == Completed ==>
      r[i].status == Completed
    ensures forall i :: 0 <= i < |ss| && CompletesAt(ss, index, status, i) ==>
      r[i].percentage == 100 &&
      r[i].startDate == (if DateSet(ss[i].startDate) then ss[i].startDate else DateOr(currentStart, currentEnd)) &&
      r[i].endDate == (if DateSet(ss[i].endDate) then ss[i].endDate else currentEnd)
    ensures forall i :: 0 <= i < |ss| ==>
      r[i].id == ss[i].id && r[i].name == ss[i].name && r[i].completedUnits == ss[i].completedUnits
    ensures forall i :: 0 <= i < |ss| ==>
      r[i].notes == ss[i].notes && r[i].responsiblePerson == ss[i].responsiblePerson &&
      r[i].stageOrder == ss[i].stageOrder
  {
    seq(|ss|, i requires 0 <= i < |ss| =>
      if CompletesAt(ss, index, status, i) then Completing(ss[i], currentStart, currentEnd) else ss[i])
  }

  /** `update_previous_status_stages`, in place. */
  method UpdatePreviousStatusStages(stages: array<Stage>, currentStageIndex: int, currentStageStatus: Status,
                                    currentStart: Option<string>, currentEnd: Option<string>)
    modifies stages
    ensures stages[..] == CascadeStatus(old(stages[..]), currentStageIndex, currentStageStatus, currentStart, currentEnd)
  {
    if currentStageIndex >= UnitStagesFrom || currentStageStatus != Completed {
      return;
    }
    var i := 0;
    while i < currentStageIndex
      invariant 0 <= i && (i <= currentStageIndex || i == 0)
      invariant forall j :: 0 <= j < stages.Length ==>
        stages[j] == if j < i && CompletesAt(old(stages[..]), currentStageIndex, currentStageStatus, j)
                     then Completing(old(stages[j]), currentStart, currentEnd)
                     else old(stages[j])
    {
      if i < stages.Length {
        var prevStage := stages[i];
        if prevStage.status != Completed {
          prevStage := prevStage.(status := Completed, percentage := 100);
          if !DateSet(prevStage.startDate) {
            prevStage := prevStage.(startDate := DateOr(currentStart, currentEnd));
          }
          if !DateSet(prevStage.endDate) {
            prevStage := prevStage.(endDate := currentEnd);
          }
          stages[i] := prevStage;
        }
      }
      i := i + 1;
    }
  }

  /** The body of a stage update request: each field is optional. */
  datatype StageUpdate = StageUpdate(
    status: Option<Status>,
    startDate: Option<Date>,
    endDate: Option<Date>,
    percentage: Option<int>,
    completedUnits: Option<int>,
    notes: Option<string>,
    responsiblePerson: Option<string>)

  predicate ValidUpdate(upd: StageUpdate) {
    (upd.startDate.Some? ==> Valid(upd.startDate.value)) &&
    (upd.endDate.Some? ==> Valid(upd.endDate.value))
  }

  /** A date from the request as the document stores it. */
  function StoredDate(d: Option<Date>): (r: Option<string>)
    requires d.Some? ==> Valid(d.value)
    ensures r.None? <==> d.None?
    ensures d.Some? ==> ParseIso(r.value) == d
  {
    match d
    case None => None
    case Some(date) => ParseFormat(date); Some(IsoFormat(date))
  }

  /** The first stage carrying `id`, as the search loop of the update finds it. */
  function IndexOfStage(ss: seq<Stage>, id: string): (r: Option<nat>)
    ensures r.Some? ==> r.value < |ss| && ss[r.value].id == id &&
                        forall j :: 0 <= j < r.value ==> ss[j].id != id
    ensures r.None? ==> forall j :: 0 <= j < |ss| ==> ss[j].id != id
  {
    if |ss| == 0 then None
    else if ss[0].id == id then Some(0)
    else match IndexOfStage(ss[1..], id)
      case None => None
      case Some(k) => Some(k + 1)
  }

  /** Writing the supplied fields of the request onto the stage; absent
      fields leave the stage's value alone. */
  function ApplyUpdate(s: Stage, upd: StageUpdate): Stage
    requires ValidUpdate(upd)
  {
    s.(status := upd.status.GetOr(s.status),
       startDate := if upd.startDate.Some? then StoredDate(upd.startDate) else s.startDate,
       endDate := if upd.endDate.Some? then StoredDate(upd.endDate) else s.endDate,
       percentage := upd.percentage.GetOr(s.percentage),
       completedUnits := if upd.completedUnits.Some? then upd.completedUnits else s.completedUnits,
       notes := if upd.notes.Some? then upd.notes else s.notes,
       responsiblePerson := if upd.responsiblePerson.Some? then upd.responsiblePerson else s.responsiblePerson)
  }

  /** What the update does to the matched stage after writing the supplied
      fields: the percentage is recomputed, and a unit-based stage with units
      entered leaves `pending` and gets today's date if it had no start date. */
  function Recomputed(index: int, s: Stage, totalQuantity: int, today: Date): Stage
    requires Valid(today)
  {
    if index < UnitStagesFrom then
      s.(percentage := StagePercentage(index, s, totalQuantity, s.status == Completed))
    else
      var t := s.(percentage := StagePercentage(index, s, totalQuantity, false));
      if UnitsOf(t) > 0 then
        t.(status := if t.status == Pending then InProgress else t.status,
           startDate := if DateSet(t.startDate) then t.startDate else Some(IsoFormat(today)))
      else t
  }

  const StageNotFound := HttpError(404, "Stage not found")

  const StageUpdated := "Stage updated successfully"

  /** `order_data.get('quantity', 1)`: `None` stands for a document without the key. */
  function TotalQuantity(quantity: Option<int>): int {
    quantity.GetOr(1)
  }

  /** The stage list after a stage update request, or the error it raises. */
  function UpdatedStages(ss: seq<Stage>, stageId: string, upd: StageUpdate, quantity: Option<int>, today: Date): (r: Result<seq<Stage>>)
    requires ValidUpdate(upd) && Valid(today)
    ensures r.Err? <==> forall j :: 0 <= j < |ss| ==> ss[j].id != stageId
    ensures r.Err? ==> r.error == StageNotFound
    ensures r.Ok? ==> |r.value| == |ss|
    ensures r.Ok? ==> forall i :: 0 <= i < |ss| ==> r.value[i].id == ss[i].id && r.value[i].name == ss[i].name
    ensures r.Ok? ==> var k := IndexOfStage(ss, stageId).value;
      r.value[k].percentage ==
        StagePercentage(k, r.value[k], TotalQuantity(quantity), k < UnitStagesFrom && r.value[k].status == Completed)
  {
    match IndexOfStage(ss, stageId)
    case None => Err(StageNotFound)
    case Some(k) =>
      var total := TotalQuantity(quantity);
      var s := Recomputed(k, ApplyUpdate(ss[k], upd), total, today);
      var ss1 := ss[k := s];
      if k < UnitStagesFrom then Ok(CascadeStatus(ss1, k, s.status, s.startDate, s.endDate))
      else Ok(CascadeUnits(ss1, k, total, s.startDate))
  }

  /** The stage-list part of `update_stage`: find the stage by id, write the
      supplied fields, recompute, then run the cascade for its kind of stage.
      An unknown id raises 404 and changes nothing. "Today" is a parameter. */
  method UpdateStage(stages: array<Stage>, stageId: string, upd: StageUpdate, quantity: Option<int>, today: Date)
    returns (r: Result<string>)
    requires ValidUpdate(upd) && Valid(today)
    modifies stages
    ensures UpdatedStages(old(stages[..]), stageId, upd, quantity, today).Err? ==>
      r == Err(StageNotFound) && stages[..] == old(stages[..])
    ensures UpdatedStages(old(stages[..]), stageId, upd, quantity, today).Ok? ==>
      r == Ok(StageUpdated) && stages[..] == UpdatedStages(old(stages[..]), stageId, upd, quantity, today).value
  {
    var totalQuantity := TotalQuantity(quantity);
    var stageIndex := -1;
    var i := 0;
    while i < stages.Length
      invariant 0 <= i <= stages.Length
      invariant stages[..] == old(stages[..])
      invariant forall j :: 0 <= j < i ==> stages[j].id != stageId
    {
      if stages[i].id == stageId {
        stageIndex := i;
        var stage := ApplyUpdate(stages[i], upd);
        var isCompleted := stage.status == Completed;
        if stageIndex < UnitStagesFrom {
          stage := stage.(percentage := StagePercentage(stageIndex, stage, totalQuantity, isCompleted));
        } else {
          stage := stage.(percentage := StagePercentage(stageIndex, stage, totalQuantity, false));
          var currentUnits := UnitsOf(stage);
          if currentUnits > 0 {
            if stage.status == Pending {
              stage := stage.(status := InProgress);
            }
            if !DateSet(stage.startDate) {
              stage := stage.(startDate := Some(IsoFormat(today)));
            }
          }
        }
        assert stage == Recomputed(i, ApplyUpdate(old(stages[i]), upd), totalQuantity, today);
        stages[i] := stage;
        break;
      }
      i := i + 1;
    }
    if stageIndex < 0 {
      return Err(StageNotFound);
    }
    assert IndexOfStage(old(stages[..]), stageId) == Some(stageIndex);
    assert stages[..] == old(stages[..])[stageIndex := stages[stageIndex]];
    if stageIndex < UnitStagesFrom {
      var stageData := stages[stageIndex];
      UpdatePreviousStatusStages(stages, stageIndex, stageData.status, stageData.startDate, stageData.endDate);
    } else {
      var currentDate := stages[stageIndex].startDate;
      UpdatePreviousStagesWithUnits(stages, stageIndex, totalQuantity, currentDate);
    }
    r := Ok(StageUpdated);
  }

  /** Percentages of 0 to 100. */
  predicate PercentagesInRange(ss: seq<Stage>) {
    forall i :: 0 <= i < |ss| ==> 0 <= ss[i].percentage <= 100
  }

  predicate UnitsNonNegative(ss: seq<Stage>) {
    forall i :: 0 <= i < |ss| ==> UnitsOf(ss[i]) >= 0
  }

  /** The matched stage takes exactly the supplied values of the fields the
      update never recomputes, keeps its own where none was supplied, and no
      later stage changes. */
  lemma UpdateWritesSuppliedFields(ss: seq<Stage>, stageId: string, upd: StageUpdate, quantity: Option<int>, today: Date)
    requires ValidUpdate(upd) && Valid(today)
    requires UpdatedStages(ss, stageId, upd, quantity, today).Ok?
    ensures var k := IndexOfStage(ss, stageId).value;
      var r := UpdatedStages(ss, stageId, upd, quantity, today).value;
      var start := if upd.startDate.Some? then Some(IsoFormat(upd.startDate.value)) else ss[k].startDate;
      var status := upd.status.GetOr(ss[k].status);
      r[k].notes == (if upd.notes.Some? then upd.notes else ss[k].notes) &&
      r[k].responsiblePerson == (if upd.responsiblePerson.Some? then upd.responsiblePerson else ss[k].responsiblePerson) &&
      r[k].endDate == (if upd.endDate.Some? then Some(IsoFormat(upd.endDate.value)) else ss[k].endDate) &&
      r[k].completedUnits == (if upd.completedUnits.Some? then upd.completedUnits else ss[k].completedUnits) &&
      (k < UnitStagesFrom ==> r[k].status == status && r[k].startDate == start) &&
      (k >= UnitStagesFrom ==>
        r[k].status == (if UnitsOf(r[k]) > 0 && status == Pending then InProgress else status) &&
        r[k].startDate == (if UnitsOf(r[k]) > 0 && !DateSet(start) then Some(IsoFormat(today)) else start)) &&
      (forall i :: k < i < |ss| ==> r[i] == ss[i])
  {
    var k := IndexOfStage(ss, stageId).value;
    var total := TotalQuantity(quantity);
    var a := ApplyUpdate(ss[k], upd);
    var s := Recomputed(k, a, total, today);
    assert s.notes == a.notes && s.responsiblePerson == a.responsiblePerson;
    assert s.endDate == a.endDate && s.completedUnits == a.completedUnits;
    var r := UpdatedStages(ss, stageId, upd, quantity, today).value;
    assert r[k] == s;
  }

  /** The percentage a request supplies never survives: it is recomputed. */
  lemma UpdateIgnoresRequestedPercentage(ss: seq<Stage>, stageId: string, upd: StageUpdate, quantity: Option<int>, today: Date)
    requires ValidUpdate(upd) && Valid(today)
    ensures UpdatedStages(ss, stageId, upd, quantity, today) ==
            UpdatedStages(ss, stageId, upd.(percentage := None), quantity, today)
  {
    match IndexOfStage(ss, stageId)
    case None =>
    case Some(k) =>
      var total := TotalQuantity(quantity);
      var a := ApplyUpdate(ss[k], upd);
      var b := ApplyUpdate(ss[k], upd.(percentage := None));
      assert a == b.(percentage := a.percentage);
      RecomputedIgnoresPercentage(k, b, a.percentage, total, today);
  }

  /** The recomputation does not look at the stage's old percentage. */
  lemma RecomputedIgnoresPercentage(index: int, s: Stage, p: int, totalQuantity: int, today: Date)
    requires Valid(today)
    ensures Recomputed(index, s.(percentage := p), totalQuantity, today) == Recomputed(index, s, totalQuantity, today)
  {
    var t := s.(percentage := p);
    assert UnitsOf(t) == UnitsOf(s);
    assert StagePercentage(index, t, totalQuantity, false) == StagePercentage(index, s, totalQuantity, false);
    assert StagePercentage(index, t, totalQuantity, t.status == Completed) ==
           StagePercentage(index, s, totalQuantity, s.status == Completed);
  }

  /** Entering units on a unit-based stage starts it: it is no longer pending
      and has a start date, and every unit-based stage before it has at least
      as many units; those the cascade raised are started too. */
  lemma {:induction false} UnitEntryStartsWork(ss: seq<Stage>, stageId: string, upd: StageUpdate, quantity: Option<int>, today: Date)
    requires ValidUpdate(upd) && Valid(today)
    requires UpdatedStages(ss, stageId, upd, quantity, today).Ok?
    requires IndexOfStage(ss, stageId).value >= UnitStagesFrom
    requires UnitsOf(UpdatedStages(ss, stageId, upd, quantity, today).value[IndexOfStage(ss, stageId).value]) > 0
    ensures var k := IndexOfStage(ss, stageId).value;
      var r := UpdatedStages(ss, stageId, upd, quantity, today).value;
      r[k].status != Pending && DateSet(r[k].startDate) &&
      (upd.startDate.None? && !DateSet(ss[k].startDate) ==> r[k].startDate == Some(IsoFormat(today))) &&
      forall i :: UnitStagesFrom <= i < k ==>
        UnitsOf(r[i]) >= UnitsOf(r[k]) &&
        (UnitsOf(ss[i]) >= UnitsOf(r[k]) ==> r[i] == ss[i]) &&
        (UnitsOf(ss[i]) < UnitsOf(r[k]) ==>
          UnitsOf(r[i]) == UnitsOf(r[k]) && r[i].status != Pending &&
          r[i].startDate == (if DateSet(ss[i].startDate) then ss[i].startDate else r[k].startDate))
  {
    var k := IndexOfStage(ss, stageId).value;
    var total := TotalQuantity(quantity);
    var s := Recomputed(k, ApplyUpdate(ss[k], upd), total, today);
    var ss1 := ss[k := s];
    assert DateSet(Some(IsoFormat(today)));
    assert s.status != Pending && DateSet(s.startDate);
    forall i | UnitStagesFrom <= i < k && UnitsOf(ss[i]) < UnitsOf(s)
      ensures RaisesAt(ss1, k, i)
    {
      assert ss1[i] == ss[i];
    }
  }

  /** Completing one of the first three stages completes every stage before it. */
  lemma CompletionCompletesEarlierStages(ss: seq<Stage>, stageId: string, upd: StageUpdate, quantity: Option<int>, today: Date)
    requires ValidUpdate(upd) && Valid(today)
    requires UpdatedStages(ss, stageId, upd, quantity, today).Ok?
    requires IndexOfStage(ss, stageId).value < UnitStagesFrom
    requires UpdatedStages(ss, stageId, upd, quantity, today).value[IndexOfStage(ss, stageId).value].status == Completed
    ensures var k := IndexOfStage(ss, stageId).value;
      var r := UpdatedStages(ss, stageId, upd, quantity, today).value;
      r[k].percentage == 100 && forall i :: 0 <= i <= k ==> r[i].status == Completed
  {
  }

  /** With no negative unit counts, every percentage stays within 0 to 100. */
  lemma {:induction false} UpdateKeepsPercentagesInRange(ss: seq<Stage>, stageId: string, upd: StageUpdate, quantity: Option<int>, today: Date)
    requires ValidUpdate(upd) && Valid(today)
    requires PercentagesInRange(ss) && UnitsNonNegative(ss)
    requires upd.completedUnits.Some? ==> upd.completedUnits.value >= 0
    requires UpdatedStages(ss, stageId, upd, quantity, today).Ok?
    ensures PercentagesInRange(UpdatedStages(ss, stageId, upd, quantity, today).value)
    ensures UnitsNonNegative(UpdatedStages(ss, stageId, upd, quantity, today).value)
  {
    var k := IndexOfStage(ss, stageId).value;
    var total := TotalQuantity(quantity);
    var a := ApplyUpdate(ss[k], upd);
    assert UnitsOf(a) >= 0;
    var s := Recomputed(k, a, total, today);
    assert UnitsOf(s) == UnitsOf(a);
    var ss1 := ss[k := s];
    assert PercentagesInRange(ss1) && UnitsNonNegative(ss1);
    if k >= UnitStagesFrom {
      var r := CascadeUnits(ss1, k, total, s.startDate);
      forall i | 0 <= i < |r| ensures 0 <= r[i].percentage <= 100 && UnitsOf(r[i]) >= 0 {
        if RaisesAt(ss1, k, i) {
          assert UnitsOf(r[i]) == UnitsOf(ss1[k]);
        }
      }
    }
  }
}
