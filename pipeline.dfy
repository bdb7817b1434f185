/** The production stage record of backend/server.py and the fixed names of
    the eight stages every order carries. A stage is held the way the order
    document stores it: dates as ISO text (or absent), units optional. */
module Pipeline {
  import opened Common

  datatype Status = Pending | InProgress | Completed | Delayed

  datatype Stage = Stage(
    id: string,
    name: string,
    status: Status,
    startDate: Option<string>,
    endDate: Option<string>,
    percentage: int,
    completedUnits: Option<int>,
    notes: Option<string>,
    responsiblePerson: Option<string>,
    /** `stage_order`: the dashboard reads it, but the backend's stage record
        has no such field, so every stage the backend produces leaves it `None`. */
    stageOrder: Option<int>)

  /** Python truthiness of a stored date: present and not the empty text. */
  predicate DateSet(d: Option<string>) {
    d.Some? && d.value != ""
  }

  /** Python `a or b` on two stored dates. */
  function DateOr(a: Option<string>, b: Option<string>): (r: Option<string>)
    ensures DateSet(a) ==> r == a
    ensures !DateSet(a) ==> r == b
  {
    if DateSet(a) then a else b
  }

  /** `stage.get('completed_units', 0) or 0`, and the dashboard's `completed_units || 0`. */
  function UnitsOf(s: Stage): int {
    IntOr(s.completedUnits, 0)
  }

  /** One entry of the pipeline's configuration: the stage name and whether
      the stage counts finished units. */
  datatype StageConfig = StageConfig(name: string, hasUnits: bool)

  /** The eight stages in production order; the first three are tracked by
      status only, the last five also count finished units. */
  const StagesConfig: seq<StageConfig> := [
    StageConfig("Получение заказа на оценку", false),
    StageConfig("Поиск материала", false),
    StageConfig("Покупка материала + доставка", false),
    StageConfig("Подготовка материала (порезка/торцовка)", true),
    StageConfig("Изготовление", true),
    StageConfig("Проверка ОТК", true),
    StageConfig("Упаковка", true),
    StageConfig("Отгрузка", true)]

  /** Stages from this index on are unit-based (stages 4 to 8). */
  const UnitStagesFrom: int := 3

  /** What a freshly created stage `i` of the pipeline looks like. */
  predicate IsDefaultStage(s: Stage, i: int, id: string)
    requires 0 <= i < |StagesConfig|
  {
    s == Stage(id, StagesConfig[i].name, Pending, None, None, 0,
               if i < UnitStagesFrom then None else Some(0), None, None, None)
  }

  predicate IsDefaultPipeline(ss: seq<Stage>, ids: seq<string>)
    requires |ids| == |StagesConfig|
  {
    |ss| == |StagesConfig| &&
    forall i :: 0 <= i < |ss| ==> IsDefaultStage(ss[i], i, ids[i])
  }
}
