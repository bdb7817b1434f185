# Production-order tracker: a Dafny model of its core

The system tracks production orders for a machining workshop. Each order carries a
fixed pipeline of eight production stages. The first three stages (receiving the order
for estimation, finding material, buying and delivering material) are tracked by
status only. The last five (preparing material, manufacturing, quality control,
packing, shipping) also count finished units.

This project models the logic around that pipeline:

- **Backend** (`backend/server.py`):
  - building the default pipeline;
  - the per-stage percentage;
  - the stage update endpoint, with its two cascades over earlier stages;
  - the order cost properties;
  - the order update endpoint's filtering of the request body;
  - the employee view of an order;
  - the date conversion on the way into and out of the database.
- **Browser:**
  - the dashboard roll-ups (status buckets, progress, units manufactured, shipped
    and ready to ship, order cost);
  - the Gantt timeline (date range, bar positions and widths, the scale markers);
  - the order detail page (stage editing and saving, merging a saved stage, the
    cost helpers, progress);
  - the five order-entry forms, each with its own handlers and cost variant.

Modules follow the program:

| module | models |
|---|---|
| `Common` | JavaScript `\|\|` on numbers, `parseInt` truncation, Python's and JavaScript's rounding |
| `Dates` | ISO `YYYY-MM-DD` text and day numbers |
| `Pipeline` | the stage record and the stage configuration |
| `StageEngine` | the stage functions of the backend |
| `Costs` | the cost formulas the backend and the browser share |
| `OrderModel` | the backend's order record, its updates and its views |
| `MongoCodec` | `prepare_for_mongo` / `parse_from_mongo` |
| `ClientOrders` | the order as the browser receives it |
| `Dashboard` | the dashboard roll-ups |
| `Gantt` | the Gantt timeline |
| `OrderDetail` | the order detail page |
| `FormFields`, `FormCosts` | the form record and the cost helpers the forms share |
| `OrderFormComponent` | the hook-based order form |
| `OrderFormClassComponent` | the class-based order form |
| `SimpleOrderForm` | the reducer-based form |
| `ClassOrderFormComponent` | the class-based test form |
| `TestOrderForm` | the cost test page |

How the source is represented:

- The backend's stage list is an `array<Stage>`. Each in-place function is a method
  proved equal to a function on the sequence of stages.
- The stateful form components are classes whose handler methods update their fields.
- Pure code stays pure functions.
- Costs are exact reals.
- A JavaScript number is `Option<real>`, with `None` standing for `NaN`, `null` and
  `undefined`.
- Dates are ISO text, converted to whole day numbers where the timeline computes with
  them.
- "Today" is always a parameter.

## Model

| member | source | states |
|---|---|---|
| StageEngine.CreateDefaultStages | backend/server.py:230-249 | eight stages, one per configuration entry in order: pending, 0%, no dates; `completed_units` absent for the first three and 0 for the last five |
| StageEngine.StagePercentage | backend/server.py:366-376 | stages 1-3: 100 if completed, else 0, whatever the units; stages 4-8: 0 for a quantity of 0 or below, otherwise exactly `min(100, round(100*units/quantity))` with Python's rounding (within half a point, ties to even), so 100 once units reach the quantity; never above 100 and never below 0 for non-negative units |
| StageEngine.StagePercentageMonotone | backend/server.py:366-376 | more finished units never give a lower percentage |
| StageEngine.CascadeUnits | backend/server.py:378-405 | nothing changes unless the stage is unit-based with units > 0; a stage among 4..index-1 with fewer units than the current one is raised, every other stage is unchanged; a raised stage gets exactly the current units, the percentage recomputed from them, `in_progress` if it was pending, and the given date as start date when it had none (an existing start date is kept); every stage keeps its id, name, end date, notes, responsible person and `stage_order` |
| StageEngine.UpdatePreviousStagesWithUnits | backend/server.py:378-405 | the in-place loop leaves exactly `CascadeUnits` of the old list |
| StageEngine.CascadeStatus | backend/server.py:407-432 | nothing changes unless a stage among 1-3 is being completed; afterwards every earlier stage is completed; stages that were not completed get 100% and have only their missing dates filled (start from the current start, else the current end); completed stages and the stage itself onward are untouched; every stage keeps its id, name, units, notes, responsible person and `stage_order` |
| StageEngine.UpdatePreviousStatusStages | backend/server.py:407-432 | the in-place loop leaves exactly `CascadeStatus` of the old list |
| StageEngine.StoredDate | backend/server.py:455-459 | a supplied date is stored as ISO text that parses back to that date |
| StageEngine.IndexOfStage | backend/server.py:448-450 | the first stage with the id, or none when no stage has it |
| StageEngine.UpdatedStages | backend/server.py:434-504 | 404 "Stage not found" exactly when no stage has the id; otherwise the list keeps its length and every stage's id and name, and the matched stage's percentage is the one `calculate_stage_percentage` gives for its final units and status |
| StageEngine.UpdateStage | backend/server.py:434-504 | an unknown id returns the 404 and leaves the list unchanged; otherwise the list becomes `UpdatedStages` and the success message is returned |
| StageEngine.UpdateWritesSuppliedFields | backend/server.py:450-485 | the matched stage takes the supplied notes, responsible person, end date and units and keeps its own where none was supplied; on stages 1-3 it takes the supplied status and start date; on stages 4-8 entered units make a pending status `in_progress` and an empty start date today's; later stages are unchanged |
| StageEngine.UpdateIgnoresRequestedPercentage | backend/server.py:465-471 | a percentage in the request never survives: the result is the same without it |
| StageEngine.UnitEntryStartsWork | backend/server.py:474-502 | after units are entered on a unit-based stage, that stage is not pending and has a start date, today's when it had none and none was supplied; every earlier unit-based stage ends with at least as many units; one that had fewer is raised to exactly that count, started, and given the current stage's start date if it had none; the others are unchanged |
| StageEngine.CompletionCompletesEarlierStages | backend/server.py:465-496 | completing one of stages 1-3 gives it 100% and completes every stage before it |
| StageEngine.UpdateKeepsPercentagesInRange | backend/server.py:434-504 | with no negative unit counts, every percentage stays within 0..100 and no unit count turns negative |
| OrderModel.ProcessingCostPerUnit | backend/server.py:120-123 | minutes per part times the minute rate of the order's market |
| OrderModel.MaterialCostPerUnit | backend/server.py:125-127 | material cost shared out over a positive quantity, 0 otherwise |
| OrderModel.TotalCostPerUnit | backend/server.py:129-131 | for a positive quantity q, per-part total × q = material + q × processing per part; otherwise the processing per part alone |
| OrderModel.TotalOrderCost | backend/server.py:120-135 | a positive quantity gives material plus quantity × time × rate; a quantity of 0 gives 0; a negative one loses the material cost |
| OrderModel.UpdateOrder | backend/server.py:344-364 | 403 unless a manager; 400 when nothing is supplied; 404 for an unknown order; succeeds exactly otherwise; each of the nine fields (client, description, quantity, market, material cost, minutes per part, processing types, both minute rates) takes the supplied value and keeps the stored one when absent; id, number, files, stages and creator are kept |
| OrderModel.UpdateOrderIdempotent | backend/server.py:353-357 | sending the same update twice changes nothing further |
| OrderModel.EmployeeViewAsWritten | backend/server.py:310-340 | the view as built: material cost 0, files empty, both minute rates passed through |
| OrderModel.EmployeeViewAsWrittenShowsProcessingCost | backend/server.py:310-340 | the order response an employee receives still carries the stored minute rates, from which the true processing cost per part follows (1125 on the sample order) |
| OrderModel.EmployeeView | backend/server.py:310-340 | the intended view: material cost, both minute rates and files removed, everything else kept |
| OrderModel.EmployeeViewHidesCosts | backend/server.py:310-340 | every cost derivable from the intended view is 0; stages and quantity are kept |
| OrderModel.OrderForRole | backend/server.py:302-342 | a manager gets the order itself, an employee the filtered view (with the minute rates removed, as corrected under Findings) |
| MongoCodec.Prepare | backend/server.py:194-208 | a dictionary keeps its keys in order with each value converted; anything else is returned as is |
| MongoCodec.PrepareEntry | backend/server.py:198-206 | a date becomes its ISO text; a list or dictionary keeps its length; any other value is kept |
| MongoCodec.Parse | backend/server.py:210-228 | a dictionary keeps its keys in order with each value converted; anything else is returned as is |
| MongoCodec.ParseEntry | backend/server.py:214-226 | text under `start_date` or `end_date` that reads as a date becomes that date, other text is kept; a list or dictionary keeps its length; any other value is kept |
| MongoCodec.PrepareRemovesDateEntries | backend/server.py:194-208 | after preparing, no dictionary holds a date directly |
| MongoCodec.PrepareEntryRemovesDates | backend/server.py:198-206 | the same for a single dictionary value |
| MongoCodec.ParsePrepare | backend/server.py:194-228 | storing and reading back returns the document, when its dates sit only under `start_date` / `end_date` and no text there reads as a date |
| MongoCodec.ParsePrepareEntry | backend/server.py:198-224 | the same for a single entry |
| MongoCodec.PrepareParse | backend/server.py:194-228 | reading a stored document and storing it again gives it back |
| MongoCodec.PrepareParseEntry | backend/server.py:198-224 | the same for a single entry |
| Dates.ParseIso | backend/server.py:215-219 | only valid dates are produced |
| Dates.IsoFormat | backend/server.py:199-200 | ten characters with dashes at 4 and 7 |
| Dates.ParseIsoExactly | backend/server.py:199-219 | a text parses to a date exactly when it is that valid date's ISO form |
| Dates.ParseFormat | backend/server.py:199-219 | formatting then parsing gives the date back |
| Dates.ParseIsoCanonical | backend/server.py:199-219 | every accepted text is the ISO form of its date |
| Dates.NextMonthStart | frontend/src/components/GanttChart.js:74-76 | the first of the next month comes one month length later |
| Common.RoundHalfEven | backend/server.py:375 | within half of the exact quotient, ties to the even neighbour |
| Common.RoundHalfUp | frontend/src/components/Dashboard.js:110 | within half of the exact quotient, ties upward |
| Common.RoundingsAgreeOffTies | backend/server.py:375 | Python's and JavaScript's rounding agree except on ties |
| Common.RoundingsDifferOnTie | backend/server.py:375 | one unit of eight gives 12 in Python and 13 in JavaScript |
| Common.Or | frontend/src/components/OrderForm.js:47-52 | JavaScript `x \|\| d`: the number when it is present and non-zero, `d` otherwise |
| Common.Trunc | frontend/src/components/OrderForm.js:107 | `parseInt` of a number written in plain decimal notation is its integer part, truncated toward zero |
| Costs.FallbackRate | frontend/src/components/OrderForm.js:98-100 | the market's stored rate when it is non-zero, else 25 (domestic) or 0.42 (foreign); never 0 |
| Costs.FallbackAgreesWithStoredRates | frontend/src/components/OrderFormClass.js:120 | with non-zero stored rates, the fallback rate equals the stored rate |
| Costs.MaterialPerUnit | frontend/src/components/OrderForm.js:54 | material shared out over a positive quantity, 0 otherwise |
| Costs.TotalsAgreeForPositiveQuantity | backend/server.py:133-135 | for a positive quantity, `(material/q + t*r)*q` equals `material + q*t*r` |
| Costs.TotalsDifferByMaterialOtherwise | frontend/src/components/OrderForm.js:54-57 | for a quantity of 0 or below, the two totals differ by exactly the material cost |
| Costs.SampleOrderCosts | frontend/src/TestOrderForm.js:4-35 | the sample order gives 100, 1125, 1225 and 12250 (domestic), and 118.9 and 1189 (foreign) |
| Dashboard.CompletedCount | frontend/src/components/Dashboard.js:77 | the count of completed stages is the full length exactly when all are completed, and 0 exactly when none is |
| Dashboard.BucketOf | frontend/src/components/Dashboard.js:76-88 | pending exactly when no stage is completed; completed exactly when the list is non-empty and all are completed |
| Dashboard.BucketsPartitionOrders | frontend/src/components/Dashboard.js:66-92 | the three bucket counts add up to the number of orders with a stage list |
| Dashboard.CalculateStats | frontend/src/components/Dashboard.js:66-92 | the total is the number of orders; each bucket counter is the number of orders in that bucket; all zero when there are no orders |
| Dashboard.OrderProgress | frontend/src/components/Dashboard.js:105-111 | 0 for a missing or empty stage list, else `Math.round(100*completed/len)`; always within 0..100 |
| Dashboard.ProgressExtremes | frontend/src/components/Dashboard.js:105-111 | the progress is 100 exactly when all stages are completed and 0 exactly when none is |
| Dashboard.FindStageIndex | frontend/src/components/Dashboard.js:119-158 | the first stage with the name or the `stage_order`, or none |
| Dashboard.UnitsAt | frontend/src/components/Dashboard.js:123-161 | that stage's `completed_units`, 0 when no stage matches or the count is falsy |
| Dashboard.ManufacturingDetails | frontend/src/components/Dashboard.js:113-127 | units of the manufacturing stage (name or position 5), 0 without stages |
| Dashboard.ShippingDetails | frontend/src/components/Dashboard.js:129-143 | units of the shipping stage (name or position 8), 0 without stages |
| Dashboard.ReadyToShip | frontend/src/components/Dashboard.js:164 | packed minus shipped, never below 0 |
| Dashboard.ReadyToShipDetails | frontend/src/components/Dashboard.js:145-169 | packed minus shipped units of the order, never negative, 0 without stages |
| Dashboard.ReadyToShipExamples | frontend/src/components/Dashboard.js:164 | (50, 0), (100, 30) and (30, 50) give 50, 70 and 0 |
| Dashboard.DefaultPipelineLookups | frontend/src/components/Dashboard.js:119-158 | on a pipeline the backend creates, the lookups find stages 5, 7 and 8 by name |
| Dashboard.CalculateTotalCost | frontend/src/components/Dashboard.js:171-185 | 0 without a truthy quantity; otherwise the per-unit total times the quantity with the fallback rate, which equals material plus quantity × time × rate |
| Dashboard.DashboardTotalMatchesBackend | frontend/src/components/Dashboard.js:171-185 | with a positive quantity and non-zero rates, the dashboard shows the backend's total |
| Dashboard.DashboardReplacesZeroRate | frontend/src/components/Dashboard.js:177-179 | with a stored domestic rate of 0, the backend totals 1000 where the dashboard shows 12250 |
| Gantt.DayOfText | frontend/src/components/GanttChart.js:46-55 | a day only for a non-empty text that parses as a date |
| Gantt.StageDays | frontend/src/components/GanttChart.js:46-55 | the valid start and end days of a stage, nothing else |
| Gantt.FallbackRange | frontend/src/components/GanttChart.js:72-76 | the first day of the current month to the last day of the next month |
| Gantt.FallbackRangeSpansTwoMonths | frontend/src/components/GanttChart.js:72-76 | the fallback covers both months' days: at least 55 days |
| Gantt.MinOfIsLeast | frontend/src/components/GanttChart.js:58-60 | the running earliest day is one of the days and no later than any |
| Gantt.MaxOfIsGreatest | frontend/src/components/GanttChart.js:61-63 | the running latest day is one of the days and no earlier than any |
| Gantt.TakeDate | frontend/src/components/GanttChart.js:57-64 | one date updates the earliest and latest day, and the two names share an object only while no later date has replaced the first |
| Gantt.TakeDates | frontend/src/components/GanttChart.js:57-64 | the loop over a stage's dates keeps the earliest and latest of all days seen, and whether the two are one object |
| Gantt.TakeStages | frontend/src/components/GanttChart.js:45-65 | the loop over an order's stages does the same |
| Gantt.ScanOrders | frontend/src/components/GanttChart.js:43-66 | the scan over all orders gives the earliest and latest valid day, and whether the two names hold one `Date` object, which is so exactly when they are the same day |
| Gantt.CalculateTimelineRangeAsWritten | frontend/src/components/GanttChart.js:38-88 | the range as written: with no valid date the fallback; when every valid date is one day, the two `setDate` calls act on one object and the range is that single day; otherwise earliest − 7 to latest + 7 |
| Gantt.CalculateTimelineRange | frontend/src/components/GanttChart.js:38-88 | the range as intended: with no valid date, the fallback range; otherwise start = earliest − 7 and end = latest + 7, so at least 14 days with every day inside |
| Gantt.SingleDayRangeFlattensBars | frontend/src/components/GanttChart.js:90-121 | on a single-day range every date is placed at 0 and every bar with both dates is 2 wide |
| Gantt.PositionOfDay | frontend/src/components/GanttChart.js:97-102 | within 0..100; 0 for an empty range; on a positive range 0 before the start, 100 after the end, and linear interpolation inside |
| Gantt.PositionMonotone | frontend/src/components/GanttChart.js:97-102 | a later day never has a lower position |
| Gantt.GetDatePosition | frontend/src/components/GanttChart.js:90-107 | 0 for a missing or invalid date or an unset range, else the day's position |
| Gantt.GetDateWidth | frontend/src/components/GanttChart.js:109-121 | 0 when a date is missing, else `max(2, end position − start position)`: at least 2 and at least the difference, and equal to one of them |
| Gantt.CeilTenth | frontend/src/components/GanttChart.js:153 | `Math.ceil(n/10)` for positive n, at least 1 |
| Gantt.GenerateTimelineMarkers | frontend/src/components/GanttChart.js:144-175 | none for an unset or empty range; otherwise markers every step from offset 0 to the total; their count is total/step + 1; positions start at 0, rise strictly and stay within 0..100 |
| OrderDetail.StageEdit | frontend/src/components/OrderDetail.js:124-135 | the draft copies status and percentage; missing dates, notes and responsible person become `''`, present ones are copied; a count of 0 or none becomes empty |
| OrderDetail.AutoDated | frontend/src/components/OrderDetail.js:211-231 | on stages 1-3, in progress fills an empty start with today, and completed fills both empty dates; set dates are kept; stages 4-8 and other statuses are untouched |
| OrderDetail.Normalised | frontend/src/components/OrderDetail.js:233-238 | every `''` becomes null and every other value is kept |
| OrderDetail.HandleStageSave | frontend/src/components/OrderDetail.js:193-242 | nothing is sent without an edited stage, an order or its stages, or for an unknown stage id; otherwise the auto-dated, normalised draft is sent |
| OrderDetail.MergeStage | frontend/src/components/OrderDetail.js:47-49 | the saved fields replace the stage's; id, name and position are kept |
| OrderDetail.UpdateStageInOrder | frontend/src/components/OrderDetail.js:42-58 | the matching stages take the update; other stages and the order's fields are unchanged; a missing order or stage list is returned as is |
| OrderDetail.UpdateStageInOrderIdempotent | frontend/src/components/OrderDetail.js:42-58 | applying the same update twice changes nothing further |
| OrderDetail.UntouchedDraftRoundTrip | frontend/src/components/OrderDetail.js:124-238 | editing a stage past the first three (stages 4–8) and saving it unchanged gives back that stage, when its unit count is not 0 and none of its texts is empty |
| OrderDetail.UntouchedDraftNullsZeroAndEmpty | frontend/src/components/OrderDetail.js:124-238 | saving such a stage unchanged turns a unit count of 0 (the count every unit-based stage starts with) into `null`, and an empty note, responsible person or (past the first three) date into `null` |
| OrderDetail.HandleProcessingTypeToggle | frontend/src/components/OrderDetail.js:184-191 | the type's membership flips and other types are kept; a present type has every occurrence removed and each other type keeps its count; an absent one is appended; a missing list becomes that one type |
| OrderDetail.GetProgressPercentage | frontend/src/components/OrderDetail.js:328-332 | 0 for no order; `NaN` for an empty stage list; otherwise the dashboard's progress |
| OrderDetail.ProcessingCostPerUnit | frontend/src/components/OrderDetail.js:334-340 | 0 without an order or a processing time; otherwise minutes times the stored rate of the market when it is truthy, else times 25 (domestic) or 0.42 (foreign) |
| OrderDetail.MaterialCostPerUnit | frontend/src/components/OrderDetail.js:342-345 | 0 without an order or a truthy quantity, else material shared out over the quantity |
| OrderDetail.TotalCostPerUnit | frontend/src/components/OrderDetail.js:347-349 | with a truthy quantity q, per-part total × q = material + q × processing per part; without one, the processing per part alone |
| OrderDetail.TotalOrderCost | frontend/src/components/OrderDetail.js:351-353 | with a truthy quantity q, material + q × processing per part; without one, one part's processing |
| OrderDetail.TotalOrderCostMatchesDashboard | frontend/src/components/OrderDetail.js:347-353 | with a truthy quantity the page's total is the dashboard's; without one, it is the processing cost of one part |
| OrderDetail.SharedOutTotal | frontend/src/components/OrderDetail.js:342-353 | sharing the material out and multiplying back gives material + quantity × time × rate |
| FormFields.With | frontend/src/components/OrderForm.js:35-84 | one field takes the new value; every other field and the processing types are kept |
| FormFields.WithLastWriteWins | frontend/src/components/OrderForm.js:76-84 | a second write to a field wins; writes to different fields commute |
| FormFields.Without | frontend/src/components/OrderForm.js:90 | the type no longer occurs, every other type occurs exactly when it did, and the list is unchanged when the type is absent |
| FormFields.WithoutCounts | frontend/src/components/OrderForm.js:90 | every occurrence of the type is removed and every other type keeps its count |
| FormFields.WithoutConcat | frontend/src/components/OrderForm.js:90 | filtering a concatenation filters each part in place, so the kept types stay in their order |
| FormFields.Toggle | frontend/src/components/OrderForm.js:86-93 | membership of the type flips, others are kept; a present type has every occurrence removed, each other type keeping its count; an absent type is appended |
| FormFields.WithoutAppended | frontend/src/components/OrderForm.js:86-93 | removing a type that was just appended gives the removal without it |
| FormFields.ToggleTwiceRestores | frontend/src/components/OrderForm.js:86-93 | toggling an absent type twice restores the list |
| FormCosts.RenderCosts | frontend/src/components/OrderForm.js:54-57 | material per unit for positive quantities; total per unit = material + processing; total = material + q × t × r, which is per-unit × q when q > 0 and differs by the material cost otherwise |
| FormCosts.QuantityOrOne | frontend/src/components/OrderForm.js:107-116 | `parseInt(q) \|\| 1`: the truncated quantity when it is non-zero, otherwise (missing, `NaN` or truncating to 0) 1 |
| FormCosts.HelperProcessingCostPerUnit | frontend/src/components/OrderForm.js:95-101 | minutes (0 when missing) times the stored rate of the market when it is truthy, else times 25 (domestic) or 0.42 (foreign) |
| FormCosts.HelperMaterialCostPerUnit | frontend/src/components/OrderForm.js:104-109 | 0 without a truthy quantity, else the material shared out over the truncated quantity |
| FormCosts.HelperTotalCostPerUnit | frontend/src/components/OrderForm.js:110-112 | with a truthy quantity, per-part total × `parseInt(q) \|\| 1` = material + that count × processing; without one, the processing alone |
| FormCosts.HelperTotalOrderCost | frontend/src/components/OrderForm.js:114-117 | with a truthy quantity, material + (`parseInt(q) \|\| 1`) × processing per part; without one, one part's processing |
| FormCosts.HelperTotalIsRenderTotal | frontend/src/components/OrderForm.js:111-118 | for a whole positive quantity, the helper total is the render total |
| FormCosts.HelperTotalTruncatesQuantity | frontend/src/components/OrderForm.js:104-118 | for quantity 0.5 the helper totals 2125, the render 1562.5 |
| OrderFormComponent.OrderForm.constructor | frontend/src/components/OrderForm.js:17-32 | the initial form: quantity 1, domestic, 30 minutes, rates 25 and 0.42 |
| OrderFormComponent.OrderForm.UpdateNumberField | frontend/src/components/OrderForm.js:35-44 | the field becomes `parseFloat(value) \|\| 0` and the update counter rises by one |
| OrderFormComponent.OrderForm.HandleChange | frontend/src/components/OrderForm.js:76-84 | the text field takes the value and the update counter rises by one |
| OrderFormComponent.OrderForm.ChangeMinuteRateDomestic | frontend/src/components/OrderForm.js:309-312 | the domestic rate becomes the parsed value, or 25; never 0 |
| OrderFormComponent.OrderForm.ChangeMinuteRateForeign | frontend/src/components/OrderForm.js:325-328 | the foreign rate becomes the parsed value, or 0.42; never 0 |
| OrderFormComponent.OrderForm.HandleProcessingTypeToggle | frontend/src/components/OrderForm.js:86-93 | the type's membership flips |
| OrderFormComponent.OrderForm.HandleSubmit | frontend/src/components/OrderForm.js:120-139 | no request without a processing type; otherwise the form is sent and loading ends |
| OrderFormComponent.DisplayRate | frontend/src/components/OrderForm.js:50-52 | the stored rate of the market when it is non-zero, else 25 for domestic and 0.42 for foreign; never 0 |
| OrderFormComponent.DisplayedCosts | frontend/src/components/OrderForm.js:47-57 | quantity 0 counts as 1; processing = time × rate; the total is per-unit × quantity for a positive quantity |
| OrderFormComponent.HelpersAgreeWithDisplay | frontend/src/components/OrderForm.js:47-118 | for a whole positive quantity, the helpers' total equals the displayed total |
| OrderFormComponent.InitialFormCosts | frontend/src/components/OrderForm.js:18-57 | the empty form shows 0, 750, 750 and 750 |
| OrderFormClassComponent.OrderFormClass.constructor | frontend/src/components/OrderFormClass.js:22-39 | the same initial form, not loading |
| OrderFormClassComponent.OrderFormClass.HandleChange | frontend/src/components/OrderFormClass.js:52-60 | only the named field changes |
| OrderFormClassComponent.OrderFormClass.HandleNumberChange | frontend/src/components/OrderFormClass.js:62-65 | the field becomes `parseFloat(value) \|\| 0` |
| OrderFormClassComponent.OrderFormClass.HandleIntChange | frontend/src/components/OrderFormClass.js:67-70 | the field becomes the parsed integer, else 1 for quantity and 0 for others |
| OrderFormClassComponent.OrderFormClass.HandleProcessingTypeToggle | frontend/src/components/OrderFormClass.js:80-89 | the type's membership flips |
| OrderFormClassComponent.OrderFormClass.HandleSubmit | frontend/src/components/OrderFormClass.js:91-113 | no request without a processing type; otherwise the form is sent and loading ends |
| OrderFormClassComponent.ClassRenderCosts | frontend/src/components/OrderFormClass.js:115-123 | the stored rate without fallback; total = material + q × processing, per-unit × q for q > 0 |
| OrderFormClassComponent.AgreesWithHookFormOnStoredRates | frontend/src/components/OrderFormClass.js:119-123 | with non-zero rates and a positive quantity, the same figures as the hook form |
| OrderFormClassComponent.ZeroRateIsNotReplaced | frontend/src/components/OrderFormClass.js:120 | a domestic rate of 0 prices processing at 0, where the hook form shows 750 |
| SimpleOrderForm.FormReducer | frontend/src/components/SimpleOrderForm.js:4-30 | each set action sets its own field and the update id; clicks rise by one; an unknown action returns the state itself |
| SimpleOrderForm.DispatchCountsClicks | frontend/src/components/SimpleOrderForm.js:21-22 | over a run of actions, clicks rise by the number of click actions |
| SimpleOrderForm.OnQuantityChange | frontend/src/components/SimpleOrderForm.js:77-81 | `parseInt(value) \|\| 1`, dispatched as a set-quantity action: the parsed count when it is non-zero, otherwise 1 |
| SimpleOrderForm.OnMaterialCostChange | frontend/src/components/SimpleOrderForm.js:93-97 | `parseFloat(value) \|\| 0`, dispatched as a set-material action |
| SimpleOrderForm.OnProcessingTimeChange | frontend/src/components/SimpleOrderForm.js:109-113 | `parseFloat(value) \|\| 0`, dispatched as a set-time action |
| SimpleOrderForm.StateCosts | frontend/src/components/SimpleOrderForm.js:50-58 | the fixed rate; total = material + q × processing, per-unit × q for q > 0 |
| SimpleOrderForm.SampleEntry | frontend/src/components/SimpleOrderForm.js:50-126 | entering 10, 1000 and 45 shows 1225 per part and 12250 in all |
| ClassOrderFormComponent.ClassOrderForm.constructor | frontend/src/components/ClassOrderForm.js:4-14 | quantity 1, material 0, 30 minutes, domestic, counters 0 |
| ClassOrderFormComponent.ClassOrderForm.TestJavaScript | frontend/src/components/ClassOrderForm.js:16-23 | clicks and render key each rise by one; the order fields are unchanged |
| ClassOrderFormComponent.ClassOrderForm.UpdateQuantity | frontend/src/components/ClassOrderForm.js:25-33 | `parseInt(value) \|\| 1`; render key +1; the other fields are unchanged |
| ClassOrderFormComponent.ClassOrderForm.UpdateMaterialCost | frontend/src/components/ClassOrderForm.js:35-43 | `parseFloat(value) \|\| 0`; render key +1; the other fields are unchanged |
| ClassOrderFormComponent.ClassOrderForm.UpdateProcessingTime | frontend/src/components/ClassOrderForm.js:45-53 | `parseFloat(value) \|\| 0`; render key +1; the other fields are unchanged |
| ClassOrderFormComponent.ClassOrderForm.UpdateMarketType | frontend/src/components/ClassOrderForm.js:55-62 | the market text; render key +1; the other fields are unchanged |
| ClassOrderFormComponent.FixedRateCosts | frontend/src/components/ClassOrderForm.js:64-72 | the fixed rate; total = material + q × processing, per-unit × q for q > 0 |
| ClassOrderFormComponent.ForeignSample | frontend/src/components/ClassOrderForm.js:64-72 | the foreign sample gives 118.9 per part and 1189 in all |
| TestOrderForm.HandleChange | frontend/src/TestOrderForm.js:37-42 | only the named field changes |
| TestOrderForm.InitialFigures | frontend/src/TestOrderForm.js:4-35 | the preloaded sample shows 100, 1125, 1225 and 12250 |
| TestOrderForm.ClearedQuantity | frontend/src/TestOrderForm.js:13-55 | a cleared quantity drops the material cost and counts one part |
| TestOrderForm.ForeignFigures | frontend/src/TestOrderForm.js:20-35 | the foreign sample at 0.42 per minute |
| ClientOrders.ClientView | backend/server.py:103-118 | the browser receives the stored id, stages, quantity, market, material cost, minutes per part and both minute rates, and the processing types as their texts in order |

## Left out

- Authentication (JWT, password hashing, register, login and the current user), file upload and download, order creation and deletion, MongoDB I/O, routing, CORS and logging. These are calls into libraries and services. Documents are values passed in and out.
- Browser plumbing: HTTP calls, navigation, `alert` and `confirm`, the `setTimeout` refetch, React state and effect mechanics, JSX, labels and badges, and number and date formatting.
- The login forms and the DOM patching utility are not part of this model.
- Floating point: costs are exact reals. `NaN` appears only as a missing number. Rounding is done on exact rationals.
- Dates: only the `YYYY-MM-DD` form is parsed. Times of day, time zones, daylight saving and other formats that `new Date` or `fromisoformat` accept are not modelled. Datetime timestamps are not modelled.
- The marker date label of the timeline, and its validity check, are not modelled. For a range over valid dates that check always passes. A marker holds its day offset instead of a label.
- `null` entries inside a stage list, which several browser functions skip, are not modelled: a stage list holds stages.
- MongoCodec.PrepareRemovesDateEntries: a list directly inside a list is excluded (`FlatLists`). `prepare_for_mongo` leaves the dates of such an inner list alone, and no order document has one.
- Dashboard.ProgressExtremes: proved for stage lists shorter than 200. Every order has 8 stages.
- OrderDetail.HandleStageSave: the request is taken to succeed. The refetch and the error alerts are not modelled. The result is the payload sent.
- Common.Trunc: numbers that JavaScript prints with an exponent (magnitude from 1e21, or non-zero below 1e-6) are not covered. `parseInt` reads their text, so `parseInt(5e-7)` is 5 and `parseInt(1e21)` is 1, where the model truncates the value.
- OrderDetail.TotalOrderCost: requires an order. With no order the source throws reading the quantity.
- OrderDetail.GetProgressPercentage: requires a stage list when there is an order. The source throws otherwise.
- The `stage_order` field the dashboard reads is kept in the stage record but is always absent on stages the backend creates. The backend's stage record has no such field.
- The `_updateId` of the reducer form comes from `Math.random()`. It is a parameter.
- The employee view: `update_order` and `update_stage` do not filter by role in the source, and neither does the model.
- OrderDetail.UntouchedDraftRoundTrip: holds only for stages 4–8 with a unit count other than 0 and no empty text; a fresh stage's count of 0 is saved back as `null` (stated by `OrderDetail.UntouchedDraftNullsZeroAndEmpty`), and for the first three stages the dates may be stamped with today.

## Findings

| source | as written | input that shows it | evidently intended | confidence | as-written member | corrected member |
|---|---|---|---|---|---|---|
| backend/server.py:310-340 | the employee filter zeroes the keys `hourly_rate_domestic` and `hourly_rate_foreign`, which the order record does not have; rebuilding the record drops them, and the stored `minute_rate_*` values reach the employee | any order fetched by an employee: the response carries the minute rates, so processing time 45 at 25 per minute gives 1125 per part | the minute rates are zeroed like the material cost, so an employee sees no cost | not executed | OrderModel.EmployeeViewAsWrittenShowsProcessingCost | OrderModel.EmployeeViewHidesCosts |
| frontend/src/components/GanttChart.js:57-81 | the first valid date is stored under both `earliestDate` and `latestDate`; when no other date differs from it the two names still hold one `Date` object, and `setDate(getDate() - 7)` followed by `setDate(getDate() + 7)` on that object leaves the range a single day | an order with one stage dated 2024-03-10 and no other valid date: the range is 2024-03-10 to 2024-03-10, every bar sits at 0 and is 2 wide, and no scale marker is drawn | the range is padded by 7 days on both sides, 2024-03-03 to 2024-03-17 | not executed | Gantt.CalculateTimelineRangeAsWritten | Gantt.CalculateTimelineRange |
