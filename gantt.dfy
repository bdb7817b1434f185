/** The Gantt chart's timeline arithmetic (frontend/src/components/GanttChart.js):
    the date range spanned by all stage dates, the horizontal position and
    width of a bar in percent of that range, and the scale markers. Dates are
    whole day numbers; "today" is a parameter. */
module Gantt {
  import opened Common
  import opened Dates
  import opened Pipeline
  import opened ClientOrders

  /** A stage date as the chart reads it: `None` when it is missing, empty or
      not a date, otherwise its day number. */
  function DayOfText(t: Option<string>): (r: Option<int>)
    ensures r.Some? <==> DateSet(t) && ParseIso(t.value).Some?
    ensures r.Some? ==> r.value == DayNumber(ParseIso(t.value).value)
  {
    if !DateSet(t) then None
    else match ParseIso(t.value)
      case None => None
      case Some(d) => Some(DayNumber(d))
  }

  /** The valid dates of one stage, start then end. */
  function StageDays(s: Stage): (days: seq<int>)
    ensures |days| <= 2
    ensures DayOfText(s.startDate).Some? ==> DayOfText(s.startDate).value in days
    ensures DayOfText(s.endDate).Some? ==> DayOfText(s.endDate).value in days
    ensures forall k :: 0 <= k < |days| ==>
      Some(days[k]) == DayOfText(s.startDate) || Some(days[k]) == DayOfText(s.endDate)
  {
    (if DayOfText(s.startDate).Some? then [DayOfText(s.startDate).value] else []) +
    (if DayOfText(s.endDate).Some? then [DayOfText(s.endDate).value] else [])
  }

  /** The valid dates of a list of stages, in visiting order. */
  function StagesDays(ss: seq<Stage>): seq<int> {
    if |ss| == 0 then [] else StagesDays(ss[..|ss| - 1]) + StageDays(ss[|ss| - 1])
  }

  function OrderDays(o: ClientOrder): seq<int> {
    if o.stages.Some? then StagesDays(o.stages.value) else []
  }

  /** Every valid stage date of every order that has a stage list. */
  function AllDays(orders: seq<ClientOrder>): seq<int> {
    if |orders| == 0 then [] else AllDays(orders[..|orders| - 1]) + OrderDays(orders[|orders| - 1])
  }

  /** The timeline range; `Unset` is the state before the orders are loaded. */
  datatype TimelineRange = Unset | Span(start: int, end: int)

  /** The first day of the current month to the last day of the next month
      (`new Date(y, m + 2, 0)` is the day before the first of month `m + 2`). */
  function FallbackRange(today: Date): (r: TimelineRange)
    requires Valid(today)
    ensures r.Span?
  {
    Span(DayNumber(Date(today.year, today.month, 1)),
         DayNumber(FirstOfMonthAfter(today.year, today.month, 2)) - 1)
  }

  /** The fallback covers two whole months, so it is never empty. */
  lemma {:induction false} FallbackRangeSpansTwoMonths(today: Date)
    requires Valid(today)
    ensures var next := FirstOfMonthAfter(today.year, today.month, 1);
      FallbackRange(today).end - FallbackRange(today).start ==
        DaysInMonth(today.year, today.month) + DaysInMonth(next.year, next.month) - 1
    ensures FallbackRange(today).end - FallbackRange(today).start >= 55
  {
    var y, m := today.year, today.month;
    var next := FirstOfMonthAfter(y, m, 1);
    assert FirstOfMonthAfter(y, m, 2) == FirstOfMonthAfter(next.year, next.month, 1);
    NextMonthStart(y, m);
    NextMonthStart(next.year, next.month);
  }

  /** The earliest day of a scan in visiting order: replaced whenever a
      strictly earlier day comes along. */
  function MinOf(days: seq<int>): Option<int> {
    if |days| == 0 then None
    else
      var m := MinOf(days[..|days| - 1]);
      var d := days[|days| - 1];
      if m.None? || d < m.value then Some(d) else m
  }

  /** The latest day of a scan, replaced whenever a strictly later day comes along. */
  function MaxOf(days: seq<int>): Option<int> {
    if |days| == 0 then None
    else
      var m := MaxOf(days[..|days| - 1]);
      var d := days[|days| - 1];
      if m.None? || d > m.value then Some(d) else m
  }

  lemma {:induction false} MinOfIsLeast(days: seq<int>)
    ensures MinOf(days).None? <==> |days| == 0
    ensures MinOf(days).Some? ==> MinOf(days).value in days
    ensures MinOf(days).Some? ==> forall k :: 0 <= k < |days| ==> MinOf(days).value <= days[k]
  {
    if |days| > 0 {
      var init := days[..|days| - 1];
      MinOfIsLeast(init);
      assert days == init + [days[|days| - 1]];
    }
  }

  lemma {:induction false} MaxOfIsGreatest(days: seq<int>)
    ensures MaxOf(days).None? <==> |days| == 0
    ensures MaxOf(days).Some? ==> MaxOf(days).value in days
    ensures MaxOf(days).Some? ==> forall k :: 0 <= k < |days| ==> days[k] <= MaxOf(days).value
  {
    if |days| > 0 {
      var init := days[..|days| - 1];
      MaxOfIsGreatest(init);
      assert days == init + [days[|days| - 1]];
    }
  }

  /** `earliestDate` and `latestDate` after scanning `seen`. `sameObject`
      says whether the two names hold one and the same `Date` object: the
      first date seen is stored under both, and they part as soon as either
      name takes a later object. */
  predicate Extremes(seen: seq<int>, earliest: Option<int>, latest: Option<int>, sameObject: bool) {
    earliest == MinOf(seen) && latest == MaxOf(seen) &&
    (earliest.None? <==> latest.None?) &&
    (earliest.Some? ==> earliest.value <= latest.value) &&
    (sameObject <==> earliest.Some? && earliest.value == latest.value)
  }

  /** One step of the scan: the extremes after also seeing `date`. */
  method TakeDate(ghost seen: seq<int>, date: int, earliest: Option<int>, latest: Option<int>, sameObject: bool)
    returns (newEarliest: Option<int>, newLatest: Option<int>, newSameObject: bool)
    requires Extremes(seen, earliest, latest, sameObject)
    ensures Extremes(seen + [date], newEarliest, newLatest, newSameObject)
  {
    assert (seen + [date])[..|seen|] == seen;
    newEarliest, newLatest, newSameObject := earliest, latest, sameObject;
    var tookEarliest := newEarliest.None? || date < newEarliest.value;
    if tookEarliest {
      newEarliest := Some(date);
    }
    var tookLatest := newLatest.None? || date > newLatest.value;
    if tookLatest {
      newLatest := Some(date);
    }
    if tookEarliest || tookLatest {
      newSameObject := tookEarliest && tookLatest;
    }
  }

  /** The callback over one stage's dates. */
  method TakeDates(ghost seen: seq<int>, dates: seq<int>, earliest: Option<int>, latest: Option<int>, sameObject: bool)
    returns (newEarliest: Option<int>, newLatest: Option<int>, newSameObject: bool)
    requires Extremes(seen, earliest, latest, sameObject)
    ensures Extremes(seen + dates, newEarliest, newLatest, newSameObject)
  {
    newEarliest, newLatest, newSameObject := earliest, latest, sameObject;
    assert seen + dates[..0] == seen;
    for k := 0 to |dates|
      invariant Extremes(seen + dates[..k], newEarliest, newLatest, newSameObject)
    {
      newEarliest, newLatest, newSameObject := TakeDate(seen + dates[..k], dates[k], newEarliest, newLatest, newSameObject);
      assert seen + dates[..k + 1] == (seen + dates[..k]) + [dates[k]];
    }
    assert dates[..|dates|] == dates;
  }

  /** The callback over one order's stages. */
  method TakeStages(ghost seen: seq<int>, stages: seq<Stage>, earliest: Option<int>, latest: Option<int>, sameObject: bool)
    returns (newEarliest: Option<int>, newLatest: Option<int>, newSameObject: bool)
    requires Extremes(seen, earliest, latest, sameObject)
    ensures Extremes(seen + StagesDays(stages), newEarliest, newLatest, newSameObject)
  {
    newEarliest, newLatest, newSameObject := earliest, latest, sameObject;
    assert seen + StagesDays(stages[..0]) == seen;
    for j := 0 to |stages|
      invariant Extremes(seen + StagesDays(stages[..j]), newEarliest, newLatest, newSameObject)
    {
      var dates := StageDays(stages[j]);
      newEarliest, newLatest, newSameObject :=
        TakeDates(seen + StagesDays(stages[..j]), dates, newEarliest, newLatest, newSameObject);
      StagesDaysStep(seen, stages, j);
    }
    assert stages[..|stages|] == stages;
  }

  /** The days seen after one more stage of the list. */
  lemma StagesDaysStep(seen: seq<int>, stages: seq<Stage>, j: int)
    requires 0 <= j < |stages|
    ensures (seen + StagesDays(stages[..j])) + StageDays(stages[j]) == seen + StagesDays(stages[..j + 1])
  {
    assert stages[..j + 1][..j] == stages[..j];
  }

  /** The scan of `calculateTimelineRange` over every order's stage dates. */
  method ScanOrders(orders: seq<ClientOrder>) returns (earliest: Option<int>, latest: Option<int>, sameObject: bool)
    ensures Extremes(AllDays(orders), earliest, latest, sameObject)
  {
    earliest, latest, sameObject := None, None, false;
    for i := 0 to |orders|
      invariant Extremes(AllDays(orders[..i]), earliest, latest, sameObject)
    {
      assert orders[..i + 1][..i] == orders[..i];
      assert AllDays(orders[..i + 1]) == AllDays(orders[..i]) + OrderDays(orders[i]);
      if orders[i].stages.Some? {
        earliest, latest, sameObject := TakeStages(AllDays(orders[..i]), orders[i].stages.value, earliest, latest, sameObject);
      } else {
        assert AllDays(orders[..i]) + OrderDays(orders[i]) == AllDays(orders[..i]);
      }
    }
    assert orders[..|orders|] == orders;
  }

  /** `calculateTimelineRange` as written: the padding is applied with
      `setDate` on the `Date` objects the scan kept. When every valid date is
      the same day, `earliestDate` and `latestDate` are one object, the two
      calls undo each other, and the range is that single day. */
  method CalculateTimelineRangeAsWritten(orders: seq<ClientOrder>, today: Date) returns (range: TimelineRange)
    requires Valid(today)
    ensures |AllDays(orders)| == 0 ==> range == FallbackRange(today)
    ensures |AllDays(orders)| > 0 ==> range.Span?
    ensures |AllDays(orders)| > 0 && MinOf(AllDays(orders)) == MaxOf(AllDays(orders)) ==>
      range.start == range.end && forall k :: 0 <= k < |AllDays(orders)| ==> AllDays(orders)[k] == range.start
    ensures |AllDays(orders)| > 0 && MinOf(AllDays(orders)) != MaxOf(AllDays(orders)) ==>
      range == Span(MinOf(AllDays(orders)).value - 7, MaxOf(AllDays(orders)).value + 7)
  {
    var earliestDate, latestDate, sameObject := ScanOrders(orders);
    MinOfIsLeast(AllDays(orders));
    MaxOfIsGreatest(AllDays(orders));
    if earliestDate.None? || latestDate.None? {
      range := FallbackRange(today);
    } else {
      var start, end := earliestDate.value, latestDate.value;
      start := start - 7;
      if sameObject {
        end := start;
      }
      end := end + 7;
      if sameObject {
        start := end;
      }
      range := Span(start, end);
    }
  }

  /** `calculateTimelineRange` as intended: the earliest and latest valid
      stage date, padded by 7 days on each side; the fallback window when
      there is none. */
  method CalculateTimelineRange(orders: seq<ClientOrder>, today: Date) returns (range: TimelineRange)
    requires Valid(today)
    ensures |AllDays(orders)| == 0 ==> range == FallbackRange(today)
    ensures |AllDays(orders)| > 0 ==> range.Span?
    ensures |AllDays(orders)| > 0 ==> range.start + 7 in AllDays(orders) && range.end - 7 in AllDays(orders)
    ensures |AllDays(orders)| > 0 ==>
      forall k :: 0 <= k < |AllDays(orders)| ==> range.start + 7 <= AllDays(orders)[k] <= range.end - 7
    ensures |AllDays(orders)| > 0 ==> range.end - range.start >= 14
  {
    var earliestDate, latestDate, _ := ScanOrders(orders);
    MinOfIsLeast(AllDays(orders));
    MaxOfIsGreatest(AllDays(orders));
    if earliestDate.None? || latestDate.None? {
      range := FallbackRange(today);
    } else {
      range := Span(earliestDate.value - 7, latestDate.value + 7);
    }
  }

  /** On the single-day range the code as written produces, every date sits
      at 0 and every bar with both dates is 2 wide, whatever its dates. */
  lemma SingleDayRangeFlattensBars(day: int, startDate: Option<string>, endDate: Option<string>)
    ensures GetDatePosition(startDate, Span(day, day)) == 0.0
    ensures DateSet(startDate) && DateSet(endDate) ==> GetDateWidth(startDate, endDate, Span(day, day)) == 2.0
  {
  }

  /** A day's place on the range in percent, clamped to 0..100; 0 for a
      range of no positive length. */
  function PositionOfDay(day: int, start: int, end: int): (p: real)
    ensures 0.0 <= p <= 100.0
    ensures end - start <= 0 ==> p == 0.0
    ensures end - start > 0 && start <= day <= end ==>
      p * (end - start) as real == (day - start) as real * 100.0
    ensures end - start > 0 && day < start ==> p == 0.0
    ensures end - start > 0 && day > end ==> p == 100.0
  {
    var totalDays := (end - start) as real;
    var daysFromStart := (day - start) as real;
    if totalDays <= 0.0 then 0.0
    else MaxReal(0.0, MinReal(100.0, (daysFromStart / totalDays) * 100.0))
  }

  /** A later day is never placed further left. */
  lemma PositionMonotone(d1: int, d2: int, start: int, end: int)
    requires d1 <= d2
    ensures PositionOfDay(d1, start, end) <= PositionOfDay(d2, start, end)
  {
    if end - start > 0 {
      var total := (end - start) as real;
      assert (d1 - start) as real / total <= (d2 - start) as real / total;
    }
  }

  /** `getDatePosition`: 0 for a missing or invalid date or an unset range. */
  function GetDatePosition(date: Option<string>, range: TimelineRange): (p: real)
    ensures 0.0 <= p <= 100.0
    ensures DayOfText(date).None? || range.Unset? ==> p == 0.0
    ensures DayOfText(date).Some? && range.Span? ==> p == PositionOfDay(DayOfText(date).value, range.start, range.end)
  {
    if !DateSet(date) || range.Unset? then 0.0
    else match DayOfText(date)
      case None => 0.0
      case Some(day) => PositionOfDay(day, range.start, range.end)
  }

  /** `getDateWidth`: 0 when a date is missing, otherwise the distance
      between the two positions but at least 2. */
  function GetDateWidth(startDate: Option<string>, endDate: Option<string>, range: TimelineRange): (w: real)
    ensures !DateSet(startDate) || !DateSet(endDate) ==> w == 0.0
    ensures DateSet(startDate) && DateSet(endDate) ==>
      2.0 <= w <= 100.0 && w >= GetDatePosition(endDate, range) - GetDatePosition(startDate, range)
    ensures DateSet(startDate) && DateSet(endDate) ==>
      w == 2.0 || w == GetDatePosition(endDate, range) - GetDatePosition(startDate, range)
  {
    if !DateSet(startDate) || !DateSet(endDate) then 0.0
    else MaxReal(2.0, GetDatePosition(endDate, range) - GetDatePosition(startDate, range))
  }

  /** `Math.ceil(n / 10)` for a positive whole number of days. */
  function CeilTenth(n: int): (c: int)
    requires n > 0
    ensures c >= 1 && 10 * c >= n && 10 * (c - 1) < n
  {
    (n + 9) / 10
  }

  datatype Marker = Marker(offset: int, position: real)

  /** The markers of a range of `total` days, one every `step` days. */
  predicate MarkersEvery(markers: seq<Marker>, step: int, total: int)
    requires total > 0
  {
    forall k :: 0 <= k < |markers| ==>
      markers[k].offset == k * step && markers[k].offset <= total &&
      markers[k].position == markers[k].offset as real / total as real * 100.0
  }

  /** `generateTimelineMarkers`: for a range of `totalDays > 0` days, a marker
      every `step = max(1, ceil(totalDays / 10))` days from the start up to
      the end, placed at its offset's share of the range; none for an unset or
      empty range. Labels are not modelled. */
  method GenerateTimelineMarkers(range: TimelineRange) returns (markers: seq<Marker>)
    ensures range.Unset? || range.end - range.start <= 0 ==> markers == []
    ensures range.Span? && range.end - range.start > 0 ==>
      var total := range.end - range.start;
      var step := Max(1, CeilTenth(total));
      |markers| == total / step + 1 && |markers| <= total + 1 &&
      MarkersEvery(markers, step, total) &&
      (forall k :: 0 <= k < |markers| ==> 0.0 <= markers[k].position <= 100.0) &&
      markers[0].position == 0.0 &&
      (forall k :: 0 < k < |markers| ==> markers[k - 1].position < markers[k].position)
  {
    markers := [];
    if range.Unset? {
      return;
    }
    var totalDays := range.end - range.start;
    if totalDays <= 0 {
      return;
    }
    var step := Max(1, CeilTenth(totalDays));
    var i := 0;
    while i <= totalDays
      invariant 0 <= i && i == |markers| * step
      invariant MarkersEvery(markers, step, totalDays)
      decreases totalDays + step - i
    {
      MarkerAppended(markers, step, totalDays, i);
      markers := markers + [Marker(i, (i as real / totalDays as real) * 100.0)];
      i := i + step;
    }
    MarkerFacts(markers, step, totalDays);
  }

  /** The next marker of the loop keeps the markers evenly spaced. */
  lemma MarkerAppended(markers: seq<Marker>, step: int, total: int, i: int)
    requires step >= 1 && total > 0 && 0 <= i <= total && i == |markers| * step
    requires MarkersEvery(markers, step, total)
    ensures MarkersEvery(markers + [Marker(i, (i as real / total as real) * 100.0)], step, total)
    ensures i + step == (|markers| + 1) * step
  {
  }

  lemma MarkerFacts(markers: seq<Marker>, step: int, total: int)
    requires step >= 1 && total > 0
    requires |markers| * step > total
    requires MarkersEvery(markers, step, total)
    ensures |markers| == total / step + 1 && |markers| <= total + 1
    ensures forall k :: 0 <= k < |markers| ==> 0.0 <= markers[k].position <= 100.0
    ensures |markers| > 0 && markers[0].position == 0.0
    ensures forall k :: 0 < k < |markers| ==> markers[k - 1].position < markers[k].position
  {
    var n := |markers|;
    assert n > 0;
    assert markers[n - 1].offset == (n - 1) * step;
    MarkerCount(n, step, total);
    forall k | 0 <= k < n ensures 0.0 <= markers[k].position <= 100.0 {
      ShareInRange(markers[k].offset, total);
    }
    forall k | 0 < k < n ensures markers[k - 1].position < markers[k].position {
      ShareIncreasing(markers[k - 1].offset, markers[k].offset, total);
    }
  }

  lemma MarkerCount(n: int, step: int, total: int)
    requires step >= 1 && total > 0 && n >= 1
    requires (n - 1) * step <= total < n * step
    ensures n == total / step + 1 && n <= total + 1
  {
    var q := total / step;
    FactorLess(q, n, step);
    FactorLess(n - 1, q + 1, step);
    assert n - 1 <= (n - 1) * step;
  }

  lemma ShareInRange(offset: int, total: int)
    requires 0 <= offset <= total && total > 0
    ensures 0.0 <= offset as real / total as real * 100.0 <= 100.0
  {
  }

  lemma ShareIncreasing(o1: int, o2: int, total: int)
    requires o1 < o2 && total > 0
    ensures o1 as real / total as real * 100.0 < o2 as real / total as real * 100.0
  {
  }
}
