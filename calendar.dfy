/**
 * The calendar page (src/pages/Calendar.tsx): the 42-cell month grid, the
 * tasks due on a given day, the two-task preview in a day cell with its
 * "+ n more" note, and the daily completion summary.
 *
 * The grid takes the month's length, the weekday of its first day and the
 * length of the month before as inputs, as the page reads them off the
 * platform's date type; `dayOf` maps a due timestamp to its calendar day
 * in local time.
 */
module Calendar {
  import opened Common
  import opened Lib

  const GridSize := 42

  /** One cell of the grid. */
  datatype DayCell = DayCell(date: CivilDate, currentMonth: bool)

  /** The month before `month` of `year`, across a year boundary. */
  function PrevMonth(year: int, month: int): (ym: (int, int))
    requires 0 <= month <= 11
    ensures 0 <= ym.1 <= 11
    ensures ym.0 * 12 + ym.1 == year * 12 + month - 1
  {
    if month == 0 then (year - 1, 11) else (year, month - 1)
  }

  /** The month after `month` of `year`, across a year boundary. */
  function NextMonth(year: int, month: int): (ym: (int, int))
    requires 0 <= month <= 11
    ensures 0 <= ym.1 <= 11
    ensures ym.0 * 12 + ym.1 == year * 12 + month + 1
  {
    if month == 11 then (year + 1, 0) else (year, month + 1)
  }

  /** The inputs the grid is built from, within the ranges the calendar guarantees. */
  predicate MonthShape(month: int, daysInMonth: int, firstDayOfMonth: int, prevMonthLastDay: int) {
    && 0 <= month <= 11
    && 28 <= daysInMonth <= 31
    && 0 <= firstDayOfMonth <= 6
    && 28 <= prevMonthLastDay <= 31
  }

  /**
   * The cell at position `i`: the last `firstDayOfMonth` days of the month
   * before, then the days of the month, then the first days of the next
   * month.
   */
  function GridCell(year: int, month: int, daysInMonth: int, firstDayOfMonth: int, prevMonthLastDay: int, i: int): DayCell
    requires MonthShape(month, daysInMonth, firstDayOfMonth, prevMonthLastDay)
  {
    if i < firstDayOfMonth then
      var (py, pm) := PrevMonth(year, month);
      DayCell(CivilDate(py, pm, prevMonthLastDay - firstDayOfMonth + 1 + i), false)
    else if i < firstDayOfMonth + daysInMonth then
      DayCell(CivilDate(year, month, i - firstDayOfMonth + 1), true)
    else
      var (ny, nm) := NextMonth(year, month);
      DayCell(CivilDate(ny, nm, i - firstDayOfMonth - daysInMonth + 1), false)
  }

  /**
   * `calendarDays`: three loops push the padding days of the month
   * before, the month's own days and the padding days of the next month;
   * the grid always has 42 cells, each the one `GridCell` describes.
   */
  method CalendarDays(year: int, month: int, daysInMonth: int, firstDayOfMonth: int, prevMonthLastDay: int)
    returns (days: seq<DayCell>)
    requires MonthShape(month, daysInMonth, firstDayOfMonth, prevMonthLastDay)
    ensures |days| == GridSize
    ensures forall i :: 0 <= i < GridSize ==>
      days[i] == GridCell(year, month, daysInMonth, firstDayOfMonth, prevMonthLastDay, i)
  {
    days := [];
    var (py, pm) := PrevMonth(year, month);
    var i := firstDayOfMonth - 1;
    while i >= 0
      invariant -1 <= i <= firstDayOfMonth - 1
      invariant |days| == firstDayOfMonth - 1 - i
      invariant forall j :: 0 <= j < |days| ==>
        days[j] == GridCell(year, month, daysInMonth, firstDayOfMonth, prevMonthLastDay, j)
    {
      days := days + [DayCell(CivilDate(py, pm, prevMonthLastDay - i), false)];
      i := i - 1;
    }
    var d := 1;
    while d <= daysInMonth
      invariant 1 <= d <= daysInMonth + 1
      invariant |days| == firstDayOfMonth + d - 1
      invariant forall j :: 0 <= j < |days| ==>
        days[j] == GridCell(year, month, daysInMonth, firstDayOfMonth, prevMonthLastDay, j)
    {
      days := days + [DayCell(CivilDate(year, month, d), true)];
      d := d + 1;
    }
    var (ny, nm) := NextMonth(year, month);
    var remainingDays := GridSize - |days|;
    var k := 1;
    while k <= remainingDays
      invariant 1 <= k <= remainingDays + 1
      invariant |days| == firstDayOfMonth + daysInMonth + k - 1
      invariant forall j :: 0 <= j < |days| ==>
        days[j] == GridCell(year, month, daysInMonth, firstDayOfMonth, prevMonthLastDay, j)
    {
      days := days + [DayCell(CivilDate(ny, nm, k), false)];
      k := k + 1;
    }
  }

  /** The whole grid as a sequence of cells. */
  function Grid(year: int, month: int, daysInMonth: int, firstDayOfMonth: int, prevMonthLastDay: int): (g: seq<DayCell>)
    requires MonthShape(month, daysInMonth, firstDayOfMonth, prevMonthLastDay)
    ensures |g| == GridSize
  {
    seq(GridSize, i requires 0 <= i < GridSize => GridCell(year, month, daysInMonth, firstDayOfMonth, prevMonthLastDay, i))
  }

  const InMonth: DayCell -> bool := (c: DayCell) => c.currentMonth

  /**
   * The grid's shape: each day of the month appears once, at position
   * `firstDayOfMonth + day - 1`; the padding before it counts up by one to
   * the last day of the month before; the padding after it starts at day 1
   * of the next month.
   */
  lemma GridShape(year: int, month: int, daysInMonth: int, firstDayOfMonth: int, prevMonthLastDay: int)
    requires MonthShape(month, daysInMonth, firstDayOfMonth, prevMonthLastDay)
    ensures var g := Grid(year, month, daysInMonth, firstDayOfMonth, prevMonthLastDay);
      && (forall day :: 1 <= day <= daysInMonth ==>
            g[firstDayOfMonth + day - 1] == DayCell(CivilDate(year, month, day), true))
      && (firstDayOfMonth > 0 ==> g[firstDayOfMonth - 1].date.day == prevMonthLastDay)
      && (forall i :: 0 < i < firstDayOfMonth ==> g[i].date.day == g[i - 1].date.day + 1)
      && g[firstDayOfMonth + daysInMonth].date == CivilDate(NextMonth(year, month).0, NextMonth(year, month).1, 1)
  {
  }

  /** Exactly `daysInMonth` cells are marked as the month's own. */
  lemma GridMonthCells(year: int, month: int, daysInMonth: int, firstDayOfMonth: int, prevMonthLastDay: int)
    requires MonthShape(month, daysInMonth, firstDayOfMonth, prevMonthLastDay)
    ensures Count(Grid(year, month, daysInMonth, firstDayOfMonth, prevMonthLastDay), InMonth) == daysInMonth
  {
    var g := Grid(year, month, daysInMonth, firstDayOfMonth, prevMonthLastDay);
    var a := g[..firstDayOfMonth];
    var b := g[firstDayOfMonth..firstDayOfMonth + daysInMonth];
    var c := g[firstDayOfMonth + daysInMonth..];
    assert g == a + b + c;
    assert Count(a, InMonth) == 0 by {
      assert forall j :: 0 <= j < |a| ==> !InMonth(a[j]);
    }
    assert Count(c, InMonth) == 0 by {
      assert forall j :: 0 <= j < |c| ==> !InMonth(c[j]);
    }
    assert Count(b, InMonth) == daysInMonth by {
      CountAll(b, InMonth);
    }
    CountAppend(a + b, c, InMonth);
    CountAppend(a, b, InMonth);
  }

  // ---------------------------------------------------------------------
  // Tasks on a day
  // ---------------------------------------------------------------------

  function DueOn(date: CivilDate, dayOf: int -> CivilDate): Task -> bool {
    (t: Task) => dayOf(t.dueDate) == date
  }

  /**
   * `getTasksForDate`: the tasks whose due date falls on the same year,
   * month and day, in list order.
   */
  function TasksForDate(tasks: seq<Task>, date: CivilDate, dayOf: int -> CivilDate): (r: seq<Task>)
    ensures forall t :: t in r <==> t in tasks && dayOf(t.dueDate) == date
    ensures multiset(r) <= multiset(tasks)
    ensures |r| == Count(tasks, DueOn(date, dayOf))
  {
    Filter(tasks, DueOn(date, dayOf))
  }

  /** `tasksForSelectedDate`: nothing while no day is selected, otherwise the selected day's tasks. */
  function TasksForSelectedDate(tasks: seq<Task>, selected: Option<CivilDate>, dayOf: int -> CivilDate): (r: seq<Task>)
    ensures selected.None? ==> r == []
    ensures selected.Some? ==> forall t :: t in r <==> t in tasks && dayOf(t.dueDate) == selected.value
  {
    if selected.None? then [] else TasksForDate(tasks, selected.value, dayOf)
  }

  /** A task is due on one day only, so two different days share no task and fit together in the list. */
  lemma DifferentDaysDisjoint(tasks: seq<Task>, d1: CivilDate, d2: CivilDate, dayOf: int -> CivilDate)
    requires d1 != d2
    ensures forall t :: !(t in TasksForDate(tasks, d1, dayOf) && t in TasksForDate(tasks, d2, dayOf))
    ensures |TasksForDate(tasks, d1, dayOf)| + |TasksForDate(tasks, d2, dayOf)| <= |tasks|
  {
    CountDisjoint(tasks, DueOn(d1, dayOf), DueOn(d2, dayOf));
  }

  const PreviewLimit := 2

  /** The tasks a day cell lists: the first two. */
  function Preview(dateTasks: seq<Task>): (r: seq<Task>)
    ensures |r| <= PreviewLimit && r <= dateTasks
    ensures |dateTasks| <= PreviewLimit ==> r == dateTasks
  {
    Take(dateTasks, PreviewLimit)
  }

  /** The note under the preview: "+ n more" for the tasks not listed, shown only when some are left out. */
  function MoreNote(dateTasks: seq<Task>): (note: Option<string>)
    ensures note.Some? <==> |dateTasks| > PreviewLimit
    ensures note.Some? ==> note.value == "+ " + NatToString(|dateTasks| - |Preview(dateTasks)|) + " more"
  {
    if |dateTasks| > PreviewLimit then Some("+ " + NatToString(|dateTasks| - PreviewLimit) + " more") else None
  }

  const IsDone: Task -> bool := (t: Task) => t.status == Completed

  function DoneOn(date: CivilDate, dayOf: int -> CivilDate): Task -> bool {
    (t: Task) => dayOf(t.dueDate) == date && t.status == Completed
  }

  /**
   * The daily summary "done/total": the selected day's completed tasks
   * over all its tasks. The done count never exceeds the total, and it is
   * the number of completed tasks of the whole list that fall on that day.
   */
  function DailySummary(tasks: seq<Task>, selected: CivilDate, dayOf: int -> CivilDate): (s: (nat, nat))
    ensures s.0 <= s.1
    ensures s.1 == Count(tasks, DueOn(selected, dayOf))
    ensures s.0 == Count(tasks, DoneOn(selected, dayOf))
  {
    var day := TasksForDate(tasks, selected, dayOf);
    CountFilter(tasks, DueOn(selected, dayOf), IsDone, DoneOn(selected, dayOf));
    (Count(day, IsDone), |day|)
  }

  /** Counting within a filtered list counts the elements that pass both tests. */
  lemma {:induction false} CountFilter<T(!new)>(s: seq<T>, p: T -> bool, q: T -> bool, both: T -> bool)
    requires forall x :: both(x) == (p(x) && q(x))
    ensures Count(Filter(s, p), q) == Count(s, both)
  {
    if s != [] {
      CountFilter(s[1..], p, q, both);
      CountAppend(if p(s[0]) then [s[0]] else [], Filter(s[1..], p), q);
    }
  }
}
