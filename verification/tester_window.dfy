/** The weekly tester schedule, written twice: as minute arithmetic in the guard
    (tools/auto_tester_window_guard.py) and as a search for the next window in the daily review
    (tools/build_daily_review.py).

    An instant is a number of microseconds since a Monday midnight in Japan standard time. */
module TesterWindow {

  const MINUTE := 60_000_000
  const DAY := 1440 * MINUTE

  function DayOf(t: int): int { t / DAY }

  function TimeOfDay(t: int): nat { t % DAY }

  /** Monday is 0. */
  function Weekday(day: int): nat { day % 7 }

  // ---------------------------------------------------------------- the guard

  /** `regular_tester_window`: whole minutes since midnight, both ends included. */
  predicate GuardOpen(t: int) {
    var weekday := Weekday(DayOf(t));
    var minutes := TimeOfDay(t) / MINUTE;
    var closeout := 0 <= minutes <= 2 * 60 + 30;
    var night := 20 * 60 + 10 <= minutes <= 23 * 60 + 30;
    var weekendMorning := (weekday == 5 && 7 * 60 + 10 <= minutes <= 9 * 60 + 30)
                          || (weekday == 6 && 8 * 60 <= minutes <= 9 * 60 + 30);
    closeout || night || weekendMorning
  }

  // ---------------------------------------------------------------- the plan

  /** Start and end of a window, in minutes of its day. */
  datatype Window = Window(start: nat, end: nat)

  function WindowsOn(weekday: nat): seq<Window> {
    var closeout, night := Window(0, 2 * 60 + 30), Window(20 * 60 + 10, 23 * 60 + 30);
    if weekday == 5 then [closeout, Window(7 * 60 + 10, 9 * 60 + 30), night]
    else if weekday == 6 then [closeout, Window(8 * 60, 9 * 60 + 30), night]
    else [closeout, night]
  }

  function Mark(day: int, minutes: nat): int { day * DAY + minutes * MINUTE }

  datatype Plan = NoWindow | Plan(openNow: bool, dueToday: bool, start: int, end: int)

  function SearchDay(t: int, day: int, windows: seq<Window>, offset: nat): Plan {
    if windows == [] then NoWindow else
      var start, end := Mark(day, windows[0].start), Mark(day, windows[0].end);
      if t <= end then Plan(start <= t <= end, offset == 0, start, end)
      else SearchDay(t, day, windows[1..], offset)
  }

  function Search(t: int, offset: nat): Plan
    decreases 8 - offset
  {
    if offset >= 8 then NoWindow else
      var day := DayOf(t) + offset;
      var found := SearchDay(t, day, WindowsOn(Weekday(day)), offset);
      if found.Plan? then found else Search(t, offset + 1)
  }

  function WindowPlan(t: int): Plan { Search(t, 0) }

  // ---------------------------------------------------------------- the table

  predicate InWindow(t: int, w: Window) {
    Mark(DayOf(t), w.start) <= t <= Mark(DayOf(t), w.end)
  }

  /** The plan's table says the instant is open. */
  predicate TableOpen(t: int) {
    exists i :: 0 <= i < |WindowsOn(Weekday(DayOf(t)))| && InWindow(t, WindowsOn(Weekday(DayOf(t)))[i])
  }

  /** The instant is after a closing mark of its day but inside that closing minute. */
  predicate InClosingMinute(t: int) {
    exists i :: 0 <= i < |WindowsOn(Weekday(DayOf(t)))| &&
      var end := Mark(DayOf(t), WindowsOn(Weekday(DayOf(t)))[i].end); end < t < end + MINUTE
  }

  lemma TableByTime(t: int)
    ensures var s, weekday := TimeOfDay(t), Weekday(DayOf(t));
      TableOpen(t) <==>
        || s <= 150 * MINUTE || 1210 * MINUTE <= s <= 1410 * MINUTE
        || (weekday == 5 && 430 * MINUTE <= s <= 570 * MINUTE)
        || (weekday == 6 && 480 * MINUTE <= s <= 570 * MINUTE)
    ensures var s, weekday := TimeOfDay(t), Weekday(DayOf(t));
      InClosingMinute(t) <==>
        || 150 * MINUTE < s < 151 * MINUTE || 1410 * MINUTE < s < 1411 * MINUTE
        || ((weekday == 5 || weekday == 6) && 570 * MINUTE < s < 571 * MINUTE)
  {
    var ws := WindowsOn(Weekday(DayOf(t)));
    assert t == DayOf(t) * DAY + TimeOfDay(t);
    assert ws[0] == Window(0, 150) && ws[|ws| - 1] == Window(1210, 1410);
    assert |ws| == 3 ==> ws[1].end == 570;
  }

  /** The guard is open exactly when the table is, or in the rest of a closing minute. */
  lemma {:induction false} GuardIsTablePlusClosingMinute(t: int)
    ensures GuardOpen(t) <==> TableOpen(t) || InClosingMinute(t)
    ensures !(TableOpen(t) && InClosingMinute(t))
  {
    TableByTime(t);
  }

  lemma {:induction false} SearchToday(t: int)
    ensures var s, day, weekday := TimeOfDay(t), DayOf(t), Weekday(DayOf(t));
      SearchDay(t, day, WindowsOn(weekday), 0) ==
      if s <= 150 * MINUTE then Plan(true, true, Mark(day, 0), Mark(day, 150))
      else if weekday == 5 && s <= 570 * MINUTE then Plan(430 * MINUTE <= s, true, Mark(day, 430), Mark(day, 570))
      else if weekday == 6 && s <= 570 * MINUTE then Plan(480 * MINUTE <= s, true, Mark(day, 480), Mark(day, 570))
      else if s <= 1410 * MINUTE then Plan(1210 * MINUTE <= s, true, Mark(day, 1210), Mark(day, 1410))
      else NoWindow
  {
    var day, weekday := DayOf(t), Weekday(DayOf(t));
    var ws := WindowsOn(weekday);
    assert t == day * DAY + TimeOfDay(t);
    var night := [Window(1210, 1410)];
    assert night[1..] == [];
    assert SearchDay(t, day, night, 0)
           == if t <= Mark(day, 1410) then Plan(Mark(day, 1210) <= t, true, Mark(day, 1210), Mark(day, 1410)) else NoWindow;
    if |ws| == 3 {
      assert ws[1..] == [ws[1]] + night && ([ws[1]] + night)[1..] == night;
    } else {
      assert ws[1..] == night;
    }
  }

  /** The search ends today or with tomorrow's first window: the fallback is never reached. */
  lemma {:induction false} PlanIsFound(t: int)
    ensures var plan, day := WindowPlan(t), DayOf(t);
      plan == SearchDay(t, day, WindowsOn(Weekday(day)), 0)
      || (TimeOfDay(t) > 1410 * MINUTE && plan == Plan(false, false, Mark(day + 1, 0), Mark(day + 1, 150)))
    ensures WindowPlan(t).Plan?
  {
    SearchToday(t);
    var day := DayOf(t);
    assert t == day * DAY + TimeOfDay(t);
    if TimeOfDay(t) > 1410 * MINUTE {
      assert Search(t, 0) == Search(t, 1);
      var ws := WindowsOn(Weekday(day + 1));
      assert ws[0] == Window(0, 150);
      assert t <= Mark(day + 1, 150);
    }
  }

  /** The plan read off the time of day. */
  lemma {:induction false} PlanByTime(t: int)
    ensures var s, day, weekday := TimeOfDay(t), DayOf(t), Weekday(DayOf(t));
      WindowPlan(t) ==
      if s <= 150 * MINUTE then Plan(true, true, Mark(day, 0), Mark(day, 150))
      else if weekday == 5 && s <= 570 * MINUTE then Plan(430 * MINUTE <= s, true, Mark(day, 430), Mark(day, 570))
      else if weekday == 6 && s <= 570 * MINUTE then Plan(480 * MINUTE <= s, true, Mark(day, 480), Mark(day, 570))
      else if s <= 1410 * MINUTE then Plan(1210 * MINUTE <= s, true, Mark(day, 1210), Mark(day, 1410))
      else Plan(false, false, Mark(day + 1, 0), Mark(day + 1, 150))
  {
    hide SearchDay, WindowsOn, WindowPlan, Mark;
    SearchToday(t);
    PlanIsFound(t);
  }

  /** The two schedules agree: the plan is open exactly when its table is, an open plan means an
      open guard, and they differ only in the rest of a closing minute. */
  lemma {:induction false} SchedulesAgree(t: int)
    ensures WindowPlan(t).Plan?
    ensures WindowPlan(t).openNow <==> TableOpen(t)
    ensures WindowPlan(t).openNow ==> GuardOpen(t)
    ensures GuardOpen(t) != WindowPlan(t).openNow <==> InClosingMinute(t)
  {
    hide SearchDay, WindowsOn, TableOpen, InClosingMinute, WindowPlan;
    PlanByTime(t);
    TableByTime(t);
    GuardIsTablePlusClosingMinute(t);
  }

  /** The plan names the next window: it is open from its start to its end, nothing is open
      before it, and the wait is less than 17 hours 40 minutes. */
  lemma {:induction false} PlanIsNextWindow(t: int, u: int)
    ensures WindowPlan(t).Plan?
    ensures t <= u < WindowPlan(t).start ==> !TableOpen(u)
    ensures WindowPlan(t).start <= u <= WindowPlan(t).end ==> TableOpen(u)
    ensures t <= WindowPlan(t).end
    ensures WindowPlan(t).start - t < (17 * 60 + 40) * MINUTE
    ensures WindowPlan(t).dueToday <==> DayOf(WindowPlan(t).start) == DayOf(t)
  {
    hide Search, SearchDay, WindowsOn, TableOpen, WindowPlan, DayOf, TimeOfDay, Weekday;
    PlanByTime(t);
    var plan, day := WindowPlan(t), DayOf(t);
    DayBounds(t);
    TableOnDay(plan.start, if plan.dueToday then day else day + 1);
    if plan.start <= u <= plan.end || t <= u < plan.start {
      TableOnDay(u, if plan.dueToday || u < plan.start then day else day + 1);
    }
  }

  lemma DayBounds(t: int)
    ensures t == DayOf(t) * DAY + TimeOfDay(t) && 0 <= TimeOfDay(t) < DAY
  {
  }

  /** The table for the instants of one day. */
  lemma {:induction false} TableOnDay(u: int, day: int)
    requires Mark(day, 0) <= u < Mark(day + 1, 0)
    ensures DayOf(u) == day
    ensures TableOpen(u) <==>
      || u <= Mark(day, 150) || Mark(day, 1210) <= u <= Mark(day, 1410)
      || (Weekday(day) == 5 && Mark(day, 430) <= u <= Mark(day, 570))
      || (Weekday(day) == 6 && Mark(day, 480) <= u <= Mark(day, 570))
  {
    hide TableOpen, InClosingMinute, Weekday;
    TableByTime(u);
    assert day * DAY <= u < (day + 1) * DAY;
    assert DayOf(u) == day && TimeOfDay(u) == u - day * DAY;
  }

  /** The guard's hours in microseconds of the week: nights and closeouts of every day, and mornings
      on Saturday and Sunday. */
  lemma {:induction false} GuardByInstant(t: int)
    ensures var s, day := t % 86_400_000_000, t / 86_400_000_000 % 7;
      GuardOpen(t) <==>
        || s < 151 * 60_000_000 || 1210 * 60_000_000 <= s < 1411 * 60_000_000
        || (day == 5 && 430 * 60_000_000 <= s < 571 * 60_000_000)
        || (day == 6 && 480 * 60_000_000 <= s < 571 * 60_000_000)
  {
  }

  /** Both schedules repeat every week. */
  lemma {:induction false} WeekRepeats(t: int)
    ensures var u := t + 604_800_000_000;
      && (GuardOpen(u) <==> GuardOpen(t)) && (TableOpen(u) <==> TableOpen(t))
      && WindowPlan(u).Plan? && WindowPlan(t).Plan? && (WindowPlan(u).openNow <==> WindowPlan(t).openNow)
  {
    hide TableOpen, WindowPlan, InClosingMinute, GuardOpen;
    var u := t + 604_800_000_000;
    assert DayOf(u) == DayOf(t) + 7 && TimeOfDay(u) == TimeOfDay(t);
    assert Weekday(DayOf(u)) == Weekday(DayOf(t));
    TableByTime(t);
    TableByTime(u);
    SchedulesAgree(t);
    SchedulesAgree(u);
  }
}
