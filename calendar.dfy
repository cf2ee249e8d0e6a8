/**
 * Calendar dates as the JavaScript `Date(year, monthIndex, day)` constructor
 * builds them in local time: months are numbered 0..11 and a month or day
 * outside its range rolls over into the neighbouring months and years
 * (`new Date(y, m, 0)` is the last day of month m - 1). The seller metrics
 * look at whole calendar months counted back from the current one.
 */
module Calendar {

  datatype Date = Date(year: int, month: int, day: int)

  predicate IsLeapYear(y: int) {
    (y % 4 == 0 && y % 100 != 0) || y % 400 == 0
  }

  /** Days in month `m` (0-based) of year `y`, Gregorian calendar. */
  function DaysInMonth(y: int, m: int): (n: int)
    requires 0 <= m < 12
    ensures 28 <= n <= 31
  {
    if m == 1 then (if IsLeapYear(y) then 29 else 28)
    else if m == 3 || m == 5 || m == 8 || m == 10 then 30
    else 31
  }

  predicate ValidDate(d: Date) {
    0 <= d.month < 12 && 1 <= d.day <= DaysInMonth(d.year, d.month)
  }

  /** `new Date(y, m, d)`: the month index rolls over into years, then the day into months. */
  function MakeDate(y: int, m: int, d: int): (r: Date)
    ensures ValidDate(r)
    decreases if d < 1 then 1 - d else 0, d
  {
    var year, month := y + m / 12, m % 12;
    if d < 1 then
      var (py, pm) := if month == 0 then (year - 1, 11) else (year, month - 1);
      MakeDate(py, pm, d + DaysInMonth(py, pm))
    else if d > DaysInMonth(year, month) then
      MakeDate(year, month + 1, d - DaysInMonth(year, month))
    else Date(year, month, d)
  }

  /** A day in range is kept as it is. */
  lemma MakeDateInRange(y: int, m: int, d: int)
    requires 0 <= m < 12 && 1 <= d <= DaysInMonth(y, m)
    ensures MakeDate(y, m, d) == Date(y, m, d)
  {
    assert y + m / 12 == y && m % 12 == m;
  }

  /** The calendar month that lies `back` months before (year, month): its year and 0-based month. */
  function MonthsBefore(year: int, month: int, back: int): (r: (int, int))
    ensures 0 <= r.1 < 12
    ensures r.0 * 12 + r.1 == year * 12 + month - back
  {
    var index := year * 12 + month - back;
    (index / 12, index % 12)
  }

  /** A closed range of days `[start, end]`. */
  datatype Window = Window(start: Date, end: Date)

  /**
   * The range of the month `i` months before `now`'s month:
   * `new Date(ano, mes - i, 1)` to `new Date(ano, mes - i + 1, 0)`.
   */
  function MonthWindow(now: Date, i: int): Window {
    Window(MakeDate(now.year, now.month - i, 1), MakeDate(now.year, now.month - i + 1, 0))
  }

  function NextDay(d: Date): Date
    requires ValidDate(d)
  {
    if d.day < DaysInMonth(d.year, d.month) then Date(d.year, d.month, d.day + 1)
    else if d.month < 11 then Date(d.year, d.month + 1, 1)
    else Date(d.year + 1, 0, 1)
  }

  /** Day 1 of any month index is the first day of the month it rolls over to. */
  lemma MakeDateFirstDay(y: int, m: int)
    ensures MakeDate(y, m, 1) == Date(y + m / 12, m % 12, 1)
  {
  }

  /** Day 0 of any month index is the last day of the month before the one it rolls over to. */
  lemma MakeDateDayZero(y: int, m: int)
    ensures var (py, pm) := if m % 12 == 0 then (y + m / 12 - 1, 11) else (y + m / 12, m % 12 - 1);
      MakeDate(y, m, 0) == Date(py, pm, DaysInMonth(py, pm))
  {
    var (py, pm) := if m % 12 == 0 then (y + m / 12 - 1, 11) else (y + m / 12, m % 12 - 1);
    MakeDateInRange(py, pm, DaysInMonth(py, pm));
  }

  /** Month `i` runs from the first to the last day of the calendar month `i` months back, across year boundaries. */
  lemma MonthWindowSpan(now: Date, i: int)
    requires 0 <= now.month < 12
    ensures var (y, m) := MonthsBefore(now.year, now.month, i);
      MonthWindow(now, i) == Window(Date(y, m, 1), Date(y, m, DaysInMonth(y, m)))
  {
    var (y, m) := MonthsBefore(now.year, now.month, i);
    var mi := now.month - i;
    MonthStart(now.year, mi, y, m);
    MonthEnd(now.year, mi, y, m);
  }

  /** Division by 12 is determined by quotient and remainder. */
  lemma DivMod12(n: int, q: int, r: int)
    requires n == q * 12 + r && 0 <= r < 12
    ensures n / 12 == q && n % 12 == r
  {
  }

  /** Day 1 of the month index `mi` of `year` is day 1 of month `m` of `y` when they name the same month. */
  lemma MonthStart(year: int, mi: int, y: int, m: int)
    requires 0 <= m < 12 && y * 12 + m == year * 12 + mi
    ensures MakeDate(year, mi, 1) == Date(y, m, 1)
  {
    MakeDateFirstDay(year, mi);
    DivMod12(mi, y - year, m);
  }

  /** Day 0 of the month index after `mi` is the last day of month `m` of `y` when they name the same month. */
  lemma MonthEnd(year: int, mi: int, y: int, m: int)
    requires 0 <= m < 12 && y * 12 + m == year * 12 + mi
    ensures MakeDate(year, mi + 1, 0) == Date(y, m, DaysInMonth(y, m))
  {
    MakeDateDayZero(year, mi + 1);
    if m < 11 {
      DivMod12(mi + 1, y - year, m + 1);
    } else {
      DivMod12(mi + 1, y - year + 1, 0);
    }
  }

  /** Consecutive months meet: the day after month i+1 ends is the day month i starts. */
  lemma MonthWindowsAdjacent(now: Date, i: int)
    requires 0 <= now.month < 12
    ensures ValidDate(MonthWindow(now, i + 1).end)
    ensures NextDay(MonthWindow(now, i + 1).end) == MonthWindow(now, i).start
  {
    MonthWindowSpan(now, i);
    MonthWindowSpan(now, i + 1);
  }

  /** Distinct offsets give distinct months. */
  lemma MonthWindowsDistinct(now: Date, i: int, j: int)
    requires 0 <= now.month < 12 && i != j
    ensures MonthWindow(now, i).start != MonthWindow(now, j).start
  {
    MonthWindowSpan(now, i);
    MonthWindowSpan(now, j);
  }

  /**
   * The two periods the metrics routes compare: the current one is today's
   * whole calendar month, so it contains today, and the previous one ends on
   * the day before the current one starts.
   */
  lemma PeriodsAroundToday(now: Date)
    requires ValidDate(now)
    ensures MonthWindow(now, 0) == Window(Date(now.year, now.month, 1), Date(now.year, now.month, DaysInMonth(now.year, now.month)))
    ensures MonthWindow(now, 0).start.day <= now.day <= MonthWindow(now, 0).end.day
    ensures ValidDate(MonthWindow(now, 1).end) && NextDay(MonthWindow(now, 1).end) == MonthWindow(now, 0).start
  {
    DivMod12(now.year * 12 + now.month, now.year, now.month);
    MonthWindowSpan(now, 0);
    MonthWindowsAdjacent(now, 0);
  }
}
