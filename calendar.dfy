/** The academic calendar screen
    (InsightEd-App/.../ui/calendar/CalendarScreen.kt): the displayed month,
    clamped to August 2025 .. April 2026 and moved by Prev / Next; the 6 x 7
    day grid; the colour of each cell; and the per-month totals. The clock
    is a parameter (`now` is `YearMonth.now()`); the `java.time` month
    lengths and weekdays are computed in the proleptic Gregorian calendar
    that `java.time` uses. */
module Calendar {

  type MonthOfYear = m: int | 1 <= m <= 12 witness 1

  datatype YearMonth = YearMonth(year: int, month: MonthOfYear)

  /** `YearMonth.compareTo`: by year, then by month. */
  predicate Before(a: YearMonth, b: YearMonth) {
    a.year < b.year || (a.year == b.year && a.month < b.month)
  }

  /** The number of months since January of year 0. */
  function MonthIndex(ym: YearMonth): int {
    ym.year * 12 + ym.month - 1
  }

  function FromMonthIndex(k: int): (ym: YearMonth)
    ensures MonthIndex(ym) == k
  {
    YearMonth(k / 12, k % 12 + 1)
  }

  lemma MonthIndexOrder(a: YearMonth, b: YearMonth)
    ensures Before(a, b) <==> MonthIndex(a) < MonthIndex(b)
    ensures a == b <==> MonthIndex(a) == MonthIndex(b)
  {
  }

  /** `plusMonths(n)` (and `minusMonths(n)` as `plusMonths(-n)`). */
  function PlusMonths(ym: YearMonth, n: int): (r: YearMonth)
    ensures MonthIndex(r) == MonthIndex(ym) + n
  {
    FromMonthIndex(MonthIndex(ym) + n)
  }

  /** Stepping back a month and forward again returns to the same month. */
  lemma PlusMonthsRoundTrip(ym: YearMonth, n: int)
    ensures PlusMonths(PlusMonths(ym, n), -n) == ym
  {
    MonthIndexOrder(PlusMonths(PlusMonths(ym, n), -n), ym);
  }

  const MinMonth := YearMonth(2025, 8)
  const MaxMonth := YearMonth(2026, 4)

  predicate InRange(ym: YearMonth) {
    !Before(ym, MinMonth) && !Before(MaxMonth, ym)
  }

  /** Kotlin's `coerceIn(lo, hi)` on comparable values. */
  function CoerceIn(v: YearMonth, lo: YearMonth, hi: YearMonth): (r: YearMonth)
    requires !Before(hi, lo)
    ensures !Before(r, lo) && !Before(hi, r)
    ensures !Before(v, lo) && !Before(hi, v) ==> r == v
    ensures Before(v, lo) ==> r == lo
    ensures Before(hi, v) ==> r == hi
  {
    if Before(v, lo) then lo else if Before(hi, v) then hi else v
  }

  /** The opening month lies in the range and is `now` itself whenever `now`
      does. */
  lemma ClampedStart(now: YearMonth)
    ensures InRange(CoerceIn(now, MinMonth, MaxMonth))
    ensures InRange(now) <==> CoerceIn(now, MinMonth, MaxMonth) == now
    ensures Before(now, MinMonth) ==> CoerceIn(now, MinMonth, MaxMonth) == MinMonth
    ensures Before(MaxMonth, now) ==> CoerceIn(now, MinMonth, MaxMonth) == MaxMonth
  {
  }

  /** The range holds exactly nine months. */
  lemma RangeMonths(ym: YearMonth)
    ensures InRange(ym) <==> 2025 * 12 + 7 <= MonthIndex(ym) <= 2026 * 12 + 3
  {
  }

  /** `currentYearMonth`, the month on screen. */
  class CalendarScreen {
    var currentYearMonth: YearMonth

    predicate Valid()
      reads this
    {
      InRange(currentYearMonth)
    }

    constructor (now: YearMonth)
      ensures currentYearMonth == CoerceIn(now, MinMonth, MaxMonth)
      ensures Valid()
    {
      currentYearMonth := CoerceIn(now, MinMonth, MaxMonth);
      ClampedStart(now);
    }

    /** Prev is enabled only after the first month. */
    function PrevEnabled(): bool
      reads this
    {
      Before(MinMonth, currentYearMonth)
    }

    /** Next is enabled only before the last month. */
    function NextEnabled(): bool
      reads this
    {
      Before(currentYearMonth, MaxMonth)
    }

    method Prev()
      requires Valid()
      modifies this
      ensures Valid()
      ensures old(PrevEnabled()) ==> currentYearMonth == PlusMonths(old(currentYearMonth), -1)
      ensures !old(PrevEnabled()) ==> currentYearMonth == old(currentYearMonth)
    {
      if Before(MinMonth, currentYearMonth) {
        currentYearMonth := PlusMonths(currentYearMonth, -1);
      }
    }

    method Next()
      requires Valid()
      modifies this
      ensures Valid()
      ensures old(NextEnabled()) ==> currentYearMonth == PlusMonths(old(currentYearMonth), 1)
      ensures !old(NextEnabled()) ==> currentYearMonth == old(currentYearMonth)
    {
      if Before(currentYearMonth, MaxMonth) {
        currentYearMonth := PlusMonths(currentYearMonth, 1);
      }
    }
  }

  // ----- month lengths and weekdays -----

  predicate IsLeap(year: int) {
    year % 4 == 0 && (year % 100 != 0 || year % 400 == 0)
  }

  /** `lengthOfMonth()`. */
  function LengthOfMonth(ym: YearMonth): (n: nat)
    ensures 28 <= n <= 31
  {
    if ym.month == 2 then (if IsLeap(ym.year) then 29 else 28)
    else if ym.month in {4, 6, 9, 11} then 30
    else 31
  }

  /** Days in the months of a year before `month`. */
  function DaysBeforeMonth(year: int, month: MonthOfYear): nat {
    [0, 31, 59, 90, 120, 151, 181, 212, 243, 273, 304, 334][month - 1]
      + (if month > 2 && IsLeap(year) then 1 else 0)
  }

  /** Days from 0001-01-01 to January 1st of `year`. */
  function DaysBeforeYear(year: int): int {
    var y := year - 1;
    365 * y + y / 4 - y / 100 + y / 400
  }

  /** Days from 0001-01-01 (a Monday) to the first of the month. */
  function FirstDayNumber(ym: YearMonth): int {
    DaysBeforeYear(ym.year) + DaysBeforeMonth(ym.year, ym.month)
  }

  /** `atDay(1).dayOfWeek.value`: 1 for Monday through 7 for Sunday. */
  function FirstIsoDayOfWeek(ym: YearMonth): (d: int)
    ensures 1 <= d <= 7
  {
    FirstDayNumber(ym) % 7 + 1
  }

  /** `dayOfWeek.value % 7`: the grid column of the 1st, Sunday being 0. */
  function DayOfWeekOffset(ym: YearMonth): (offset: nat)
    ensures offset < 7
    ensures offset == 0 <==> FirstIsoDayOfWeek(ym) == 7
  {
    FirstIsoDayOfWeek(ym) % 7
  }

  lemma YearLength(year: int)
    ensures DaysBeforeYear(year + 1) == DaysBeforeYear(year) + (if IsLeap(year) then 366 else 365)
  {
    YearStep(year);
    LeapCount(year);
  }

  lemma YearStep(year: int)
    ensures DaysBeforeYear(year + 1) - DaysBeforeYear(year) ==
      365 + (year / 4 - (year - 1) / 4) - (year / 100 - (year - 1) / 100) + (year / 400 - (year - 1) / 400)
  {
  }

  /** A year is leap exactly when it adds one to the count of multiples of 4,
      minus those of 100, plus those of 400. */
  lemma LeapCount(year: int)
    ensures (if IsLeap(year) then 1 else 0) ==
      (year / 4 - (year - 1) / 4) - (year / 100 - (year - 1) / 100) + (year / 400 - (year - 1) / 400)
  {
    DivStep(year, 4);
    DivStep(year, 100);
    DivStep(year, 400);
    Multiples(year);
  }

  lemma Multiples(year: int)
    ensures year % 400 == 0 ==> year % 100 == 0
    ensures year % 100 == 0 ==> year % 4 == 0
  {
    if year % 400 == 0 {
      MultipleOf(year, 400, 100);
    }
    if year % 100 == 0 {
      MultipleOf(year, 100, 4);
    }
  }

  lemma MultipleOf(n: int, big: int, small: int)
    requires (big == 400 && small == 100) || (big == 100 && small == 4)
    requires n % big == 0
    ensures n % small == 0
  {
    var k := n / big;
    var r := big / small;
    assert n == small * (r * k);
  }

  /** Counting multiples of k: one more is passed exactly at a multiple. */
  lemma DivStep(year: int, k: int)
    requires k == 4 || k == 100 || k == 400
    ensures year / k - (year - 1) / k == if year % k == 0 then 1 else 0
  {
  }

  /** The first of the next month is `lengthOfMonth` days after the first of
      this one, so its column moves on by the month's length modulo 7. */
  lemma NextMonthStarts(ym: YearMonth)
    ensures FirstDayNumber(PlusMonths(ym, 1)) == FirstDayNumber(ym) + LengthOfMonth(ym)
    ensures DayOfWeekOffset(PlusMonths(ym, 1)) == (DayOfWeekOffset(ym) + LengthOfMonth(ym)) % 7
  {
    NextFirstDay(ym);
    WeekdayStep(FirstDayNumber(ym), LengthOfMonth(ym));
  }

  lemma NextFirstDay(ym: YearMonth)
    ensures FirstDayNumber(PlusMonths(ym, 1)) == FirstDayNumber(ym) + LengthOfMonth(ym)
  {
    var next := PlusMonths(ym, 1);
    if ym.month == 12 {
      assert next == YearMonth(ym.year + 1, 1);
      YearLength(ym.year);
    } else {
      assert next == YearMonth(ym.year, ym.month + 1);
      MonthLength(ym.year, ym.month);
    }
  }

  lemma MonthLength(year: int, month: MonthOfYear)
    requires month < 12
    ensures DaysBeforeMonth(year, month + 1) == DaysBeforeMonth(year, month) + LengthOfMonth(YearMonth(year, month))
  {
    match month
    case 1 => case 2 => case 3 => case 4 => case 5 => case 6 =>
    case 7 => case 8 => case 9 => case 10 => case 11 =>
  }

  lemma WeekdayStep(a: int, n: int)
    ensures ((a + n) % 7 + 1) % 7 == ((a % 7 + 1) % 7 + n) % 7
  {
  }

  /** The weekdays of the nine months of the range, as the calendar has them:
      August 2025 starts on a Friday. */
  lemma RangeOffsets()
    ensures DayOfWeekOffset(YearMonth(2025, 8)) == 5
    ensures DayOfWeekOffset(YearMonth(2025, 9)) == 1
    ensures DayOfWeekOffset(YearMonth(2025, 10)) == 3
    ensures DayOfWeekOffset(YearMonth(2025, 11)) == 6
    ensures DayOfWeekOffset(YearMonth(2025, 12)) == 1
    ensures DayOfWeekOffset(YearMonth(2026, 1)) == 4
    ensures DayOfWeekOffset(YearMonth(2026, 2)) == 0
    ensures DayOfWeekOffset(YearMonth(2026, 3)) == 0
    ensures DayOfWeekOffset(YearMonth(2026, 4)) == 3
  {
    assert DaysBeforeYear(2025) == 739251;
    assert DaysBeforeYear(2026) == 739616;
    assert FirstDayNumber(YearMonth(2025, 8)) == 739463;
    assert FirstDayNumber(YearMonth(2025, 9)) == 739494;
    assert FirstDayNumber(YearMonth(2025, 10)) == 739524;
    assert FirstDayNumber(YearMonth(2025, 11)) == 739555;
    assert FirstDayNumber(YearMonth(2025, 12)) == 739585;
    assert FirstDayNumber(YearMonth(2026, 1)) == 739616;
    assert FirstDayNumber(YearMonth(2026, 2)) == 739647;
    assert FirstDayNumber(YearMonth(2026, 3)) == 739675;
    assert FirstDayNumber(YearMonth(2026, 4)) == 739706;
  }

  // ----- the grid -----

  /** The day shown in row `week`, column `day`. */
  function DayNumber(week: int, day: int, offset: int): (n: int)
    ensures n - 1 + offset == week * 7 + day
  {
    week * 7 + day - offset + 1
  }

  /** A cell shows its number only when it is a day of the month. */
  predicate Shown(dayNumber: int, daysInMonth: int) {
    1 <= dayNumber <= daysInMonth
  }

  /** Every day of the month sits in exactly one of the 42 cells: since the
      offset is at most 6 and a month at most 31 days long, the last day
      falls no later than cell 36. */
  lemma EveryDayInOneCell(offset: nat, daysInMonth: nat, d: int)
    requires offset < 7 && daysInMonth <= 31 && 1 <= d <= daysInMonth
    ensures var c := d - 1 + offset;
      0 <= c / 7 < 6 && DayNumber(c / 7, c % 7, offset) == d
    ensures forall w, x :: 0 <= w < 6 && 0 <= x < 7 && DayNumber(w, x, offset) == d ==>
      w == (d - 1 + offset) / 7 && x == (d - 1 + offset) % 7
  {
    var c := d - 1 + offset;
    forall w, x | 0 <= w < 6 && 0 <= x < 7 && DayNumber(w, x, offset) == d
      ensures w == c / 7 && x == c % 7
    {
      assert w * 7 + x == c;
      DivModUnique(c, w, x);
    }
  }

  lemma DivModUnique(c: int, w: int, x: int)
    requires 0 <= x < 7 && c == w * 7 + x
    ensures w == c / 7 && x == c % 7
  {
  }

  /** The background colour of a cell, in priority order. */
  datatype CellColor = WorkingDay | Holiday | ExamOrEvent | Transparent

  function CellBackground(dayNumber: int, daysInMonth: int,
                          working: set<int>, holidays: set<int>, examsEvents: set<int>): (c: CellColor)
    ensures c != Transparent ==> Shown(dayNumber, daysInMonth)
    ensures c == WorkingDay <==> Shown(dayNumber, daysInMonth) && dayNumber in working
    ensures c == Holiday <==> Shown(dayNumber, daysInMonth) && dayNumber !in working && dayNumber in holidays
    ensures c == ExamOrEvent <==>
      Shown(dayNumber, daysInMonth) && dayNumber !in working && dayNumber !in holidays && dayNumber in examsEvents
  {
    if !Shown(dayNumber, daysInMonth) then Transparent
    else if dayNumber in working then WorkingDay
    else if dayNumber in holidays then Holiday
    else if dayNumber in examsEvents then ExamOrEvent
    else Transparent
  }

  /** A shown day in several sets takes the first colour that applies. */
  lemma Priority(d: int, len: int, working: set<int>, holidays: set<int>, examsEvents: set<int>)
    requires Shown(d, len)
    ensures d in working ==> CellBackground(d, len, working, holidays, examsEvents) == WorkingDay
    ensures d !in working && d in holidays ==> CellBackground(d, len, working, holidays, examsEvents) == Holiday
    ensures d !in working && d !in holidays && d in examsEvents ==>
      CellBackground(d, len, working, holidays, examsEvents) == ExamOrEvent
  {
  }

  // ----- the academic year's data -----

  /** The three day sets the calendar holds for one month. */
  datatype MonthDays = MonthDays(working: set<int>, holidays: set<int>, examsEvents: set<int>)

  const Aug2025Days := MonthDays(
    {20, 21, 22, 23, 25, 26, 28, 29, 30},
    {24, 27, 31},
    {})
  const Sep2025Days := MonthDays(
    {1, 2, 3, 8, 9, 10, 11, 12, 13, 15, 16, 17, 18, 19, 22, 24, 25, 26, 27, 29, 30},
    {4, 5, 6, 7, 14, 20, 21, 28},
    {23})
  const Oct2025Days := MonthDays(
    {6, 7, 9, 10, 11, 13, 14, 15, 16, 17, 23, 24, 25, 27, 28, 29, 31},
    {1, 2, 3, 4, 5, 12, 18, 19, 20, 21, 22, 26},
    {8, 30})
  const Nov2025Days := MonthDays(
    {3, 4, 5, 6, 7, 8, 11, 12, 13, 14, 17, 18, 20, 21, 22, 24, 25, 26, 27, 28, 29},
    {1, 2, 9, 15, 16, 23, 30},
    {10, 19})
  const Dec2025Days := MonthDays(
    {1, 2, 3, 4, 5, 9, 10, 11, 12, 13, 15, 16, 17, 18, 19, 22, 23, 24, 26, 27, 29, 30, 31},
    {6, 7, 14, 20, 21, 25, 28},
    {8})
  const Jan2026Days := MonthDays(
    {5, 6, 7, 8, 9, 19, 20, 21, 22, 23, 24, 27, 28, 29, 30, 31},
    {1, 2, 3, 4, 10, 11, 12, 13, 14, 15, 16, 17, 18, 25, 26},
    {})
  const Feb2026Days := MonthDays(
    {2, 3, 4, 5, 6, 7, 9, 10, 11, 12, 13, 14, 16, 17, 18, 19, 20, 23, 24, 25, 27, 28},
    {1, 8, 15, 21, 22},
    {26})
  const Mar2026Days := MonthDays(
    {2, 3, 4, 5, 6, 7, 9, 10, 11, 12, 13, 14, 16, 17, 18, 23, 25, 26, 27, 28, 30},
    {1, 8, 15, 19, 20, 21, 22, 29},
    {24})
  const Apr2026Days := MonthDays(
    {1, 2, 4, 6, 7, 8, 9, 10, 11, 15, 16, 20, 22, 24, 25, 27, 28, 29, 30},
    {3, 5, 12, 13, 14, 19, 26},
    {17, 18, 21, 23})

  const WorkingDaysMap: map<YearMonth, set<int>> := map[
    YearMonth(2025, 8) := Aug2025Days.working,
    YearMonth(2025, 9) := Sep2025Days.working,
    YearMonth(2025, 10) := Oct2025Days.working,
    YearMonth(2025, 11) := Nov2025Days.working,
    YearMonth(2025, 12) := Dec2025Days.working,
    YearMonth(2026, 1) := Jan2026Days.working,
    YearMonth(2026, 2) := Feb2026Days.working,
    YearMonth(2026, 3) := Mar2026Days.working,
    YearMonth(2026, 4) := Apr2026Days.working
  ]

  const HolidaysMap: map<YearMonth, set<int>> := map[
    YearMonth(2025, 8) := Aug2025Days.holidays,
    YearMonth(2025, 9) := Sep2025Days.holidays,
    YearMonth(2025, 10) := Oct2025Days.holidays,
    YearMonth(2025, 11) := Nov2025Days.holidays,
    YearMonth(2025, 12) := Dec2025Days.holidays,
    YearMonth(2026, 1) := Jan2026Days.holidays,
    YearMonth(2026, 2) := Feb2026Days.holidays,
    YearMonth(2026, 3) := Mar2026Days.holidays,
    YearMonth(2026, 4) := Apr2026Days.holidays
  ]

  const ExamsEventsMap: map<YearMonth, set<int>> := map[
    YearMonth(2025, 8) := Aug2025Days.examsEvents,
    YearMonth(2025, 9) := Sep2025Days.examsEvents,
    YearMonth(2025, 10) := Oct2025Days.examsEvents,
    YearMonth(2025, 11) := Nov2025Days.examsEvents,
    YearMonth(2025, 12) := Dec2025Days.examsEvents,
    YearMonth(2026, 1) := Jan2026Days.examsEvents,
    YearMonth(2026, 2) := Feb2026Days.examsEvents,
    YearMonth(2026, 3) := Mar2026Days.examsEvents,
    YearMonth(2026, 4) := Apr2026Days.examsEvents
  ]

  /** `map[currentYearMonth] ?: emptySet()`. */
  function DaysOf(m: map<YearMonth, set<int>>, ym: YearMonth): (days: set<int>)
    ensures ym !in m ==> days == {}
    ensures ym in m ==> days == m[ym]
  {
    if ym in m then m[ym] else {}
  }

  /** Every month the screen can show has an entry in all three maps, so the
      empty-set fallback is never what is drawn. */
  lemma MapsCoverRange(ym: YearMonth)
    requires InRange(ym)
    ensures ym in WorkingDaysMap && ym in HolidaysMap && ym in ExamsEventsMap
  {
    var m := ym.month;
    if ym.year == 2025 {
      assert m in {8, 9, 10, 11, 12};
      if m == 8 { } else if m == 9 { } else if m == 10 { } else if m == 11 { } else { }
    } else {
      assert ym.year == 2026 && m in {1, 2, 3, 4};
      if m == 1 { } else if m == 2 { } else if m == 3 { } else { }
    }
  }

  /** The three day sets of one month, as drawn by the grid: no day is in
      two of them, and every day lies inside the month. */
  ghost predicate Consistent(w: set<int>, h: set<int>, e: set<int>, daysInMonth: int) {
    forall d ::
      && (d in w ==> d !in h && d !in e && Shown(d, daysInMonth))
      && (d in h ==> d !in e && Shown(d, daysInMonth))
      && (d in e ==> Shown(d, daysInMonth))
  }

  /** Within each month the screen can show, the three sets it holds are
      consistent in that sense. */
  ghost predicate ConsistentMonth(ym: YearMonth) {
    Consistent(DaysOf(WorkingDaysMap, ym), DaysOf(HolidaysMap, ym), DaysOf(ExamsEventsMap, ym),
      LengthOfMonth(ym))
  }

  lemma DataConsistent(ym: YearMonth)
    requires InRange(ym)
    ensures ConsistentMonth(ym)
  {
    var m := ym.month;
    if ym.year == 2025 {
      assert m in {8, 9, 10, 11, 12};
      if m == 8 { ConsistentAug2025(); } else if m == 9 { ConsistentSep2025(); }
      else if m == 10 { ConsistentOct2025(); } else if m == 11 { ConsistentNov2025(); }
      else { ConsistentDec2025(); }
    } else {
      assert ym.year == 2026 && m in {1, 2, 3, 4};
      if m == 1 { ConsistentJan2026(); } else if m == 2 { ConsistentFeb2026(); }
      else if m == 3 { ConsistentMar2026(); } else { ConsistentApr2026(); }
    }
  }

  lemma Aug2025DaysConsistent()
    ensures Consistent(Aug2025Days.working, Aug2025Days.holidays, Aug2025Days.examsEvents, 31)
  {
    var days := Aug2025Days;
    forall d ensures d in days.working ==> d !in days.holidays && d !in days.examsEvents && Shown(d, 31) { }
    forall d ensures d in days.holidays ==> d !in days.examsEvents && Shown(d, 31) { }
    forall d ensures d in days.examsEvents ==> Shown(d, 31) { }
  }

  lemma ConsistentAug2025()
    ensures ConsistentMonth(YearMonth(2025, 8))
  {
    var ym := YearMonth(2025, 8);
    assert DaysOf(WorkingDaysMap, ym) == Aug2025Days.working;
    assert DaysOf(HolidaysMap, ym) == Aug2025Days.holidays;
    assert DaysOf(ExamsEventsMap, ym) == Aug2025Days.examsEvents;
    assert LengthOfMonth(ym) == 31;
    Aug2025DaysConsistent();
  }

  lemma Sep2025DaysConsistent()
    ensures Consistent(Sep2025Days.working, Sep2025Days.holidays, Sep2025Days.examsEvents, 30)
  {
    var days := Sep2025Days;
    forall d ensures d in days.working ==> d !in days.holidays && d !in days.examsEvents && Shown(d, 30) { }
    forall d ensures d in days.holidays ==> d !in days.examsEvents && Shown(d, 30) { }
    forall d ensures d in days.examsEvents ==> Shown(d, 30) { }
  }

  lemma ConsistentSep2025()
    ensures ConsistentMonth(YearMonth(2025, 9))
  {
    var ym := YearMonth(2025, 9);
    assert DaysOf(WorkingDaysMap, ym) == Sep2025Days.working;
    assert DaysOf(HolidaysMap, ym) == Sep2025Days.holidays;
    assert DaysOf(ExamsEventsMap, ym) == Sep2025Days.examsEvents;
    assert LengthOfMonth(ym) == 30;
    Sep2025DaysConsistent();
  }

  lemma Oct2025DaysConsistent()
    ensures Consistent(Oct2025Days.working, Oct2025Days.holidays, Oct2025Days.examsEvents, 31)
  {
    var days := Oct2025Days;
    forall d ensures d in days.working ==> d !in days.holidays && d !in days.examsEvents && Shown(d, 31) { }
    forall d ensures d in days.holidays ==> d !in days.examsEvents && Shown(d, 31) { }
    forall d ensures d in days.examsEvents ==> Shown(d, 31) { }
  }

  lemma ConsistentOct2025()
    ensures ConsistentMonth(YearMonth(2025, 10))
  {
    var ym := YearMonth(2025, 10);
    assert DaysOf(WorkingDaysMap, ym) == Oct2025Days.working;
    assert DaysOf(HolidaysMap, ym) == Oct2025Days.holidays;
    assert DaysOf(ExamsEventsMap, ym) == Oct2025Days.examsEvents;
    assert LengthOfMonth(ym) == 31;
    Oct2025DaysConsistent();
  }

  lemma Nov2025DaysConsistent()
    ensures Consistent(Nov2025Days.working, Nov2025Days.holidays, Nov2025Days.examsEvents, 30)
  {
    var days := Nov2025Days;
    forall d ensures d in days.working ==> d !in days.holidays && d !in days.examsEvents && Shown(d, 30) { }
    forall d ensures d in days.holidays ==> d !in days.examsEvents && Shown(d, 30) { }
    forall d ensures d in days.examsEvents ==> Shown(d, 30) { }
  }

  lemma ConsistentNov2025()
    ensures ConsistentMonth(YearMonth(2025, 11))
  {
    var ym := YearMonth(2025, 11);
    assert DaysOf(WorkingDaysMap, ym) == Nov2025Days.working;
    assert DaysOf(HolidaysMap, ym) == Nov2025Days.holidays;
    assert DaysOf(ExamsEventsMap, ym) == Nov2025Days.examsEvents;
    assert LengthOfMonth(ym) == 30;
    Nov2025DaysConsistent();
  }

  lemma Dec2025DaysConsistent()
    ensures Consistent(Dec2025Days.working, Dec2025Days.holidays, Dec2025Days.examsEvents, 31)
  {
    var days := Dec2025Days;
    forall d ensures d in days.working ==> d !in days.holidays && d !in days.examsEvents && Shown(d, 31) { }
    forall d ensures d in days.holidays ==> d !in days.examsEvents && Shown(d, 31) { }
    forall d ensures d in days.examsEvents ==> Shown(d, 31) { }
  }

  lemma ConsistentDec2025()
    ensures ConsistentMonth(YearMonth(2025, 12))
  {
    var ym := YearMonth(2025, 12);
    assert DaysOf(WorkingDaysMap, ym) == Dec2025Days.working;
    assert DaysOf(HolidaysMap, ym) == Dec2025Days.holidays;
    assert DaysOf(ExamsEventsMap, ym) == Dec2025Days.examsEvents;
    assert LengthOfMonth(ym) == 31;
    Dec2025DaysConsistent();
  }

  lemma Jan2026DaysConsistent()
    ensures Consistent(Jan2026Days.working, Jan2026Days.holidays, Jan2026Days.examsEvents, 31)
  {
    var days := Jan2026Days;
    forall d ensures d in days.working ==> d !in days.holidays && d !in days.examsEvents && Shown(d, 31) { }
    forall d ensures d in days.holidays ==> d !in days.examsEvents && Shown(d, 31) { }
    forall d ensures d in days.examsEvents ==> Shown(d, 31) { }
  }

  lemma ConsistentJan2026()
    ensures ConsistentMonth(YearMonth(2026, 1))
  {
    var ym := YearMonth(2026, 1);
    assert DaysOf(WorkingDaysMap, ym) == Jan2026Days.working;
    assert DaysOf(HolidaysMap, ym) == Jan2026Days.holidays;
    assert DaysOf(ExamsEventsMap, ym) == Jan2026Days.examsEvents;
    assert LengthOfMonth(ym) == 31;
    Jan2026DaysConsistent();
  }

  lemma Feb2026DaysConsistent()
    ensures Consistent(Feb2026Days.working, Feb2026Days.holidays, Feb2026Days.examsEvents, 28)
  {
    var days := Feb2026Days;
    forall d ensures d in days.working ==> d !in days.holidays && d !in days.examsEvents && Shown(d, 28) { }
    forall d ensures d in days.holidays ==> d !in days.examsEvents && Shown(d, 28) { }
    forall d ensures d in days.examsEvents ==> Shown(d, 28) { }
  }

  lemma ConsistentFeb2026()
    ensures ConsistentMonth(YearMonth(2026, 2))
  {
    var ym := YearMonth(2026, 2);
    assert DaysOf(WorkingDaysMap, ym) == Feb2026Days.working;
    assert DaysOf(HolidaysMap, ym) == Feb2026Days.holidays;
    assert DaysOf(ExamsEventsMap, ym) == Feb2026Days.examsEvents;
    assert LengthOfMonth(ym) == 28;
    Feb2026DaysConsistent();
  }

  lemma Mar2026DaysConsistent()
    ensures Consistent(Mar2026Days.working, Mar2026Days.holidays, Mar2026Days.examsEvents, 31)
  {
    var days := Mar2026Days;
    forall d ensures d in days.working ==> d !in days.holidays && d !in days.examsEvents && Shown(d, 31) { }
    forall d ensures d in days.holidays ==> d !in days.examsEvents && Shown(d, 31) { }
    forall d ensures d in days.examsEvents ==> Shown(d, 31) { }
  }

  lemma ConsistentMar2026()
    ensures ConsistentMonth(YearMonth(2026, 3))
  {
    var ym := YearMonth(2026, 3);
    assert DaysOf(WorkingDaysMap, ym) == Mar2026Days.working;
    assert DaysOf(HolidaysMap, ym) == Mar2026Days.holidays;
    assert DaysOf(ExamsEventsMap, ym) == Mar2026Days.examsEvents;
    assert LengthOfMonth(ym) == 31;
    Mar2026DaysConsistent();
  }

  lemma Apr2026DaysConsistent()
    ensures Consistent(Apr2026Days.working, Apr2026Days.holidays, Apr2026Days.examsEvents, 30)
  {
    var days := Apr2026Days;
    forall d ensures d in days.working ==> d !in days.holidays && d !in days.examsEvents && Shown(d, 30) { }
    forall d ensures d in days.holidays ==> d !in days.examsEvents && Shown(d, 30) { }
    forall d ensures d in days.examsEvents ==> Shown(d, 30) { }
  }

  lemma ConsistentApr2026()
    ensures ConsistentMonth(YearMonth(2026, 4))
  {
    var ym := YearMonth(2026, 4);
    assert DaysOf(WorkingDaysMap, ym) == Apr2026Days.working;
    assert DaysOf(HolidaysMap, ym) == Apr2026Days.holidays;
    assert DaysOf(ExamsEventsMap, ym) == Apr2026Days.examsEvents;
    assert LengthOfMonth(ym) == 30;
    Apr2026DaysConsistent();
  }

  /** So, for every month the screen can show, the priority order never has
      to choose: a day is drawn in a set's colour exactly when it is in that
      set. */
  lemma ColorIsMembership(ym: YearMonth, d: int)
    requires InRange(ym)
    ensures var len, w, h, e := LengthOfMonth(ym), DaysOf(WorkingDaysMap, ym), DaysOf(HolidaysMap, ym), DaysOf(ExamsEventsMap, ym);
      && (CellBackground(d, len, w, h, e) == WorkingDay <==> d in w)
      && (CellBackground(d, len, w, h, e) == Holiday <==> d in h)
      && (CellBackground(d, len, w, h, e) == ExamOrEvent <==> d in e)
  {
    DataConsistent(ym);
  }

  // ----- the totals under the grid -----

  /** The three counts printed under the grid: `workingDays.size`,
      `holidays.size` and `examsEvents.size` of the month on screen. */
  datatype Totals = Totals(working: nat, holidays: nat, examsEvents: nat)

  function MonthTotals(ym: YearMonth): Totals {
    Totals(|DaysOf(WorkingDaysMap, ym)|, |DaysOf(HolidaysMap, ym)|, |DaysOf(ExamsEventsMap, ym)|)
  }

  /** The days 1 .. n of a month. */
  function DaysUpTo(n: nat): set<int> {
    if n == 0 then {} else DaysUpTo(n - 1) + {n}
  }

  lemma {:induction false} DaysUpToMembers(n: nat, d: int)
    ensures d in DaysUpTo(n) <==> 1 <= d <= n
  {
    if n > 0 {
      DaysUpToMembers(n - 1, d);
    }
  }

  lemma {:induction false} DaysUpToCard(n: nat)
    ensures |DaysUpTo(n)| == n
  {
    if n > 0 {
      DaysUpToCard(n - 1);
      DaysUpToMembers(n - 1, n);
    }
  }

  /** Three disjoint sets of days of one month together hold at most as many
      days as the month has. */
  lemma ConsistentFits(w: set<int>, h: set<int>, e: set<int>, len: nat)
    requires Consistent(w, h, e, len)
    ensures |w| + |h| + |e| <= len
  {
    forall d | d in w ensures d !in h && d !in e { }
    forall d | d in h ensures d !in e { }
    assert w * h == {};
    assert (w + h) * e == {};
    assert |w + h| == |w| + |h|;
    assert |w + h + e| == |w + h| + |e|;
    var all := w + h + e;
    forall d | d in all ensures d in DaysUpTo(len) {
      DaysUpToMembers(len, d);
    }
    var rest := DaysUpTo(len) - all;
    assert DaysUpTo(len) == all + rest;
    DaysUpToCard(len);
  }

  /** For every month the screen can show, the three totals together never
      exceed the month's length: no day is counted twice and no day outside
      the month is counted. */
  lemma TotalsFitMonth(ym: YearMonth)
    requires InRange(ym)
    ensures var t := MonthTotals(ym); t.working + t.holidays + t.examsEvents <= LengthOfMonth(ym)
  {
    DataConsistent(ym);
    ConsistentFits(DaysOf(WorkingDaysMap, ym), DaysOf(HolidaysMap, ym), DaysOf(ExamsEventsMap, ym), LengthOfMonth(ym));
  }

  /** With consistent sets, the cells of each colour are exactly that set's
      days. */
  lemma ConsistentCells(w: set<int>, h: set<int>, e: set<int>, len: nat)
    requires Consistent(w, h, e, len)
    ensures (set d | 1 <= d <= len && CellBackground(d, len, w, h, e) == WorkingDay) == w
    ensures (set d | 1 <= d <= len && CellBackground(d, len, w, h, e) == Holiday) == h
    ensures (set d | 1 <= d <= len && CellBackground(d, len, w, h, e) == ExamOrEvent) == e
  {
  }

  /** Each total counts exactly the cells drawn in its colour. */
  lemma TotalsCountCells(ym: YearMonth)
    requires InRange(ym)
    ensures var len, w, h, e := LengthOfMonth(ym), DaysOf(WorkingDaysMap, ym), DaysOf(HolidaysMap, ym), DaysOf(ExamsEventsMap, ym);
      && MonthTotals(ym).working == |set d | 1 <= d <= len && CellBackground(d, len, w, h, e) == WorkingDay|
      && MonthTotals(ym).holidays == |set d | 1 <= d <= len && CellBackground(d, len, w, h, e) == Holiday|
      && MonthTotals(ym).examsEvents == |set d | 1 <= d <= len && CellBackground(d, len, w, h, e) == ExamOrEvent|
  {
    DataConsistent(ym);
    ConsistentCells(DaysOf(WorkingDaysMap, ym), DaysOf(HolidaysMap, ym), DaysOf(ExamsEventsMap, ym), LengthOfMonth(ym));
  }

  /** The totals printed for the first month. */
  lemma TotalsAugust2025()
    ensures MonthTotals(YearMonth(2025, 8)) == Totals(9, 3, 0)
  {
  }
}
