/** UTC calendar arithmetic of section 21.4.1 of ECMA-262, and the billing cycle built on it. */
module Calendar {
  const DAY_MS := 86_400_000

  datatype Cycle = Daily | Monthly | Yearly

  /** A UTC date; `month` counts from 0 as in the Date API, `day` from 1. */
  datatype Civil = Civil(year: int, month: int, day: int)

  // ------------------------------------------------------------ years

  predicate IsLeap(y: int) {
    y % 4 == 0 && (y % 100 != 0 || y % 400 == 0)
  }

  function DaysInYear(y: int): int {
    if IsLeap(y) then 366 else 365
  }

  /** Number of the first day of year `y`, counted from 1 January 1970. */
  function DayFromYear(y: int): int
    decreases if y < 1970 then 1970 - y else y - 1970
  {
    if y == 1970 then 0
    else if y > 1970 then DayFromYear(y - 1) + DaysInYear(y - 1)
    else DayFromYear(y + 1) - DaysInYear(y)
  }

  lemma YearLength(y: int)
    ensures DayFromYear(y + 1) == DayFromYear(y) + DaysInYear(y)
  {
  }

  /** DayFromYear is the closed form that ECMA-262 gives for it. */
  lemma {:induction false} DayFromYearClosedForm(y: int)
    ensures DayFromYear(y) == 365 * (y - 1970) + (y - 1969) / 4 - (y - 1901) / 100 + (y - 1601) / 400
    decreases if y < 1970 then 1970 - y else y - 1970
  {
    if y > 1970 {
      DayFromYearClosedForm(y - 1);
      LeapDayStep(y - 1);
    } else if y < 1970 {
      DayFromYearClosedForm(y + 1);
      LeapDayStep(y);
    }
  }

  lemma LeapDayStep(y: int)
    ensures (y - 1968) / 4 - (y - 1900) / 100 + (y - 1600) / 400
         == (y - 1969) / 4 - (y - 1901) / 100 + (y - 1601) / 400 + DaysInYear(y) - 365
  {
    FourthYear(y);
    HundredthYear(y);
    FourHundredthYear(y);
  }

  lemma FourthYear(y: int)
    ensures (y - 1968) / 4 - (y - 1969) / 4 == if y % 4 == 0 then 1 else 0
  {
  }

  lemma HundredthYear(y: int)
    ensures (y - 1900) / 100 - (y - 1901) / 100 == if y % 100 == 0 then 1 else 0
    ensures y % 100 == 0 ==> y % 4 == 0
  {
  }

  lemma FourHundredthYear(y: int)
    ensures (y - 1600) / 400 - (y - 1601) / 400 == if y % 400 == 0 then 1 else 0
    ensures y % 400 == 0 ==> y % 100 == 0
  {
  }

  lemma {:induction false} YearsApart(y: int, z: int)
    requires y <= z
    ensures DayFromYear(y) + 365 * (z - y) <= DayFromYear(z)
    decreases z - y
  {
    if y < z {
      YearLength(y);
      YearsApart(y + 1, z);
    }
  }

  /** The year containing `day`, searched upwards from a year that starts no later. */
  function YearFrom(day: int, y: int): (r: int)
    requires DayFromYear(y) <= day
    ensures DayFromYear(r) <= day < DayFromYear(r + 1)
    decreases day - DayFromYear(y)
  {
    YearLength(y);
    if day < DayFromYear(y + 1) then y else YearFrom(day, y + 1)
  }

  function YearOfDay(day: int): (r: int)
    ensures DayFromYear(r) <= day < DayFromYear(r + 1)
  {
    var guess := if day >= 0 then 1970 else 1970 + day / 365;
    if guess < 1970 then YearsApart(guess, 1970); YearFrom(day, guess) else YearFrom(day, guess)
  }

  lemma YearIsUnique(day: int, y: int)
    requires DayFromYear(y) <= day < DayFromYear(y + 1)
    ensures YearOfDay(day) == y
  {
    var r := YearOfDay(day);
    if r < y {
      YearsApart(r + 1, y);
    } else if y < r {
      YearsApart(y + 1, r);
    }
  }

  // ----------------------------------------------------------- months

  /** Days of the year before month `m` (12 gives the whole year). */
  function MonthStart(m: int, leap: bool): int
    requires 0 <= m <= 12
  {
    var extra := if leap then 1 else 0;
    if m == 0 then 0
    else if m == 1 then 31
    else if m == 2 then 59 + extra
    else if m == 3 then 90 + extra
    else if m == 4 then 120 + extra
    else if m == 5 then 151 + extra
    else if m == 6 then 181 + extra
    else if m == 7 then 212 + extra
    else if m == 8 then 243 + extra
    else if m == 9 then 273 + extra
    else if m == 10 then 304 + extra
    else if m == 11 then 334 + extra
    else 365 + extra
  }

  function MonthLength(m: int, leap: bool): int
    requires 0 <= m < 12
  {
    MonthStart(m + 1, leap) - MonthStart(m, leap)
  }

  function DaysInMonth(y: int, m: int): int
    requires 0 <= m < 12
  {
    MonthLength(m, IsLeap(y))
  }

  function MonthOf(dayInYear: int, leap: bool): (m: int)
    requires 0 <= dayInYear < MonthStart(12, leap)
    ensures 0 <= m < 12 && MonthStart(m, leap) <= dayInYear < MonthStart(m + 1, leap)
  {
    if dayInYear < MonthStart(1, leap) then 0
    else if dayInYear < MonthStart(2, leap) then 1
    else if dayInYear < MonthStart(3, leap) then 2
    else if dayInYear < MonthStart(4, leap) then 3
    else if dayInYear < MonthStart(5, leap) then 4
    else if dayInYear < MonthStart(6, leap) then 5
    else if dayInYear < MonthStart(7, leap) then 6
    else if dayInYear < MonthStart(8, leap) then 7
    else if dayInYear < MonthStart(9, leap) then 8
    else if dayInYear < MonthStart(10, leap) then 9
    else if dayInYear < MonthStart(11, leap) then 10
    else 11
  }

  // ------------------------------------------------------------ dates

  predicate ValidCivil(c: Civil) {
    0 <= c.month < 12 && 1 <= c.day <= DaysInMonth(c.year, c.month)
  }

  /** Number of a day given by year, month of that year and day counted from the month's start. */
  function DayInYear(year: int, month: int, day: int): int
    requires 0 <= month < 12
  {
    DayFromYear(year) + MonthStart(month, IsLeap(year)) + day - 1
  }

  /** MakeDay: months outside 0..11 carry into the year, days outside the month into the neighbours. */
  function DayNumber(year: int, month: int, day: int): int {
    DayInYear(year + month / 12, month % 12, day)
  }

  function CivilOf(day: int): (c: Civil)
    ensures ValidCivil(c)
    ensures DayInYear(c.year, c.month, c.day) == day
  {
    var y := YearOfDay(day);
    var inYear := day - DayFromYear(y);
    YearLength(y);
    var m := MonthOf(inYear, IsLeap(y));
    Civil(y, m, inYear - MonthStart(m, IsLeap(y)) + 1)
  }

  lemma MonthIsUnique(m: int, dayInYear: int, leap: bool)
    requires 0 <= m < 12 && MonthStart(m, leap) <= dayInYear < MonthStart(m + 1, leap)
    ensures 0 <= dayInYear < MonthStart(12, leap) && MonthOf(dayInYear, leap) == m
  {
  }

  /** The two conversions are inverse to each other on valid dates. */
  lemma CivilRoundTrip(c: Civil)
    requires ValidCivil(c)
    ensures CivilOf(DayInYear(c.year, c.month, c.day)) == c
  {
    var inYear := MonthStart(c.month, IsLeap(c.year)) + c.day - 1;
    MonthIsUnique(c.month, inYear, IsLeap(c.year));
    YearLength(c.year);
    YearIsUnique(DayInYear(c.year, c.month, c.day), c.year);
  }

  // ------------------------------------------------------ Date setters

  function DayOf(t: int): int { t / DAY_MS }

  function TimeInDay(t: int): int { t % DAY_MS }

  function MakeDate(day: int, time: int): int { day * DAY_MS + time }

  lemma DateParts(day: int, time: int)
    requires 0 <= time < DAY_MS
    ensures DayOf(MakeDate(day, time)) == day
    ensures TimeInDay(MakeDate(day, time)) == time
  {
  }

  function SetUTCDate(t: int, day: int): int {
    var c := CivilOf(DayOf(t));
    MakeDate(DayNumber(c.year, c.month, day), TimeInDay(t))
  }

  function SetUTCMonth(t: int, month: int): int {
    var c := CivilOf(DayOf(t));
    MakeDate(DayNumber(c.year, month, c.day), TimeInDay(t))
  }

  /** Date.UTC reads the years 0..99 as 1900..1999. */
  function FullYear(y: int): int {
    if 0 <= y <= 99 then 1900 + y else y
  }

  function DateUTC(year: int, month: int, day: int): int {
    MakeDate(DayNumber(FullYear(year), month, day), 0)
  }

  function Min(a: int, b: int): int { if a < b then a else b }

  /** The last day of a month as the billing code computes it: day 0 of the month after. */
  function LastDay(year: int, month: int): int {
    CivilOf(DayOf(DateUTC(year, month + 1, 0))).day
  }

  lemma DayZero(year: int, month: int)
    requires 0 <= month < 12
    ensures DayNumber(year, month + 1, 0) == DayInYear(year, month, DaysInMonth(year, month))
  {
    if month == 11 {
      YearLength(year);
    }
  }

  lemma MonthLengths(year: int, month: int)
    requires 0 <= month < 12
    ensures DaysInMonth(year, month) ==
            if month == 1 then (if IsLeap(year) then 29 else 28)
            else if month in {3, 5, 8, 10} then 30 else 31
  {
  }

  /** Day 0 of the next month is the real last day, except in February of the year 0. */
  lemma LastDayIsMonthLength(year: int, month: int)
    requires 0 <= month < 12
    ensures LastDay(year, month) == DaysInMonth(FullYear(year), month)
    ensures LastDay(year, month) == DaysInMonth(year, month) <==> !(year == 0 && month == 1)
  {
    var y := FullYear(year);
    MonthLengths(y, month);
    MonthLengths(year, month);
    DayZero(y, month);
    DateParts(DayNumber(y, month + 1, 0), 0);
    CivilRoundTrip(Civil(y, month, DaysInMonth(y, month)));
    FullYearLeap(year);
  }

  lemma FullYearLeap(year: int)
    ensures IsLeap(FullYear(year)) == IsLeap(year) <==> year != 0
  {
    if 0 <= year <= 99 {
      assert (1900 + year) % 4 == year % 4;
      assert (1900 + year) % 400 != 0;
    }
  }

  // ------------------------------------------------------------ cycles

  function AddDays(t: int, days: int): int { t + days * DAY_MS }

  function CycleMonths(cycle: Cycle): int {
    if cycle == Yearly then 12 else 1
  }

  /** `months` later on the same day of the month, or on the last day of a month too short for it. */
  function MonthsLater(c: Civil, months: int): (r: Civil)
    requires ValidCivil(c)
    ensures 0 <= r.month < 12 && 1 <= r.day <= c.day
  {
    var y := c.year + (c.month + months) / 12;
    var m := (c.month + months) % 12;
    MonthLengths(FullYear(y), m);
    Civil(y, m, Min(c.day, DaysInMonth(FullYear(y), m)))
  }

  /** The day one monthly or yearly cycle after `day`. */
  function CycleDay(day: int, cycle: Cycle): int {
    var r := MonthsLater(CivilOf(day), CycleMonths(cycle));
    DayInYear(r.year, r.month, r.day)
  }

  /** The instant one billing cycle after `t`. */
  function AddCycle(t: int, cycle: Cycle): int {
    if cycle == Daily then t + DAY_MS else MakeDate(CycleDay(DayOf(t), cycle), TimeInDay(t))
  }

  /** addCycle as the billing code runs it: move to day 1, shift the month, then set the clamped day. */
  method AddCycleDate(date: int, cycle: Cycle) returns (d: int)
    ensures d == AddCycle(date, cycle)
  {
    hide *;
    if cycle == Daily {
      DailyCycle(date);
      return AddDays(date, 1);
    }
    var months := if cycle == Yearly then 12 else 1;
    d := date;
    var day := CivilOf(DayOf(d)).day;
    d := SetUTCDate(d, 1);
    SetDateWithin(date, 1);
    d := SetUTCMonth(d, CivilOf(DayOf(d)).month + months);
    SetMonthWithin(date, months);
    var lastDay := LastDay(CivilOf(DayOf(d)).year, CivilOf(DayOf(d)).month);
    ClampedDate(date, d, cycle, months);
    d := SetUTCDate(d, Min(day, lastDay));
  }

  lemma DailyCycle(date: int)
    ensures AddDays(date, 1) == AddCycle(date, Daily)
  {
  }

  lemma DayNumberWithin(year: int, month: int, day: int)
    requires 0 <= month < 12
    ensures DayNumber(year, month, day) == DayInYear(year, month, day)
  {
    hide IsLeap, DayFromYear, MonthStart;
    assert month / 12 == 0 && month % 12 == month;
  }

  lemma ClampedDate(date: int, moved: int, cycle: Cycle, months: int)
    requires cycle != Daily && months == if cycle == Yearly then 12 else 1
    requires var c := CivilOf(DayOf(date));
             CivilOf(DayOf(moved)) == Civil(c.year + (c.month + months) / 12, (c.month + months) % 12, 1)
    requires TimeInDay(moved) == TimeInDay(date)
    ensures var to := CivilOf(DayOf(moved));
            SetUTCDate(moved, Min(CivilOf(DayOf(date)).day, LastDay(to.year, to.month))) == AddCycle(date, cycle)
  {
    hide IsLeap, DayFromYear, MonthStart, DaysInMonth, LastDay, DayOf, TimeInDay, DayNumber, DayInYear, MakeDate, ValidCivil;
    var to := CivilOf(DayOf(moved));
    LastDayIsMonthLength(to.year, to.month);
    DayNumberWithin(to.year, to.month, Min(CivilOf(DayOf(date)).day, LastDay(to.year, to.month)));
  }

  lemma SetDateWithin(t: int, day: int)
    requires 1 <= day <= 28
    ensures var c, r := CivilOf(DayOf(t)), SetUTCDate(t, day);
            CivilOf(DayOf(r)) == Civil(c.year, c.month, day) && TimeInDay(r) == TimeInDay(t)
  {
    hide IsLeap, DayFromYear, MonthStart;
    var c := CivilOf(DayOf(t));
    MonthLengths(c.year, c.month);
    CivilRoundTrip(Civil(c.year, c.month, day));
    DateParts(DayInYear(c.year, c.month, day), TimeInDay(t));
  }

  lemma SetMonthWithin(t: int, months: int)
    ensures var c, r := CivilOf(DayOf(t)), SetUTCMonth(SetUTCDate(t, 1), CivilOf(DayOf(SetUTCDate(t, 1))).month + months);
            CivilOf(DayOf(r)) == Civil(c.year + (c.month + months) / 12, (c.month + months) % 12, 1) &&
            TimeInDay(r) == TimeInDay(t)
  {
    hide IsLeap, DayFromYear, MonthStart;
    SetDateWithin(t, 1);
    var c := CivilOf(DayOf(t));
    var y, m := c.year + (c.month + months) / 12, (c.month + months) % 12;
    MonthLengths(y, m);
    CivilRoundTrip(Civil(y, m, 1));
    DateParts(DayInYear(y, m, 1), TimeInDay(t));
  }

  /** A monthly cycle is 28 to 31 days, a yearly one 365 or 366. */
  lemma CycleDayBounds(day: int)
    ensures 28 <= CycleDay(day, Monthly) - day <= 31
    ensures 365 <= CycleDay(day, Yearly) - day <= 366
  {
    var c := CivilOf(day);
    MonthlyBounds(c);
    YearlyBounds(c);
  }

  lemma NextMonthStart(year: int, month: int)
    requires 0 <= month < 12
    ensures var y, m := year + (month + 1) / 12, (month + 1) % 12;
            DayInYear(y, m, 1) == DayInYear(year, month, 1) + DaysInMonth(year, month)
  {
    hide IsLeap, DayFromYear;
    YearLength(year);
  }

  lemma MonthlyBounds(c: Civil)
    requires ValidCivil(c)
    ensures var r := MonthsLater(c, 1);
            28 <= DayInYear(r.year, r.month, r.day) - DayInYear(c.year, c.month, c.day) <= 31
  {
    hide IsLeap, DayFromYear, MonthStart, DaysInMonth;
    NextMonthStart(c.year, c.month);
    MonthLengths(c.year, c.month);
    MonthLengths(FullYear(c.year + (c.month + 1) / 12), (c.month + 1) % 12);
  }

  lemma YearlyBounds(c: Civil)
    requires ValidCivil(c)
    ensures var r := MonthsLater(c, 12);
            365 <= DayInYear(r.year, r.month, r.day) - DayInYear(c.year, c.month, c.day) <= 366
  {
    hide DayFromYear, MonthStart, MonthLength;
    YearLength(c.year);
    assert (c.month + 12) / 12 == 1 && (c.month + 12) % 12 == c.month;
    YearlyShift(c.month, c.day, IsLeap(c.year), IsLeap(c.year + 1), IsLeap(FullYear(c.year + 1)));
  }

  lemma YearlyShift(m: int, day: int, leap: bool, leapNext: bool, leapClamp: bool)
    requires 0 <= m < 12 && 1 <= day <= MonthLength(m, leap) && !(leap && leapNext)
    ensures var days := (if leap then 366 else 365)
                        + MonthStart(m, leapNext) + Min(day, MonthLength(m, leapClamp)) - MonthStart(m, leap) - day;
            365 <= days <= 366
  {
  }

  /** One cycle later, counted in whole days; the time of day never changes. */
  lemma AddCycleBounds(t: int, cycle: Cycle)
    ensures TimeInDay(AddCycle(t, cycle)) == TimeInDay(t)
    ensures var days := DayOf(AddCycle(t, cycle)) - DayOf(t);
            match cycle
            case Daily => days == 1
            case Monthly => 28 <= days <= 31
            case Yearly => 365 <= days <= 366
    ensures AddCycle(t, cycle) - t == (DayOf(AddCycle(t, cycle)) - DayOf(t)) * DAY_MS
  {
    hide CycleDay;
    CycleDayBounds(DayOf(t));
    if cycle != Daily {
      DateParts(CycleDay(DayOf(t), cycle), TimeInDay(t));
    }
  }

  lemma AddCycleIsLater(t: int, cycle: Cycle)
    ensures AddCycle(t, cycle) >= t + DAY_MS
  {
    hide AddCycle;
    AddCycleBounds(t, cycle);
  }

  /** A monthly or yearly cycle lands that many months on, on the same day or on the month's last. */
  lemma CycleLanding(t: int, cycle: Cycle)
    requires cycle != Daily
    ensures var c, r := CivilOf(DayOf(t)), CivilOf(DayOf(AddCycle(t, cycle)));
            && 12 * r.year + r.month == 12 * c.year + c.month + CycleMonths(cycle)
            && r.day == Min(c.day, DaysInMonth(FullYear(r.year), r.month))
            && (!(r.year == 0 && r.month == 1) ==> r.day == Min(c.day, DaysInMonth(r.year, r.month)))
  {
    hide IsLeap, DayFromYear, MonthStart, DaysInMonth, DayInYear, DayOf;
    var r := MonthsLater(CivilOf(DayOf(t)), CycleMonths(cycle));
    LandingIsValid(r);
    CivilRoundTrip(r);
    DateParts(DayInYear(r.year, r.month, r.day), TimeInDay(t));
    LastDayIsMonthLength(r.year, r.month);
  }

  lemma LandingIsValid(r: Civil)
    requires 0 <= r.month < 12 && 1 <= r.day <= DaysInMonth(FullYear(r.year), r.month)
    ensures ValidCivil(r)
  {
    MonthLengths(r.year, r.month);
    MonthLengths(FullYear(r.year), r.month);
    FullYearLeap(r.year);
  }

  // ------------------------------------------------ order of renewals

  predicate SameMonth(a: Civil, b: Civil) { a.year == b.year && a.month == b.month }

  function Tomorrow(c: Civil): Civil
    requires ValidCivil(c)
  {
    if c.day < DaysInMonth(c.year, c.month) then c.(day := c.day + 1)
    else Civil(c.year + (c.month + 1) / 12, (c.month + 1) % 12, 1)
  }

  lemma NextDay(day: int)
    ensures CivilOf(day + 1) == Tomorrow(CivilOf(day))
  {
    hide IsLeap, DayFromYear, MonthStart, DaysInMonth;
    var c := CivilOf(day);
    var n := Tomorrow(c);
    TomorrowIsNext(c);
    CivilRoundTrip(n);
  }

  lemma TomorrowIsNext(c: Civil)
    requires ValidCivil(c)
    ensures var n := Tomorrow(c);
            ValidCivil(n) && DayInYear(n.year, n.month, n.day) == DayInYear(c.year, c.month, c.day) + 1
  {
    hide IsLeap, DayFromYear;
    var n := Tomorrow(c);
    YearLength(c.year);
    MonthLengths(n.year, n.month);
  }

  lemma CycleDayStep(day: int, cycle: Cycle)
    ensures CycleDay(day, cycle) <= CycleDay(day + 1, cycle)
    ensures SameMonth(CivilOf(day), CivilOf(day + 1)) || CycleDay(day, cycle) < CycleDay(day + 1, cycle)
  {
    NextDay(day);
    LaterStep(CivilOf(day), CycleMonths(cycle));
  }

  lemma LaterStep(c: Civil, months: int)
    requires ValidCivil(c) && ValidCivil(Tomorrow(c)) && (months == 1 || months == 12)
    ensures var r, s := MonthsLater(c, months), MonthsLater(Tomorrow(c), months);
            && DayInYear(r.year, r.month, r.day) <= DayInYear(s.year, s.month, s.day)
            && (SameMonth(c, Tomorrow(c)) || DayInYear(r.year, r.month, r.day) < DayInYear(s.year, s.month, s.day))
  {
    hide IsLeap, DayFromYear, MonthStart;
    var r, s := MonthsLater(c, months), MonthsLater(Tomorrow(c), months);
    LandingIsValid(r);
    LandingIsValid(s);
    if c.day == DaysInMonth(c.year, c.month) {
      var last := r.(day := DaysInMonth(r.year, r.month));
      MonthLengths(r.year, r.month);
      MonthLengths(FullYear(s.year), s.month);
      TomorrowIsNext(last);
      assert s == Tomorrow(last);
    }
  }

  /** The renewal day never moves back when the billing day moves forward. */
  lemma {:induction false} CycleDayMonotone(a: int, b: int, cycle: Cycle)
    requires a <= b
    ensures CycleDay(a, cycle) <= CycleDay(b, cycle)
    ensures SameMonth(CivilOf(a), CivilOf(b)) || CycleDay(a, cycle) < CycleDay(b, cycle)
    decreases b - a
  {
    if a < b {
      CycleDayMonotone(a, b - 1, cycle);
      CycleDayStep(b - 1, cycle);
    }
  }

  /** Two billing instants of one month, both past the end of the month they renew in, at falling times of day. */
  predicate ClampInverts(a: int, b: int, cycle: Cycle) {
    var c, d := CivilOf(DayOf(a)), CivilOf(DayOf(b));
    && cycle != Daily
    && SameMonth(c, d)
    && MonthsLater(c, CycleMonths(cycle)) == MonthsLater(d, CycleMonths(cycle))
    && TimeInDay(b) < TimeInDay(a)
  }

  /** AddCycle keeps the order of two instants unless the clamp puts them on one day with their times swapped. */
  lemma AddCycleOrder(a: int, b: int, cycle: Cycle)
    requires a <= b
    ensures AddCycle(a, cycle) <= AddCycle(b, cycle) <==> !ClampInverts(a, b, cycle)
  {
    hide MonthsLater, CivilOf, DayInYear;
    if cycle != Daily {
      assert DayOf(a) <= DayOf(b);
      CycleDayMonotone(DayOf(a), DayOf(b), cycle);
      if SameMonth(CivilOf(DayOf(a)), CivilOf(DayOf(b))) {
        SameRenewalDay(DayOf(a), DayOf(b), cycle);
      }
    }
  }

  lemma SameRenewalDay(a: int, b: int, cycle: Cycle)
    requires SameMonth(CivilOf(a), CivilOf(b))
    ensures CycleDay(a, cycle) == CycleDay(b, cycle)
       <==> MonthsLater(CivilOf(a), CycleMonths(cycle)) == MonthsLater(CivilOf(b), CycleMonths(cycle))
  {
    hide IsLeap, DayFromYear, MonthStart, DaysInMonth;
  }

  /** 30 January 2026 20:00 and 31 January 2026 10:00 renew on 28 February in the opposite order. */
  lemma AddCycleCanInvert()
    ensures var day := DayInYear(2026, 0, 30);
            AddCycle(MakeDate(day + 1, 36_000_000), Monthly) < AddCycle(MakeDate(day, 72_000_000), Monthly)
  {
    var x := Civil(2026, 0, 30);
    January2026();
    hide IsLeap, DayFromYear, MonthStart, DaysInMonth, AddCycle, DayInYear, DayOf, TimeInDay;
    CivilRoundTrip(x);
    var day := DayInYear(2026, 0, 30);
    NextDay(day);
    DateParts(day, 72_000_000);
    DateParts(day + 1, 36_000_000);
    AddCycleOrder(MakeDate(day, 72_000_000), MakeDate(day + 1, 36_000_000), Monthly);
  }

  lemma January2026()
    ensures DaysInMonth(2026, 0) == 31 && DaysInMonth(2026, 1) == 28
  {
    MonthLengths(2026, 0);
    MonthLengths(2026, 1);
  }
}
