/** Jakarta calendar days and months over instants in milliseconds. Dates follow ECMA-262, section
    21.4.1; date keys are taken as their parts. */
module Calendar {
  import opened LocalTables

  const MS_PER_DAY := 86_400_000
  const OFFSET_MS := 25_200_000
  const FIRST_YEAR := 1900
  const LAST_YEAR := 9999

  datatype Date = Date(year: int, month: int, day: int)
  datatype Month = Month(year: int, month: int)

  // ----- Date.UTC and the UTC getters -----

  predicate IsLeap(y: int) { y % 4 == 0 && (y % 100 != 0 || y % 400 == 0) }

  function YearDays(y: int): int { if IsLeap(y) then 366 else 365 }

  /** Day number of January 1st, counted from January 1st 1970, year by year. */
  function DayFromYear(y: int): int
    decreases if y >= 1970 then y - 1970 else 1970 - y
  {
    if y == 1970 then 0 else if y > 1970 then DayFromYear(y - 1) + YearDays(y - 1) else DayFromYear(y + 1) - YearDays(y)
  }

  function DaysInMonth(y: int, m: int): (n: int)
    requires 1 <= m <= 12
    ensures 28 <= n <= 31
  {
    if m == 2 then (if IsLeap(y) then 29 else 28) else if m == 4 || m == 6 || m == 9 || m == 11 then 30 else 31
  }

  /** Days of the year before a month. */
  function MonthStart(y: int, m: int): int
    requires 1 <= m <= 13
    decreases m
  {
    if m == 1 then 0 else MonthStart(y, m - 1) + DaysInMonth(y, m - 1)
  }

  /** Day number that Date.UTC takes; the month counts from 0 and may over- or underflow. */
  function MakeDay(year: int, month: int, day: int): int {
    var y, m := year + month / 12, month % 12;
    DayFromYear(y) + MonthStart(y, m + 1) + day - 1
  }

  lemma YearLength(y: int)
    ensures DayFromYear(y + 1) == DayFromYear(y) + YearDays(y) && 365 <= YearDays(y) <= 366
    ensures MonthStart(y, 13) == YearDays(y)
  {
    assert MonthStart(y, 4) == DaysInMonth(y, 1) + DaysInMonth(y, 2) + DaysInMonth(y, 3);
    assert MonthStart(y, 7) == MonthStart(y, 4) + DaysInMonth(y, 4) + DaysInMonth(y, 5) + DaysInMonth(y, 6);
    assert MonthStart(y, 10) == MonthStart(y, 7) + DaysInMonth(y, 7) + DaysInMonth(y, 8) + DaysInMonth(y, 9);
  }

  /** The closed form of ECMA-262. */
  function YearFormula(y: int): int {
    365 * (y - 1970) + (y - 1969) / 4 - (y - 1901) / 100 + (y - 1601) / 400
  }

  lemma FormulaStep(y: int)
    ensures YearFormula(y + 1) == YearFormula(y) + YearDays(y)
  {
    Fourths(y);
    Hundredths(y);
    FourHundredths(y);
    LeapRules(y);
  }

  lemma {:induction false} DayFromYearIsFormula(y: int)
    ensures DayFromYear(y) == YearFormula(y)
    decreases if y >= 1970 then y - 1970 else 1970 - y
  {
    if y > 1970 {
      DayFromYearIsFormula(y - 1);
      FormulaStep(y - 1);
    } else if y < 1970 {
      DayFromYearIsFormula(y + 1);
      FormulaStep(y);
    }
  }

  lemma Fourths(y: int)
    ensures (y - 1968) / 4 == (y - 1969) / 4 + if y % 4 == 0 then 1 else 0
  {
  }

  lemma Hundredths(y: int)
    ensures (y - 1900) / 100 == (y - 1901) / 100 + if y % 100 == 0 then 1 else 0
  {
  }

  lemma FourHundredths(y: int)
    ensures (y - 1600) / 400 == (y - 1601) / 400 + if y % 400 == 0 then 1 else 0
  {
  }

  lemma LeapRules(y: int)
    ensures y % 100 == 0 ==> y % 4 == 0
    ensures y % 400 == 0 ==> y % 100 == 0
  {
  }

  lemma {:induction false} YearsGrow(a: int, b: int)
    requires a <= b
    ensures DayFromYear(b) >= DayFromYear(a) + 365 * (b - a)
    decreases b - a
  {
    if a < b {
      YearsGrow(a, b - 1);
      YearLength(b - 1);
    }
  }

  lemma {:induction false} MonthsGrow(y: int, a: int, b: int)
    requires 1 <= a <= b <= 13
    ensures MonthStart(y, b) >= MonthStart(y, a) + 28 * (b - a)
    decreases b - a
  {
    if a < b { MonthsGrow(y, a, b - 1); }
  }

  /** The largest year that has begun by a day, searched from a year nearby. */
  function YearUp(day: int, y: int): (year: int)
    requires DayFromYear(y) <= day
    ensures DayFromYear(year) <= day < DayFromYear(year + 1)
    decreases day - DayFromYear(y)
  {
    YearLength(y);
    if day < DayFromYear(y + 1) then y else YearUp(day, y + 1)
  }

  function YearOf(day: int): (year: int)
    ensures DayFromYear(year) <= day < DayFromYear(year + 1)
  {
    var low := 1970 - (if day < 0 then -day else 0);
    YearsGrow(low, 1970);
    YearUp(day, low)
  }

  function MonthUp(y: int, days: int, m: int): (month: int)
    requires 1 <= m <= 12 && MonthStart(y, m) <= days < MonthStart(y, 13)
    ensures 1 <= month <= 12 && MonthStart(y, month) <= days < MonthStart(y, month + 1)
    decreases 12 - m
  {
    if m == 12 || days < MonthStart(y, m + 1) then m else MonthUp(y, days, m + 1)
  }

  /** Year, month and day of month of a day number. */
  function Civil(day: int): Date {
    var y := YearOf(day);
    YearLength(y);
    var days := day - DayFromYear(y);
    var m := MonthUp(y, days, 1);
    Date(y, m, days - MonthStart(y, m) + 1)
  }

  predicate Exists(date: Date) {
    1 <= date.month <= 12 && 1 <= date.day <= DaysInMonth(date.year, date.month)
  }

  function DayNumber(date: Date): int { MakeDay(date.year, date.month - 1, date.day) }

  lemma DayNumberParts(date: Date)
    requires Exists(date)
    ensures DayNumber(date) == DayFromYear(date.year) + MonthStart(date.year, date.month) + date.day - 1
  {
    assert (date.month - 1) / 12 == 0 && (date.month - 1) % 12 == date.month - 1;
  }

  lemma CivilExists(day: int)
    ensures Exists(Civil(day)) && DayNumber(Civil(day)) == day
  {
    YearLength(YearOf(day));
    DayNumberParts(Civil(day));
  }

  /** The date lies in its year and its month. */
  lemma DateInMonth(date: Date)
    requires Exists(date)
    ensures var days := DayNumber(date) - DayFromYear(date.year);
      && MonthStart(date.year, date.month) <= days < MonthStart(date.year, date.month + 1)
      && 0 <= days < MonthStart(date.year, 13)
  {
    DayNumberParts(date);
    MonthsGrow(date.year, 1, date.month);
    MonthsGrow(date.year, date.month + 1, 13);
  }

  lemma CivilOfDate(date: Date)
    requires Exists(date)
    ensures Civil(DayNumber(date)) == date
  {
    DateInMonth(date);
    DayNumberParts(date);
    YearLength(date.year);
    CivilIs(DayNumber(date), date.year, date.month);
  }

  lemma CivilIs(day: int, y: int, m: int)
    requires 1 <= m <= 12 && DayFromYear(y) <= day < DayFromYear(y + 1)
    requires MonthStart(y, m) <= day - DayFromYear(y) < MonthStart(y, m + 1)
    ensures Civil(day) == Date(y, m, day - DayFromYear(y) - MonthStart(y, m) + 1)
  {
    OneYear(day, YearOf(day), y);
    YearLength(y);
    OneMonth(y, day - DayFromYear(y), Civil(day).month, m);
  }

  /** Dates that exist and day numbers correspond one to one. */
  lemma CivilInverts(day: int, date: Date)
    ensures Exists(Civil(day)) && DayNumber(Civil(day)) == day
    ensures Exists(date) ==> Civil(DayNumber(date)) == date
  {
    CivilExists(day);
    if Exists(date) { CivilOfDate(date); }
  }

  lemma OneYear(day: int, a: int, b: int)
    requires DayFromYear(a) <= day < DayFromYear(a + 1) && DayFromYear(b) <= day < DayFromYear(b + 1)
    ensures a == b
  {
    if a < b { YearsGrow(a + 1, b); } else if b < a { YearsGrow(b + 1, a); }
  }

  lemma OneMonth(y: int, days: int, a: int, b: int)
    requires 1 <= a <= 12 && 1 <= b <= 12
    requires MonthStart(y, a) <= days < MonthStart(y, a + 1) && MonthStart(y, b) <= days < MonthStart(y, b + 1)
    ensures a == b
  {
    if a < b { MonthsGrow(y, a + 1, b); } else if b < a { MonthsGrow(y, b + 1, a); }
  }

  // ----- date keys, ranges and shifts -----

  predicate ValidMonth(year: int, month: int) { FIRST_YEAR <= year <= LAST_YEAR && 1 <= month <= 12 }

  predicate ValidDate(date: Date) { ValidMonth(date.year, date.month) && Exists(date) }

  /** None: it throws. */
  function CalendarDateKey(year: int, month: int, day: int): Option<Date> {
    if !ValidMonth(year, month) || day < 1 || day > 31 then None
    else
      var candidate := Civil(MakeDay(year, month - 1, day));
      if candidate.year != year || candidate.month - 1 != month - 1 || candidate.day != day then None
      else Some(Date(year, month, day))
  }

  lemma CandidateDecides(date: Date)
    ensures Civil(DayNumber(date)) == date <==> Exists(date)
  {
    CivilExists(DayNumber(date));
    if Exists(date) { CivilOfDate(date); }
  }

  /** Letting Date normalise the parts and comparing rejects exactly the dates that do not exist. */
  lemma KeyIsValidDate(date: Date)
    ensures KeyOf(date) == if ValidDate(date) then Some(date) else None
    ensures KeyOf(date).Some? <==>
      1900 <= date.year <= 9999 && 1 <= date.month <= 12 && 1 <= date.day <= DaysInMonth(date.year, date.month)
  {
    CandidateDecides(date);
  }

  lemma KeyOfCivil(day: int)
    ensures KeyOf(Civil(day)) == if FIRST_YEAR <= Civil(day).year <= LAST_YEAR then Some(Civil(day)) else None
  {
    CivilExists(day);
    KeyIsValidDate(Civil(day));
  }

  function KeyOf(date: Date): Option<Date> { CalendarDateKey(date.year, date.month, date.day) }

  function JakartaDay(now: int): int { (now + OFFSET_MS) / MS_PER_DAY }

  function CurrentJakartaDate(now: int): Option<Date> { KeyOf(Civil(JakartaDay(now))) }

  datatype Range = Range(from: int, to: int)

  predicate Contains(range: Range, now: int) { range.from <= now < range.to }

  /** reportingRange for a day. */
  function DayRange(date: Date): Range {
    Range(MakeDay(date.year, date.month - 1, date.day) * MS_PER_DAY - OFFSET_MS,
          MakeDay(date.year, date.month - 1, date.day + 1) * MS_PER_DAY - OFFSET_MS)
  }

  /** reportingRange for a month. */
  function MonthRange(month: Month): Range {
    Range(MakeDay(month.year, month.month - 1, 1) * MS_PER_DAY - OFFSET_MS,
          MakeDay(month.year, month.month, 1) * MS_PER_DAY - OFFSET_MS)
  }

  lemma DayRangeIsDay(date: Date, now: int)
    ensures DayRange(date).to == DayRange(date).from + MS_PER_DAY
    ensures Contains(DayRange(date), now) <==> JakartaDay(now) == DayNumber(date)
  {
    var n := DayNumber(date);
    assert MakeDay(date.year, date.month - 1, date.day + 1) == n + 1;
    assert now + OFFSET_MS == MS_PER_DAY * ((now + OFFSET_MS) / MS_PER_DAY) + (now + OFFSET_MS) % MS_PER_DAY;
  }

  /** Every instant lies in exactly one valid day range, that of its Jakarta date, and in none when
      that date is outside the supported years. */
  lemma DaysTile(now: int, date: Date)
    ensures CurrentJakartaDate(now) == Some(date) <==> ValidDate(date) && Contains(DayRange(date), now)
  {
    CivilExists(JakartaDay(now));
    KeyOfCivil(JakartaDay(now));
    DayRangeIsDay(date, now);
    if Exists(date) { CivilOfDate(date); }
  }

  lemma MonthDays(month: Month)
    requires 1 <= month.month <= 12
    ensures MakeDay(month.year, month.month, 1)
      == MakeDay(month.year, month.month - 1, 1) + DaysInMonth(month.year, month.month)
  {
    var y, m := month.year, month.month;
    assert (m - 1) / 12 == 0 && (m - 1) % 12 == m - 1;
    if m == 12 {
      YearLength(y);
      assert 12 / 12 == 1 && 12 % 12 == 0;
    } else {
      assert m / 12 == 0 && m % 12 == m;
    }
  }

  lemma MakeDayAdds(year: int, month: int, day: int, amount: int)
    ensures MakeDay(year, month, day + amount) == MakeDay(year, month, day) + amount
  {
  }

  lemma DaysAbut(date: Date)
    ensures DayRange(date).to == DayRange(Date(date.year, date.month, date.day + 1)).from
  {
  }

  lemma LastDayAbuts(month: Month)
    requires 1 <= month.month <= 12
    ensures DayRange(Date(month.year, month.month, DaysInMonth(month.year, month.month))).to == MonthRange(month).to
  {
    var days := DaysInMonth(month.year, month.month);
    MonthDays(month);
    MakeDayAdds(month.year, month.month - 1, 1, days);
  }

  /** A month range is the exact concatenation of its day ranges. */
  lemma MonthIsItsDays(month: Month, day: int)
    requires ValidMonth(month.year, month.month) && 1 <= day <= DaysInMonth(month.year, month.month)
    ensures DayRange(Date(month.year, month.month, 1)).from == MonthRange(month).from
    ensures DayRange(Date(month.year, month.month, day)).to
            == if day < DaysInMonth(month.year, month.month)
              then DayRange(Date(month.year, month.month, day + 1)).from else MonthRange(month).to
  {
    if day < DaysInMonth(month.year, month.month) {
      DaysAbut(Date(month.year, month.month, day));
    } else {
      LastDayAbuts(month);
    }
  }

  predicate IsIn(date: Option<Date>, month: Month) {
    date.Some? && date.value.year == month.year && date.value.month == month.month
  }

  /** An instant lies in a month's range exactly when its Jakarta date is in that month. */
  lemma MonthsTile(now: int, month: Month)
    requires ValidMonth(month.year, month.month)
    ensures Contains(MonthRange(month), now) <==> IsIn(CurrentJakartaDate(now), month)
  {
    var day := JakartaDay(now) - DayNumber(Date(month.year, month.month, 1)) + 1;
    InMonth(month, now, day);
    if 1 <= day <= DaysInMonth(month.year, month.month) { DayIsDate(now, Date(month.year, month.month, day)); }
    if IsIn(CurrentJakartaDate(now), month) { SameMonth(now, month, Date(month.year, month.month, 1), day); }
  }

  lemma DayIsDate(now: int, date: Date)
    requires ValidDate(date) && date.day == JakartaDay(now) - DayNumber(Date(date.year, date.month, 1)) + 1
    ensures CurrentJakartaDate(now) == Some(date)
  {
    DayOfMonth(date, Date(date.year, date.month, 1));
    DayRangeIsDay(date, now);
    DaysTile(now, date);
  }

  lemma InMonth(month: Month, now: int, day: int)
    requires 1 <= month.month <= 12 && day == JakartaDay(now) - DayNumber(Date(month.year, month.month, 1)) + 1
    ensures Contains(MonthRange(month), now) <==> 1 <= day <= DaysInMonth(month.year, month.month)
  {
    MonthDays(month);
    assert now + OFFSET_MS == MS_PER_DAY * JakartaDay(now) + (now + OFFSET_MS) % MS_PER_DAY;
  }

  lemma DayOfMonth(date: Date, first: Date)
    requires first == Date(date.year, date.month, 1)
    ensures DayNumber(date) == DayNumber(first) + date.day - 1
  {
    MakeDayAdds(date.year, date.month - 1, 1, date.day - 1);
  }

  lemma SameMonth(now: int, month: Month, first: Date, day: int)
    requires first == Date(month.year, month.month, 1) && day == JakartaDay(now) - DayNumber(first) + 1
    requires IsIn(CurrentJakartaDate(now), month)
    ensures CurrentJakartaDate(now) == Some(Date(month.year, month.month, day))
      && 1 <= day <= DaysInMonth(month.year, month.month)
  {
    var date := CurrentJakartaDate(now).value;
    DateIsToday(now, date);
    DayOfMonth(date, first);
  }

  lemma DateIsToday(now: int, date: Date)
    requires CurrentJakartaDate(now) == Some(date)
    ensures Exists(date) && DayNumber(date) == JakartaDay(now)
  {
    DaysTile(now, date);
    DayRangeIsDay(date, now);
  }

  /** shiftReportingSelection for days; None: it throws. */
  function ShiftDate(date: Date, amount: int): Option<Date> {
    if !ValidDate(date) then None else KeyOf(Civil(MakeDay(date.year, date.month - 1, date.day + amount)))
  }

  function MonthKey(date: Date): Option<Month> {
    if ValidMonth(date.year, date.month) then Some(Month(date.year, date.month)) else None
  }

  /** shiftReportingSelection for months; None: it throws. */
  function ShiftMonth(month: Month, amount: int): Option<Month> {
    if !ValidMonth(month.year, month.month) then None
      else MonthKey(Civil(MakeDay(month.year, month.month - 1 + amount, 1)))
  }

  lemma ShiftIsCivil(date: Date, amount: int)
    requires ValidDate(date)
    ensures ShiftDate(date, amount) == KeyOf(Civil(DayNumber(date) + amount))
  {
    MakeDayAdds(date.year, date.month - 1, date.day, amount);
  }

  /** Shifting moves the day number, and fails exactly when it leaves the supported years. */
  lemma ShiftMovesDay(date: Date, amount: int, target: Date)
    requires ValidDate(date)
    ensures ShiftDate(date, amount) == Some(target)
      <==> ValidDate(target) && DayNumber(target) == DayNumber(date) + amount
  {
    var n := DayNumber(date) + amount;
    ShiftIsCivil(date, amount);
    KeyOfCivil(n);
    CivilExists(n);
    CandidateDecides(target);
  }

  /** Shifts compose as long as the day in between is supported. */
  lemma ShiftsAdd(date: Date, first: int, second: int)
    requires ShiftDate(date, first).Some?
    ensures ShiftDate(ShiftDate(date, first).value, second) == ShiftDate(date, first + second)
  {
    var middle := ShiftDate(date, first).value;
    ShiftMovesDay(date, first, middle);
    ShiftIsCivil(middle, second);
    ShiftIsCivil(date, first + second);
  }

  function MonthNumber(month: Month): int { 12 * month.year + month.month - 1 }

  lemma MonthCarry(year: int, k: int)
    ensures MakeDay(year, k, 1) == DayNumber(Date(year + k / 12, k % 12 + 1, 1))
  {
    var m := k % 12;
    assert m / 12 == 0 && m % 12 == m;
  }

  lemma FirstOfMonth(year: int, k: int)
    ensures Civil(MakeDay(year, k, 1)) == Date(year + k / 12, k % 12 + 1, 1)
  {
    MonthCarry(year, k);
    CivilOfDate(Date(year + k / 12, k % 12 + 1, 1));
  }

  lemma ShiftIsFirst(month: Month, amount: int, k: int, first: Date)
    requires ValidMonth(month.year, month.month) && k == month.month - 1 + amount
    requires first == Civil(MakeDay(month.year, k, 1))
    ensures ShiftMonth(month, amount) == MonthKey(first)
  {
  }

  lemma ShiftIsMonth(month: Month, amount: int, k: int)
    requires ValidMonth(month.year, month.month) && k == month.month - 1 + amount
    ensures ShiftMonth(month, amount) == MonthKey(Date(month.year + k / 12, k % 12 + 1, 1))
  {
    FirstOfMonth(month.year, k);
    ShiftIsFirst(month, amount, k, Civil(MakeDay(month.year, k, 1)));
  }

  lemma MonthNumberDecides(year: int, k: int, target: Month)
    requires 1 <= target.month <= 12
    ensures target == Month(year + k / 12, k % 12 + 1) <==> MonthNumber(target) == 12 * year + k
  {
    assert k == 12 * (k / 12) + k % 12;
  }

  /** Shifting moves the month number, and fails exactly when it leaves the supported years. */
  lemma ShiftMovesMonth(month: Month, amount: int, target: Month)
    requires ValidMonth(month.year, month.month)
    ensures ShiftMonth(month, amount) == Some(target)
            <==> ValidMonth(target.year, target.month) && MonthNumber(target) == MonthNumber(month) + amount
  {
    ShiftIsMonth(month, amount, month.month - 1 + amount);
    if 1 <= target.month <= 12 { MonthNumberDecides(month.year, month.month - 1 + amount, target); }
  }

  lemma MonthShiftsAdd(month: Month, first: int, second: int)
    requires ShiftMonth(month, first).Some?
    ensures ShiftMonth(ShiftMonth(month, first).value, second) == ShiftMonth(month, first + second)
  {
    var middle := ShiftMonth(month, first).value;
    ShiftMovesMonth(month, first, middle);
    forall target
      ensures ShiftMonth(middle, second) == Some(target) <==> ShiftMonth(month, first + second) == Some(target)
    {
      ShiftMovesMonth(middle, second, target);
      ShiftMovesMonth(month, first + second, target);
    }
    SameOption(ShiftMonth(middle, second), ShiftMonth(month, first + second));
  }

  lemma SameOption(one: Option<Month>, other: Option<Month>)
    requires forall target :: one == Some(target) <==> other == Some(target)
    ensures one == other
  {
    if one.Some? { assert one == Some(one.value); } else if other.Some? { assert other == Some(other.value); }
  }

  /** A day begins in Jakarta seven hours before it begins in UTC, and not a millisecond earlier. */
  lemma JakartaMidnight(date: Date)
    requires ValidDate(date)
    ensures var start := 24 * 3_600_000 * DayNumber(date) - 7 * 3_600_000;
      CurrentJakartaDate(start) == Some(date) && CurrentJakartaDate(start - 1) != Some(date)
    ensures DayNumber(Date(1970, 1, 1)) == 0
  {
    var start := 24 * 3_600_000 * DayNumber(date) - 7 * 3_600_000;
    DayRangeIsDay(date, start);
    assert DayRange(date).from == start;
    DaysTile(start, date);
    DaysTile(start - 1, date);
  }
}
