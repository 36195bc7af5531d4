/**
 The calendar arithmetic behind JavaScript's `Date`, on whole days counted from
 1970-01-01 (sections 21.4.1.3 to 21.4.1.13 of ECMA-262).  Every function is
 total over the proleptic Gregorian calendar, and all claims are for every day.
 */
module CivilDate {
  import opened Division

  datatype Civil = Civil(year: int, month: int, date: int)

  predicate IsLeap(year: int) {
    year % 4 == 0 && (year % 100 != 0 || year % 400 == 0)
  }

  function DaysInYear(year: int): int {
    if IsLeap(year) then 366 else 365
  }

  /** Day number of the first of January: the lengths of the years since 1970, or
      minus those of the years until it. */
  function DayFromYear(year: int): int
    decreases if year < 1970 then 1970 - year else year - 1970
  {
    if year == 1970 then 0
    else if year < 1970 then DayFromYear(year + 1) - DaysInYear(year)
    else DayFromYear(year - 1) + DaysInYear(year - 1)
  }

  /** The closed form of section 21.4.1.6, which JavaScript computes. */
  function DayFromYearFormula(year: int): int {
    365 * (year - 1970) + (year - 1969) / 4 - (year - 1901) / 100 + (year - 1601) / 400
  }

  /** Days of the year before the first of a zero-based month, section 21.4.1.7. */
  function DaysBeforeMonth(month: int, leap: bool): int
    requires 0 <= month <= 12
  {
    var f := if leap then 1 else 0;
    match month
    case 0 => 0
    case 1 => 31
    case 2 => 59 + f
    case 3 => 90 + f
    case 4 => 120 + f
    case 5 => 151 + f
    case 6 => 181 + f
    case 7 => 212 + f
    case 8 => 243 + f
    case 9 => 273 + f
    case 10 => 304 + f
    case 11 => 334 + f
    case _ => 365 + f
  }

  function DaysInMonth(year: int, month: int): int
    requires 0 <= month < 12
  {
    DaysBeforeMonth(month + 1, IsLeap(year)) - DaysBeforeMonth(month, IsLeap(year))
  }

  /** Thirty days have September, April, June and November. */
  lemma MonthLengths(year: int, month: int)
    requires 0 <= month < 12
    ensures month == 1 ==> DaysInMonth(year, month) == (if IsLeap(year) then 29 else 28)
    ensures month == 3 || month == 5 || month == 8 || month == 10 ==> DaysInMonth(year, month) == 30
    ensures month != 1 && month != 3 && month != 5 && month != 8 && month != 10 ==> DaysInMonth(year, month) == 31
    ensures DaysBeforeMonth(0, IsLeap(year)) == 0 && DaysBeforeMonth(12, IsLeap(year)) == DaysInYear(year)
  {
  }

  predicate IsCivil(c: Civil) {
    0 <= c.month < 12 && 1 <= c.date <= DaysInMonth(c.year, c.month)
  }

  lemma LeapDivisors(year: int)
    ensures year % 400 == 0 ==> year % 100 == 0
    ensures year % 100 == 0 ==> year % 4 == 0
  {
  }

  lemma FormulaStep(year: int)
    ensures DayFromYearFormula(year + 1) == DayFromYearFormula(year) + DaysInYear(year)
  {
    QuotientStep(year, 1968, 4);
    QuotientStep(year, 1900, 100);
    QuotientStep(year, 1600, 400);
    LeapDivisors(year);
  }

  /** Counting leap years one by one agrees with the closed form in every year. */
  lemma {:induction false} LeapYearFormula(year: int)
    ensures DayFromYear(year) == DayFromYearFormula(year)
    decreases if year < 1970 then 1970 - year else year - 1970
  {
    if year < 1970 {
      LeapYearFormula(year + 1);
      FormulaStep(year);
    } else if year > 1970 {
      LeapYearFormula(year - 1);
      FormulaStep(year - 1);
    }
  }

  lemma YearLength(year: int)
    ensures DayFromYear(year + 1) == DayFromYear(year) + DaysInYear(year)
  {
  }

  lemma YearsAscend(a: int, b: int)
    requires a <= b
    ensures DayFromYear(a) + 365 * (b - a) <= DayFromYear(b)
    decreases b - a
  {
    if a < b {
      YearLength(a);
      YearsAscend(a + 1, b);
    }
  }

  /** The largest year, at most `bound`, that has begun by `day`. */
  function LatestYear(day: int, bound: int): (year: int)
    requires day < DayFromYear(bound + 1)
    ensures DayFromYear(year) <= day < DayFromYear(year + 1)
    decreases DayFromYear(bound) - day
  {
    if DayFromYear(bound) <= day then bound else
      YearLength(bound - 1);
      LatestYear(day, bound - 1)
  }

  /** Section 21.4.1.8: the year a day number falls in. */
  function YearFromDay(day: int): (year: int)
    ensures DayFromYear(year) <= day < DayFromYear(year + 1)
  {
    if day < 0 then LatestYear(day, 1969)
    else
      YearsAscend(1970, 1970 + day / 365 + 1);
      LatestYear(day, 1970 + day / 365)
  }

  lemma YearFromDayUnique(day: int, year: int)
    requires DayFromYear(year) <= day < DayFromYear(year + 1)
    ensures YearFromDay(day) == year
  {
    var y := YearFromDay(day);
    if y < year { YearsAscend(y + 1, year); }
    if year < y { YearsAscend(year + 1, y); }
  }

  /** The zero-based month holding the given day of the year, section 21.4.1.11. */
  function MonthOfYearDay(yearDay: int, leap: bool): (month: int)
    requires 0 <= yearDay < DaysBeforeMonth(12, leap)
    ensures 0 <= month < 12
    ensures DaysBeforeMonth(month, leap) <= yearDay < DaysBeforeMonth(month + 1, leap)
  {
    if yearDay < DaysBeforeMonth(1, leap) then 0
    else if yearDay < DaysBeforeMonth(2, leap) then 1
    else if yearDay < DaysBeforeMonth(3, leap) then 2
    else if yearDay < DaysBeforeMonth(4, leap) then 3
    else if yearDay < DaysBeforeMonth(5, leap) then 4
    else if yearDay < DaysBeforeMonth(6, leap) then 5
    else if yearDay < DaysBeforeMonth(7, leap) then 6
    else if yearDay < DaysBeforeMonth(8, leap) then 7
    else if yearDay < DaysBeforeMonth(9, leap) then 8
    else if yearDay < DaysBeforeMonth(10, leap) then 9
    else if yearDay < DaysBeforeMonth(11, leap) then 10
    else 11
  }

  /** getUTCFullYear, getUTCMonth and getUTCDate of a day. */
  function CivilOf(day: int): (c: Civil)
    ensures IsCivil(c)
  {
    var year := YearFromDay(day);
    YearLength(year);
    var yearDay := day - DayFromYear(year);
    var month := MonthOfYearDay(yearDay, IsLeap(year));
    Civil(year, month, yearDay - DaysBeforeMonth(month, IsLeap(year)) + 1)
  }

  /** Section 21.4.1.13: months outside 0..11 roll into neighbouring years, and
      any date offset is accepted. */
  function MakeDay(year: int, month: int, date: int): int {
    var y := year + month / 12;
    DayFromYear(y) + DaysBeforeMonth(month % 12, IsLeap(y)) + date - 1
  }

  /** getUTCDay: Sunday is 0, and the epoch was a Thursday. */
  function WeekDay(day: int): (w: int)
    ensures 0 <= w < 7
  {
    (day + 4) % 7
  }

  lemma MakeDayInYear(year: int, month: int, date: int)
    requires 0 <= month < 12
    ensures MakeDay(year, month, date)
         == DayFromYear(year) + DaysBeforeMonth(month, IsLeap(year)) + date - 1
  {
    assert month / 12 == 0 && month % 12 == month;
  }

  lemma DayRoundTrip(day: int)
    ensures var d := CivilOf(day); MakeDay(d.year, d.month, d.date) == day
  {
    var d := CivilOf(day);
    MakeDayInYear(d.year, d.month, d.date);
  }

  /** A day is the given offset into the given month exactly when that is its civil date. */
  lemma CivilAt(day: int, year: int, yearDay: int, month: int)
    requires 0 <= month < 12
    requires DayFromYear(year) + yearDay == day
    requires DaysBeforeMonth(month, IsLeap(year)) <= yearDay < DaysBeforeMonth(month + 1, IsLeap(year))
    ensures CivilOf(day) == Civil(year, month, yearDay - DaysBeforeMonth(month, IsLeap(year)) + 1)
  {
    MonthsAscend(0, month, IsLeap(year));
    MonthsAscend(month + 1, 12, IsLeap(year));
    YearLength(year);
    YearFromDayUnique(day, year);
    MonthOfYearDayUnique(yearDay, IsLeap(year), month);
  }

  /** Reading a day's civil date and making a day of it gives the day back, and
      so does the converse on every civil date: the two are inverse bijections. */
  lemma CivilRoundTrip(day: int, c: Civil)
    ensures var d := CivilOf(day); MakeDay(d.year, d.month, d.date) == day
    ensures IsCivil(c) ==> CivilOf(MakeDay(c.year, c.month, c.date)) == c
  {
    DayRoundTrip(day);
    if IsCivil(c) {
      MakeDayInYear(c.year, c.month, c.date);
      CivilAt(MakeDay(c.year, c.month, c.date), c.year,
              DaysBeforeMonth(c.month, IsLeap(c.year)) + c.date - 1, c.month);
    }
  }

  lemma MonthsAscend(a: int, b: int, leap: bool)
    requires 0 <= a <= b <= 12
    ensures DaysBeforeMonth(a, leap) + 28 * (b - a) <= DaysBeforeMonth(b, leap)
  {
  }

  lemma MonthOfYearDayUnique(yearDay: int, leap: bool, month: int)
    requires 0 <= month < 12
    requires DaysBeforeMonth(month, leap) <= yearDay < DaysBeforeMonth(month + 1, leap)
    ensures 0 <= yearDay < DaysBeforeMonth(12, leap)
    ensures MonthOfYearDay(yearDay, leap) == month
  {
  }

  /** The day of the first of the month `day` falls in, and of the month after. */
  function MonthStart(day: int): int {
    var c := CivilOf(day);
    MakeDay(c.year, c.month, 1)
  }

  function NextMonthStart(day: int): int {
    var c := CivilOf(day);
    MakeDay(c.year, c.month + 1, 1)
  }

  lemma MonthLength(year: int, month: int)
    requires 0 <= month < 12
    ensures MakeDay(year, month + 1, 1) == MakeDay(year, month, 1) + DaysInMonth(year, month)
  {
    MakeDayInYear(year, month, 1);
    if month < 11 {
      MakeDayInYear(year, month + 1, 1);
    } else {
      assert month + 1 == 12 && 12 / 12 == 1 && 12 % 12 == 0;
      YearLength(year);
    }
  }

  lemma DateOffset(year: int, month: int, date: int)
    ensures MakeDay(year, month, date) == MakeDay(year, month, 1) + date - 1
  {
  }

  lemma MonthBounds(day: int)
    ensures MonthStart(day) <= day < NextMonthStart(day)
    ensures NextMonthStart(day) == MonthStart(day) + DaysInMonth(CivilOf(day).year, CivilOf(day).month)
  {
    var c := CivilOf(day);
    DayRoundTrip(day);
    DateOffset(c.year, c.month, c.date);
    MonthLength(c.year, c.month);
  }

  lemma SameMonth(day: int, other: int)
    requires MonthStart(day) <= other < NextMonthStart(day)
    ensures MonthStart(other) == MonthStart(day)
  {
    var c := CivilOf(day);
    MonthBounds(day);
    MakeDayInYear(c.year, c.month, 1);
    CivilAt(other, c.year, other - DayFromYear(c.year), c.month);
  }

  lemma FirstOfMonth(year: int, month: int)
    requires 0 <= month < 12
    ensures CivilOf(MakeDay(year, month, 1)) == Civil(year, month, 1)
  {
    MakeDayInYear(year, month, 1);
    MonthsAscend(month, month + 1, IsLeap(year));
    CivilAt(MakeDay(year, month, 1), year, DaysBeforeMonth(month, IsLeap(year)), month);
  }

  lemma SameFirst(a: Civil, b: Civil)
    requires IsCivil(a) && IsCivil(b)
    requires MakeDay(a.year, a.month, 1) == MakeDay(b.year, b.month, 1)
    ensures a.year == b.year && a.month == b.month
  {
    FirstOfMonth(a.year, a.month);
    FirstOfMonth(b.year, b.month);
  }

  lemma SameNextMonth(day: int, other: int)
    requires MonthStart(other) == MonthStart(day)
    ensures NextMonthStart(other) == NextMonthStart(day)
  {
    var a, b := CivilOf(day), CivilOf(other);
    assert NextMonthStart(day) == MakeDay(a.year, a.month + 1, 1);
    assert NextMonthStart(other) == MakeDay(b.year, b.month + 1, 1);
    assert a.year == b.year && a.month == b.month by {
      SameFirst(a, b);
    }
  }

  /** Months are intervals of 28 to 31 days; December rolls into January and
      February has the leap day.  Two days share a month exactly when the second
      lies in the first one's interval. */
  lemma MonthInterval(day: int, other: int)
    ensures MonthStart(day) <= day < NextMonthStart(day)
    ensures 28 <= NextMonthStart(day) - MonthStart(day) <= 31
    ensures NextMonthStart(day) == MonthStart(day) + DaysInMonth(CivilOf(day).year, CivilOf(day).month)
    ensures MonthStart(day) <= other < NextMonthStart(day) <==> MonthStart(other) == MonthStart(day)
  {
    MonthBounds(day);
    MonthLengths(CivilOf(day).year, CivilOf(day).month);
    if MonthStart(day) <= other < NextMonthStart(day) {
      SameMonth(day, other);
    }
    if MonthStart(other) == MonthStart(day) {
      SameFirst(CivilOf(day), CivilOf(other));
      MonthBounds(other);
    }
  }
}
