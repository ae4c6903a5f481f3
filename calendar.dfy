/** The Gregorian calendar as the application's `Date` arithmetic uses it.
    A date is a day number: the number of days since 1970-01-01 (negative
    before it). `new Date(year, month, day)` takes a 0-based month and lets
    both the month and the day overflow into the next year or month; `MakeDay`
    below does the same. Time zones are not modelled: every date is a whole
    day in one fixed zone. */
module Calendar {

  predicate IsLeapYear(y: int) {
    (y % 4 == 0 && y % 100 != 0) || y % 400 == 0
  }

  /** Length of month `m` (0 = January) of year `y`. */
  function DaysInMonth(y: int, m: int): (n: int)
    requires 0 <= m < 12
    ensures 28 <= n <= 31
    ensures m == 1 ==> (n == 29 <==> IsLeapYear(y))
  {
    if m == 1 then (if IsLeapYear(y) then 29 else 28)
    else if m == 3 || m == 5 || m == 8 || m == 10 then 30
    else 31
  }

  /** Days in the months of year `y` before month `m`. */
  function DaysBeforeMonth(y: int, m: int): (n: int)
    requires 0 <= m <= 12
    ensures m == 0 ==> n == 0
  {
    var common :=
      if m < 6 then
        (if m == 0 then 0 else if m == 1 then 31 else if m == 2 then 59
         else if m == 3 then 90 else if m == 4 then 120 else 151)
      else
        (if m == 6 then 181 else if m == 7 then 212 else if m == 8 then 243
         else if m == 9 then 273 else if m == 10 then 304 else if m == 11 then 334 else 365);
    if m >= 2 && IsLeapYear(y) then common + 1 else common
  }

  /** Each month starts where the previous one ends. */
  lemma DaysBeforeMonthStep(y: int, m: int)
    requires 0 < m <= 12
    ensures DaysBeforeMonth(y, m) == DaysBeforeMonth(y, m - 1) + DaysInMonth(y, m - 1)
  {
  }

  function YearLength(y: int): (n: int)
    ensures n == DaysBeforeMonth(y, 12)
    ensures n == (if IsLeapYear(y) then 366 else 365)
  {
    if IsLeapYear(y) then 366 else 365
  }

  /** Leap years in the years before `y`, counted from a fixed origin. */
  function LeapYearsBefore(y: int): int {
    (y - 1) / 4 - (y - 1) / 100 + (y - 1) / 400
  }

  lemma LeapYearsStep(y: int)
    ensures LeapYearsBefore(y + 1) - LeapYearsBefore(y) == (if IsLeapYear(y) then 1 else 0)
  {
    var a := if y % 4 == 0 then 1 else 0;
    var b := if y % 100 == 0 then 1 else 0;
    var c := if y % 400 == 0 then 1 else 0;
    assert y / 4 - (y - 1) / 4 == a;
    assert y / 100 - (y - 1) / 100 == b;
    assert y / 400 - (y - 1) / 400 == c;
    assert y % 400 == 0 ==> y % 100 == 0 && y % 4 == 0;
    assert y % 100 == 0 ==> y % 4 == 0;
  }

  /** Day number of January 1st of year `y`. */
  function DaysBeforeYear(y: int): int {
    365 * (y - 1970) + LeapYearsBefore(y) - LeapYearsBefore(1970)
  }

  /** Consecutive years are adjacent: each new year starts where the previous one ends. */
  lemma {:induction false} NextYearStart(y: int)
    ensures DaysBeforeYear(y + 1) == DaysBeforeYear(y) + YearLength(y)
  {
    LeapYearsStep(y);
  }

  /** Day number of the 1st of month `m` (0..11) of year `y`. */
  function MonthStart(y: int, m: int): int
    requires 0 <= m < 12
  {
    DaysBeforeYear(y) + DaysBeforeMonth(y, m)
  }

  /** Day number of the 1st of month `m` of year `y`; `m` may lie outside 0..11,
      in which case it is carried into the year as `new Date` does. */
  function FirstOfMonth(y: int, m: int): int {
    MonthStart(y + m / 12, m % 12)
  }

  /** `new Date(y, m, d)` as a day number: day `d` of month `m`, with overflow. */
  function MakeDay(y: int, m: int, d: int): (r: int)
    ensures r - FirstOfMonth(y, m) == d - 1
  {
    FirstOfMonth(y, m) + d - 1
  }

  /** The first of the next month is the first of this month plus its length,
      across year boundaries too. */
  lemma {:induction false} NextMonthStart(y: int, m: int)
    ensures FirstOfMonth(y, m + 1) == FirstOfMonth(y, m) + DaysInMonth(y + m / 12, m % 12)
  {
    var yy, mm := y + m / 12, m % 12;
    if mm == 11 {
      assert (m + 1) / 12 == m / 12 + 1 && (m + 1) % 12 == 0;
      NextYearStart(yy);
      assert MonthStart(yy + 1, 0) == MonthStart(yy, 11) + 31;
    } else {
      assert (m + 1) / 12 == m / 12 && (m + 1) % 12 == mm + 1;
      DaysBeforeMonthStep(yy, mm + 1);
      assert MonthStart(yy, mm + 1) == MonthStart(yy, mm) + DaysInMonth(yy, mm);
    }
  }

  /** Euclidean division by 12 absorbs whole multiples of 12. */
  lemma Carry12(a: int, k: int)
    ensures (a + 12 * k) / 12 == a / 12 + k && (a + 12 * k) % 12 == a % 12
  {
    var q, r := a / 12, a % 12;
    assert a == 12 * q + r;
    assert a + 12 * k == 12 * (q + k) + r;
  }

  /** Month arithmetic: `(y, m + 12k)` names the same month as `(y + k, m)`. */
  lemma MonthCarry(y: int, m: int, k: int)
    ensures FirstOfMonth(y, m + 12 * k) == FirstOfMonth(y + k, m)
  {
    Carry12(m, k);
  }

  /** Every (year, month) pair names the month with index `12 * year + month`. */
  lemma FirstOfMonthByIndex(y: int, m: int)
    ensures FirstOfMonth(y, m) == FirstOfMonth(0, MonthIndex(y, m))
  {
    Carry12(m, y);
    var i := MonthIndex(y, m);
    assert i == m + 12 * y;
    assert 0 + i / 12 == y + m / 12 && i % 12 == m % 12;
  }

  /** A month index within 0..11 needs no carrying. */
  lemma FirstOfMonthInYear(y: int, m: int)
    requires 0 <= m < 12
    ensures FirstOfMonth(y, m) == MonthStart(y, m)
  {
    assert m / 12 == 0 && m % 12 == m;
  }

  /** Days are ordered within a month and the month ends before the next begins. */
  lemma DayInMonthBounds(y: int, m: int, d: int)
    requires 0 <= m < 12 && 1 <= d <= DaysInMonth(y, m)
    ensures FirstOfMonth(y, m) <= MakeDay(y, m, d) < FirstOfMonth(y, m + 1)
  {
    assert m / 12 == 0 && m % 12 == m;
    NextMonthStart(y, m);
  }

  /** A calendar date given with a 1-based month, as in "2024-02-29". */
  predicate IsValidDate(y: int, month1: int, d: int) {
    1 <= month1 <= 12 && 1 <= d <= DaysInMonth(y, month1 - 1)
  }

  /** A day of an earlier month comes before any day of a later month. */
  lemma {:induction false} MakeDayOrdered(y1: int, m1: int, d1: int, y2: int, m2: int, d2: int)
    requires 0 <= m1 < 12 && 1 <= d1 <= DaysInMonth(y1, m1) && 1 <= d2
    requires MonthIndex(y1, m1) < MonthIndex(y2, m2)
    ensures MakeDay(y1, m1, d1) < MakeDay(y2, m2, d2)
  {
    DayInMonthBounds(y1, m1, d1);
    MonthsOrdered(y1, m1, y2, m2);
  }

  /** Distinct valid dates have distinct day numbers: the encoding is injective. */
  lemma {:induction false} ValidDateInjective(y1: int, m1: int, d1: int, y2: int, m2: int, d2: int)
    requires IsValidDate(y1, m1 + 1, d1) && IsValidDate(y2, m2 + 1, d2)
    requires MakeDay(y1, m1, d1) == MakeDay(y2, m2, d2)
    ensures y1 == y2 && m1 == m2 && d1 == d2
  {
    if MonthIndex(y1, m1) < MonthIndex(y2, m2) {
      MakeDayOrdered(y1, m1, d1, y2, m2, d2);
    } else if MonthIndex(y2, m2) < MonthIndex(y1, m1) {
      MakeDayOrdered(y2, m2, d2, y1, m1, d1);
    } else {
      Carry12(m1, y1);
      Carry12(m2, y2);
    }
  }

  /** Month index counted from year 0: a total order on (year, month). */
  function MonthIndex(y: int, m: int): int {
    12 * y + m
  }

  /** The first of a later month comes at or after the first of the next month. */
  lemma {:induction false} MonthsOrdered(y1: int, m1: int, y2: int, m2: int)
    requires MonthIndex(y1, m1) < MonthIndex(y2, m2)
    ensures FirstOfMonth(y1, m1 + 1) <= FirstOfMonth(y2, m2)
  {
    FirstOfMonthByIndex(y1, m1 + 1);
    FirstOfMonthByIndex(y2, m2);
    MonotoneFirst(MonthIndex(y1, m1 + 1), MonthIndex(y2, m2));
  }

  /** `FirstOfMonth(0, ·)` grows with the month index. */
  lemma {:induction false} MonotoneFirst(i: int, j: int)
    requires i <= j
    ensures FirstOfMonth(0, i) <= FirstOfMonth(0, j)
    decreases j - i
  {
    if i < j {
      NextMonthStart(0, i);
      MonotoneFirst(i + 1, j);
    }
  }
}
