/** The month helpers shared by the pages: the `YYYY-MM` query parameter,
    its printer, and the bounds of a month as day numbers. Months are
    0-based, as in JavaScript's `Date`. */
module Format {
  import opened Common
  import opened Calendar

  /** `{ year, month }` with `month` 0-based. */
  datatype YearMonth = YearMonth(year: int, month: int)

  const FirstYear: int := 2020
  const LastYear: int := 2030

  /** The shape `/^(\d{4})-(\d{2})$/`: four ASCII digits, a dash, two ASCII
      digits, and nothing else. */
  predicate IsMonthParam(s: string) {
    |s| == 7 && AllDigits(s[..4]) && s[4] == '-' && AllDigits(s[5..])
  }

  /** `parseMonth`: the year and 0-based month of a well-formed parameter
      naming a month of 2020 to 2030, otherwise `now`, the current year and
      month (whose month is 0..11, as `getMonth()` gives it). */
  function ParseMonth(param: Option<string>, now: YearMonth): (r: YearMonth)
    requires 0 <= now.month < 12
    ensures 0 <= r.month < 12
    ensures IsSet(param) && IsMonthParam(param.value)
            && FirstYear <= DigitsValue(param.value[..4]) <= LastYear && 1 <= DigitsValue(param.value[5..]) <= 12
      ==> r == YearMonth(DigitsValue(param.value[..4]), DigitsValue(param.value[5..]) - 1)
    ensures !(IsSet(param) && IsMonthParam(param.value)
              && FirstYear <= DigitsValue(param.value[..4]) <= LastYear && 1 <= DigitsValue(param.value[5..]) <= 12)
      ==> r == now
  {
    if IsSet(param) && IsMonthParam(param.value) then
      var y := DigitsValue(param.value[..4]);
      var m := DigitsValue(param.value[5..]);
      if FirstYear <= y <= LastYear && 1 <= m <= 12 then YearMonth(y, m - 1) else now
    else now
  }

  /** `monthKey`: the year, a dash, and the 1-based month padded to two digits. */
  function MonthKey(year: int, month: int): (r: string)
    ensures 0 <= month < 99 && 1000 <= year <= 9999 ==> IsMonthParam(r)
  {
    if 0 <= month < 99 && 1000 <= year <= 9999 then
      PaddedValue(month + 1);
      NatToStringLength4(year);
      var r := IntToString(year) + "-" + PadStart2(IntToString(month + 1));
      assert r[..4] == IntToString(year) && r[5..] == PadStart2(IntToString(month + 1));
      r
    else IntToString(year) + "-" + PadStart2(IntToString(month + 1))
  }

  /** A number below 100 printed and padded to two digits reads back as itself. */
  lemma PaddedValue(n: int)
    requires 1 <= n < 100
    ensures var p := PadStart2(IntToString(n));
      |p| == 2 && AllDigits(p) && DigitsValue(p) == n
  {
    DigitsValueOfNatToString(n);
    var s := NatToString(n);
    if n < 10 {
      var p := "0" + s;
      assert p[..1] == "0" && p[..1][..0] == [];
    } else {
      assert s == NatToString(n / 10) + [DigitChar(n % 10)];
    }
  }

  /** Printing a month of 2020 to 2030 and parsing it back gives the month. */
  lemma ParseMonthKey(year: int, month: int, now: YearMonth)
    requires FirstYear <= year <= LastYear && 0 <= month < 12
    requires 0 <= now.month < 12
    ensures ParseMonth(Some(MonthKey(year, month)), now) == YearMonth(year, month)
  {
    var k := MonthKey(year, month);
    PaddedValue(month + 1);
    NatToStringLength4(year);
    DigitsValueOfNatToString(year);
    assert k[..4] == IntToString(year);
    assert k[5..] == PadStart2(IntToString(month + 1));
  }

  /** Two months of 2020 to 2030 have the same key only when they are the same. */
  lemma MonthKeyInjective(y1: int, m1: int, y2: int, m2: int)
    requires FirstYear <= y1 <= LastYear && 0 <= m1 < 12
    requires FirstYear <= y2 <= LastYear && 0 <= m2 < 12
    requires MonthKey(y1, m1) == MonthKey(y2, m2)
    ensures y1 == y2 && m1 == m2
  {
    ParseMonthKey(y1, m1, YearMonth(0, 0));
    ParseMonthKey(y2, m2, YearMonth(0, 0));
  }

  /** The 1st of the month after month `month` of `year`, and the length of the month. */
  lemma NextMonthBound(year: int, month: int)
    requires 0 <= month < 12
    ensures FirstOfMonth(year, month + 1) == if month < 11 then MonthStart(year, month + 1) else MonthStart(year + 1, 0)
    ensures FirstOfMonth(year, month + 1) - MonthStart(year, month) == DaysInMonth(year, month)
  {
    var n := month + 1;
    assert n / 12 == (if month < 11 then 0 else 1) && n % 12 == (if month < 11 then n else 0);
    assert month / 12 == 0 && month % 12 == month;
    NextMonthStart(year, month);
    FirstOfMonthInYear(year, month);
  }

  /** `getMonthBounds`: `new Date(year, month, 1)` and `new Date(year, month + 1, 1)`. */
  function GetMonthBounds(year: int, month: int): (r: (int, int))
    requires 0 <= month < 12
    ensures r.0 == MonthStart(year, month)
    ensures r.1 - r.0 == DaysInMonth(year, month)
    ensures month < 11 ==> r.1 == MonthStart(year, month + 1)
    ensures month == 11 ==> r.1 == MonthStart(year + 1, 0)
  {
    NextMonthBound(year, month);
    FirstOfMonthInYear(year, month);
    (MakeDay(year, month, 1), MakeDay(year, month + 1, 1))
  }
}
