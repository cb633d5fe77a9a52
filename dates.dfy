/**
  Gregorian calendar arithmetic on day ordinals, as Python's `datetime.date`
  does it: day 1 is 0001-01-01, `toordinal` numbers the days consecutively and
  `weekday()` is 0 for Monday through 6 for Sunday.
 */
module Dates {

  /** A calendar date; `ValidDate` says when it is one `datetime.date` accepts. */
  datatype Date = Date(year: int, month: int, day: int)

  predicate IsLeapYear(y: int) {
    y % 4 == 0 && (y % 100 != 0 || y % 400 == 0)
  }

  function DaysInMonth(y: int, m: int): (n: nat)
    requires 1 <= m <= 12
    ensures 28 <= n <= 31
    ensures m == 2 ==> (n == 29 <==> IsLeapYear(y))
  {
    if m == 2 then (if IsLeapYear(y) then 29 else 28)
    else if m == 4 || m == 6 || m == 9 || m == 11 then 30
    else 31
  }

  predicate ValidDate(d: Date) {
    d.year >= 1 && 1 <= d.month <= 12 && 1 <= d.day <= DaysInMonth(d.year, d.month)
  }

  function YearLength(y: int): nat {
    if IsLeapYear(y) then 366 else 365
  }

  /** Days of year `y` before the first of month `m` (m == 13 gives the whole year). */
  function DaysBeforeMonth(y: int, m: int): (n: nat)
    requires 1 <= m <= 13
    ensures m == 1 <==> n == 0
    decreases m
  {
    if m == 1 then 0 else DaysBeforeMonth(y, m - 1) + DaysInMonth(y, m - 1)
  }

  /** Days before 1 January of year `y`, counted from 0001-01-01. */
  function DaysBeforeYear(y: int): int
    requires y >= 1
  {
    365 * (y - 1) + (y - 1) / 4 - (y - 1) / 100 + (y - 1) / 400
  }

  /** Python's `date(y, m, d).toordinal()`; `d` may run past the month, as a day offset. */
  function OrdinalOf(y: int, m: int, d: int): int
    requires y >= 1 && 1 <= m <= 12
  {
    DaysBeforeYear(y) + DaysBeforeMonth(y, m) + d
  }

  function Ordinal(d: Date): int
    requires d.year >= 1 && 1 <= d.month <= 12
  {
    OrdinalOf(d.year, d.month, d.day)
  }

  /** Python's `date.weekday()`: 0 is Monday, 5 and 6 are the weekend. */
  function Weekday(ord: int): (w: int)
    ensures 0 <= w < 7
  {
    (ord + 6) % 7
  }

  function FirstOfMonth(y: int, m: int): int
    requires y >= 1 && 1 <= m <= 12
  {
    OrdinalOf(y, m, 1)
  }

  /**
    The month's last day the way the newer dashboards compute it: the first of
    the next month minus one day, with December written out as the 31st.
   */
  function LastOfMonth(y: int, m: int): int
    requires y >= 1 && 1 <= m <= 12
  {
    if m == 12 then OrdinalOf(y, 12, 31) else OrdinalOf(y, m + 1, 1) - 1
  }

  /**
    The month's last day the way the older scripts compute it: for December,
    1 January of the next year minus one day.
   */
  function LastOfMonthViaNextYear(y: int, m: int): int
    requires y >= 1 && 1 <= m <= 12
  {
    if m == 12 then OrdinalOf(y + 1, 1, 1) - 1 else OrdinalOf(y, m + 1, 1) - 1
  }

  /** Both formulas give the day numbered DaysInMonth of the month. */
  lemma LastOfMonthIsMonthEnd(y: int, m: int)
    requires y >= 1 && 1 <= m <= 12
    ensures LastOfMonth(y, m) == OrdinalOf(y, m, DaysInMonth(y, m))
    ensures LastOfMonth(y, m) == FirstOfMonth(y, m) + DaysInMonth(y, m) - 1
    ensures LastOfMonthViaNextYear(y, m) == LastOfMonth(y, m)
  {
    if m == 12 {
      YearLengthSplits(y);
      DaysBeforeNextYear(y);
    }
  }

  /** The twelve months add up to the year. */
  lemma YearLengthSplits(y: int)
    ensures DaysBeforeMonth(y, 13) == YearLength(y)
  {
    var feb := DaysInMonth(y, 2);
    assert DaysBeforeMonth(y, 3) == 31 + feb;
    assert DaysBeforeMonth(y, 7) == 181 + feb - 28;
    assert DaysBeforeMonth(y, 13) == 365 + feb - 28;
  }

  lemma DaysBeforeNextYear(y: int)
    requires y >= 1
    ensures DaysBeforeYear(y + 1) == DaysBeforeYear(y) + YearLength(y)
  {
    var a := y - 1;
    DivStep4(a);
    DivStep100(a);
    DivStep400(a);
    DivisorsNest(y);
  }

  /** A multiple of 400 is a multiple of 100, and a multiple of 100 is a multiple of 4. */
  lemma DivisorsNest(y: int)
    ensures y % 400 == 0 ==> y % 100 == 0
    ensures y % 100 == 0 ==> y % 4 == 0
  {
    if y % 400 == 0 {
      var q := y / 400;
      assert y == 100 * (4 * q);
    }
    if y % 100 == 0 {
      var q := y / 100;
      assert y == 4 * (25 * q);
    }
  }

  /** Moving from a to a + 1 raises a / 4 by one exactly when 4 divides a + 1; likewise for 100 and 400. */
  lemma DivStep4(a: int)
    requires a >= 0
    ensures (a + 1) / 4 == a / 4 + (if (a + 1) % 4 == 0 then 1 else 0)
  {
    var q := a / 4;
    assert 4 * q <= a < 4 * q + 4;
  }

  lemma DivStep100(a: int)
    requires a >= 0
    ensures (a + 1) / 100 == a / 100 + (if (a + 1) % 100 == 0 then 1 else 0)
  {
    var q := a / 100;
    assert 100 * q <= a < 100 * q + 100;
  }

  lemma DivStep400(a: int)
    requires a >= 0
    ensures (a + 1) / 400 == a / 400 + (if (a + 1) % 400 == 0 then 1 else 0)
  {
    var q := a / 400;
    assert 400 * q <= a < 400 * q + 400;
  }

  lemma {:induction false} DaysBeforeMonthGrows(y: int, m1: int, m2: int)
    requires 1 <= m1 <= m2 <= 13
    ensures DaysBeforeMonth(y, m2) >= DaysBeforeMonth(y, m1) + 28 * (m2 - m1)
    decreases m2 - m1
  {
    if m1 < m2 {
      DaysBeforeMonthGrows(y, m1, m2 - 1);
    }
  }

  /** A valid date lies between the first and the last day of its month. */
  lemma DateInMonth(d: Date)
    requires ValidDate(d)
    ensures FirstOfMonth(d.year, d.month) <= Ordinal(d) <= LastOfMonth(d.year, d.month)
  {
    LastOfMonthIsMonthEnd(d.year, d.month);
  }

  /** An earlier month of the same year ends before a later one begins. */
  lemma MonthsInOrder(y: int, m1: int, m2: int)
    requires y >= 1 && 1 <= m1 < m2 <= 12
    ensures LastOfMonth(y, m1) < FirstOfMonth(y, m2)
  {
    LastOfMonthIsMonthEnd(y, m1);
    DaysBeforeMonthGrows(y, m1 + 1, m2);
  }

  /** Agreement with Python: `date(2026, 10, 14).toordinal()` is 739903, a Wednesday. */
  lemma OrdinalMatchesPython()
    ensures Ordinal(Date(2026, 10, 14)) == 739903
    ensures Weekday(739903) == 2
  {
  }
}
