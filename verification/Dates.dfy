/** Proleptic Gregorian dates as day numbers: day 1 is Monday, January 1 of year 1. */
module Dates {

  function DaysBeforeYear(y: int): int
    requires y >= 1
  {
    365 * (y - 1) + (y - 1) / 4 - (y - 1) / 100 + (y - 1) / 400
  }

  predicate IsLeap(y: int) {
    y % 4 == 0 && (y % 100 != 0 || y % 400 == 0)
  }

  const MONTH_STARTS := [0, 31, 59, 90, 120, 151, 181, 212, 243, 273, 304, 334, 365]

  function DaysBeforeMonth(y: int, m: int): int
    requires 1 <= m <= 13
  {
    MONTH_STARTS[m - 1] + if m > 2 && IsLeap(y) then 1 else 0
  }

  function DaysInMonth(y: int, m: int): int
    requires 1 <= m <= 12
  {
    DaysBeforeMonth(y, m + 1) - DaysBeforeMonth(y, m)
  }

  predicate ValidDate(y: int, m: int, d: int) {
    y >= 1 && 1 <= m <= 12 && 1 <= d <= DaysInMonth(y, m)
  }

  function Day(y: int, m: int, d: int): int
    requires ValidDate(y, m, d)
  {
    DaysBeforeYear(y) + DaysBeforeMonth(y, m) + d
  }

  /** Monday is 0. */
  function Weekday(n: int): int {
    (n + 6) % 7
  }

  lemma YearLength(y: int)
    requires y >= 1
    ensures DaysBeforeYear(y + 1) == DaysBeforeYear(y) + 365 + if IsLeap(y) then 1 else 0
  {
    LeapSteps(y);
  }

  /** Each leap term steps up exactly in the years it divides. */
  lemma LeapSteps(y: int)
    ensures y / 4 - (y - 1) / 4 == if y % 4 == 0 then 1 else 0
    ensures y / 100 - (y - 1) / 100 == if y % 100 == 0 then 1 else 0
    ensures y / 400 - (y - 1) / 400 == if y % 400 == 0 then 1 else 0
    ensures IsLeap(y) <==> y / 4 - (y - 1) / 4 - (y / 100 - (y - 1) / 100) + (y / 400 - (y - 1) / 400) == 1
    ensures !IsLeap(y) <==> y / 4 - (y - 1) / 4 - (y / 100 - (y - 1) / 100) + (y / 400 - (y - 1) / 400) == 0
  {
  }

  predicate InYear(n: int, y: int) {
    y >= 1 && DaysBeforeYear(y) < n <= DaysBeforeYear(y + 1)
  }

  function YearFrom(n: int, y: int): (r: int)
    requires y >= 1 && DaysBeforeYear(y) < n
    ensures r >= y && InYear(n, r)
    decreases n - DaysBeforeYear(y)
  {
    YearLength(y);
    if n <= DaysBeforeYear(y + 1) then y else YearFrom(n, y + 1)
  }

  function YearOf(n: int): (r: int)
    requires n >= 1
    ensures InYear(n, r)
  {
    YearFrom(n, 1)
  }

  lemma {:induction false} YearsAscend(a: int, b: int)
    requires 1 <= a <= b
    ensures DaysBeforeYear(a) + 365 * (b - a) <= DaysBeforeYear(b)
    decreases b - a
  {
    if a < b {
      YearLength(a);
      YearsAscend(a + 1, b);
    }
  }

  /** A day lies in exactly one year. */
  lemma YearUnique(n: int, y: int)
    requires n >= 1 && InYear(n, y)
    ensures YearOf(n) == y
  {
    var r := YearOf(n);
    if r < y {
      YearsAscend(r + 1, y);
    } else if y < r {
      YearsAscend(y + 1, r);
    }
  }

  lemma DayInItsYear(y: int, m: int, d: int)
    requires ValidDate(y, m, d)
    ensures InYear(Day(y, m, d), y) && Day(y, m, d) >= 1
  {
    YearLength(y);
    YearsAscend(1, y);
  }
}
