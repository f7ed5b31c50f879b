/** Recurring US-equity trading calendar. Dates are day numbers; times are minutes of the
    Eastern day. */
module MarketCalendar {
  import opened Common
  import opened Dates

  const REGULAR_SESSION_START := 9 * 60 + 30
  const REGULAR_SESSION_END := 16 * 60
  const EARLY_CLOSE_SESSION_END := 13 * 60

  function ObservedHoliday(n: int): int {
    if Weekday(n) == 5 then n - 1
    else if Weekday(n) == 6 then n + 1
    else n
  }

  function NthWeekday(y: int, m: int, weekday: int, occurrence: int): int
    requires y >= 1 && 1 <= m <= 12
  {
    var first := Day(y, m, 1);
    first + (weekday - Weekday(first)) % 7 + (occurrence - 1) * 7
  }

  function LastWeekday(y: int, m: int, weekday: int): int
    requires y >= 1 && 1 <= m <= 12
  {
    var nextMonth := if m == 12 then Day(y + 1, 1, 1) else Day(y, m + 1, 1);
    var last := nextMonth - 1;
    last - (Weekday(last) - weekday) % 7
  }

  /** The age of the moon and the shift to Sunday that the Easter computation works with. */
  datatype Computus = Computus(a: int, h: int, line: int, m: int)

  function EasterNumbers(y: int): Computus {
    var a := y % 19;
    var b := y / 100;
    var c := y % 100;
    var d := b / 4;
    var e := b % 4;
    var f := (b + 8) / 25;
    var g := (b - f + 1) / 3;
    var h := (19 * a + b - d - g + 15) % 30;
    var i := c / 4;
    var k := c % 4;
    var line := (32 + 2 * e + 2 * i - h - k) % 7;
    var m := (a + 11 * h + 22 * line) / 451;
    Computus(a, h, line, m)
  }

  function EasterMonth(y: int): int {
    var t := EasterNumbers(y);
    (t.h + t.line - 7 * t.m + 114) / 31
  }

  function EasterDay(y: int): int {
    var t := EasterNumbers(y);
    (t.h + t.line - 7 * t.m + 114) % 31 + 1
  }

  /** The date handed to the constructor is always a real one. */
  function EasterSunday(y: int): int
    requires y >= 1
  {
    EasterDateValid(y);
    Day(y, EasterMonth(y), EasterDay(y))
  }

  lemma EasterShift(y: int)
    requires y >= 1
    ensures var t := EasterNumbers(y);
            && 0 <= t.a <= 18 && 0 <= t.h <= 29 && 0 <= t.line <= 6
            && 0 <= t.h + t.line - 7 * t.m <= 34
            && (t.m == 1 <==> t.line == 6 && (t.h == 29 || (t.h == 28 && t.a >= 11)))
            && (t.m == 0 || t.m == 1)
  {
  }

  lemma EasterDateValid(y: int)
    requires y >= 1
    ensures ValidDate(y, EasterMonth(y), EasterDay(y))
    ensures var t := EasterNumbers(y);
            Day(y, EasterMonth(y), EasterDay(y)) == Day(y, 3, 22) + t.h + t.line - 7 * t.m
  {
    EasterShift(y);
    var t := EasterNumbers(y);
    var p := t.h + t.line - 7 * t.m;
    if p <= 9 {
      assert EasterMonth(y) == 3 && EasterDay(y) == 22 + p;
    } else {
      assert EasterMonth(y) == 4 && EasterDay(y) == p - 9;
    }
  }

  function MarketHolidays(y: int): set<int>
    requires y >= 1
  {
    var fixed := {
      ObservedHoliday(Day(y, 7, 4)),
      ObservedHoliday(Day(y, 12, 25)),
      NthWeekday(y, 1, 0, 3),
      NthWeekday(y, 2, 0, 3),
      LastWeekday(y, 5, 0),
      NthWeekday(y, 9, 0, 1),
      NthWeekday(y, 11, 3, 4),
      EasterSunday(y) - 2
    };
    var newYear := Day(y, 1, 1);
    // January 1 on a Saturday is not observed on the Friday before.
    var withNewYear := if Weekday(newYear) != 5 then fixed + {ObservedHoliday(newYear)} else fixed;
    if y >= 2022 then withNewYear + {ObservedHoliday(Day(y, 6, 19))} else withNewYear
  }

  predicate IsTradingDay(n: int)
    requires n >= 1
  {
    Weekday(n) < 5 && n !in MarketHolidays(YearOf(n))
  }

  lemma CandidatesInYear(y: int)
    requires y >= 1
    ensures Day(y, 7, 3) >= 1 && NthWeekday(y, 11, 3, 4) + 1 >= 1 && Day(y, 12, 24) >= 1
  {
    DayInItsYear(y, 1, 1);
  }

  function EarlyCloseSessions(y: int): set<int>
    requires y >= 1
  {
    CandidatesInYear(y);
    set n | n in {Day(y, 7, 3), NthWeekday(y, 11, 3, 4) + 1, Day(y, 12, 24)} && n >= 1 && IsTradingDay(n)
  }

  function RegularSessionEnd(n: int): Option<int>
    requires n >= 1
  {
    if !IsTradingDay(n) then None
    else if n in EarlyCloseSessions(YearOf(n)) then Some(EARLY_CLOSE_SESSION_END)
    else Some(REGULAR_SESSION_END)
  }

  // ---------------------------------------------------------------------------------------
  // The n-th and last weekday of a month are what they are called.
  // ---------------------------------------------------------------------------------------

  lemma NthWeekdayIsNth(y: int, m: int, weekday: int, occurrence: int)
    requires y >= 1 && 1 <= m <= 12 && 0 <= weekday < 7 && 1 <= occurrence <= 4
    ensures var n := NthWeekday(y, m, weekday, occurrence);
            && Weekday(n) == weekday
            && Day(y, m, 1) + 7 * (occurrence - 1) <= n < Day(y, m, 1) + 7 * occurrence
            && n < Day(y, m, 1) + DaysInMonth(y, m)
  {
    WeekdayShift(Day(y, m, 1), weekday, occurrence - 1);
  }

  lemma WeekdayShift(first: int, weekday: int, weeks: int)
    requires 0 <= weekday < 7
    ensures Weekday(first + (weekday - Weekday(first)) % 7 + weeks * 7) == weekday
    ensures Weekday(first - (Weekday(first) - weekday) % 7) == weekday
  {
    WeekdayAfter(first, weekday, weeks);
    WeekdayBefore(first, weekday);
  }

  lemma WeekdayAfter(first: int, weekday: int, weeks: int)
    requires 0 <= weekday < 7
    ensures Weekday(first + (weekday - Weekday(first)) % 7 + weeks * 7) == weekday
  {
    var w, q := Weekday(first), (first + 6) / 7;
    var o := (weekday - w) % 7;
    assert o == if weekday >= w then weekday - w else weekday - w + 7;
    Congruent(first + o + weeks * 7 + 6, q + weeks + (w + o - weekday) / 7, weekday);
  }

  lemma WeekdayBefore(first: int, weekday: int)
    requires 0 <= weekday < 7
    ensures Weekday(first - (Weekday(first) - weekday) % 7) == weekday
  {
    var w, q := Weekday(first), (first + 6) / 7;
    var p := (w - weekday) % 7;
    assert p == if w >= weekday then w - weekday else w - weekday + 7;
    Congruent(first - p + 6, q + (w - p - weekday) / 7, weekday);
  }

  lemma LastWeekdayIsLast(y: int, m: int, weekday: int)
    requires y >= 1 && 1 <= m <= 12 && 0 <= weekday < 7
    ensures var n := LastWeekday(y, m, weekday);
            && Weekday(n) == weekday
            && Day(y, m, 1) + DaysInMonth(y, m) - 7 <= n < Day(y, m, 1) + DaysInMonth(y, m)
  {
    YearLength(y);
    WeekdayShift(Day(y, m, 1) + DaysInMonth(y, m) - 1, weekday, 0);
  }

  // ---------------------------------------------------------------------------------------
  // Easter.
  // ---------------------------------------------------------------------------------------

  lemma LeapForm(y: int)
    requires y >= 1
    ensures Day(y, 3, 22) == 365 * (y - 1) + y / 4 - y / 100 + y / 400 + 81
  {
    LeapSteps(y);
  }

  lemma CenturySplit(y: int)
    requires y >= 1
    ensures var b, c := y / 100, y % 100;
            var d, e, i, k := b / 4, b % 4, c / 4, c % 4;
            y == 400 * d + 100 * e + 4 * i + k && b == 4 * d + e && y / 4 == 100 * d + 25 * e + i && y / 400 == d
  {
    var b, c := y / 100, y % 100;
    var d, e, i, k := b / 4, b % 4, c / 4, c % 4;
    assert y == 100 * b + c && b == 4 * d + e && c == 4 * i + k;
    assert y == 4 * (100 * d + 25 * e + i) + k && 0 <= k < 4;
    assert y == 400 * d + (100 * e + 4 * i + k) && 0 <= 100 * e + 4 * i + k < 400;
  }

  /** The weekday of March 22, with the year split into centuries and leap cycles. */
  lemma MarchWeekday(y: int)
    requires y >= 1
    ensures var b, c := y / 100, y % 100;
            var e, i, k := b % 4, c / 4, c % 4;
            Weekday(Day(y, 3, 22)) == (5 * e + 5 * i + k + 2) % 7
  {
    hide Day;
    LeapForm(y);
    CenturySplit(y);
    var b, c := y / 100, y % 100;
    var d, e, i, k := b / 4, b % 4, c / 4, c % 4;
    Congruent(Day(y, 3, 22) + 6, 20871 * d + 5217 * e + 208 * i + 52 * k - 40, 5 * e + 5 * i + k + 2);
  }

  lemma Congruent(n: int, q: int, r: int)
    requires n == 7 * q + r
    ensures n % 7 == r % 7
  {
    var t := r / 7;
    assert r == 7 * t + r % 7;
    assert n == 7 * (q + t) + r % 7;
  }

  // The ecclesiastical full moon by the church's own tables: the golden number of the lunar
  // cycle, and an epact corrected for dropped leap years and for the drift of the moon.

  function GoldenNumber(y: int): int {
    y % 19 + 1
  }

  function Century(y: int): int {
    y / 100 + 1
  }

  function SolarCorrection(century: int): int {
    3 * century / 4 - 12
  }

  function LunarCorrection(century: int): int {
    (8 * century + 5) / 25 - 5
  }

  function Epact(y: int): int {
    (11 * GoldenNumber(y) + 20 + LunarCorrection(Century(y)) - SolarCorrection(Century(y))) % 30
  }

  /** Two epacts are moved so that no full moon falls twice in one cycle. */
  function CorrectedEpact(y: int): int {
    var e := Epact(y);
    if e == 24 || (e == 25 && GoldenNumber(y) > 11) then e + 1 else e
  }

  /** Days after March 21. */
  function MoonOffset(y: int): int {
    var n := 44 - CorrectedEpact(y);
    (if n < 21 then n + 30 else n) - 21
  }

  function PaschalMoon(y: int): int
    requires y >= 1
  {
    Day(y, 3, 21) + MoonOffset(y)
  }

  /** The algorithm's corrections are the church's, in every century. */
  lemma SolarAgrees(b: int)
    requires b >= 0
    ensures SolarCorrection(b + 1) == b - b / 4 - 12
  {
    var q, r := b / 4, b % 4;
    assert b == 4 * q + r;
    assert 3 * (b + 1) == 4 * (3 * q) + 3 * (r + 1);
    assert 3 * (b + 1) / 4 == 3 * q + 3 * (r + 1) / 4;
  }

  lemma LunarAgrees(b: int)
    requires b >= 0
    ensures LunarCorrection(b + 1) == (b - (b + 8) / 25 + 1) / 3 - 5
  {
    var q, r := b / 25, b % 25;
    assert b == 25 * q + r;
    assert (b + 8) / 25 == q + (r + 8) / 25;
    assert b - (b + 8) / 25 + 1 == 3 * (8 * q) + (r + 1 - (r + 8) / 25);
    assert (b - (b + 8) / 25 + 1) / 3 == 8 * q + (r + 1 - (r + 8) / 25) / 3;
    assert 8 * (b + 1) + 5 == 25 * (8 * q) + (8 * r + 13);
    assert (8 * (b + 1) + 5) / 25 == 8 * q + (8 * r + 13) / 25;
    LunarSteps(r);
  }

  lemma LunarSteps(r: int)
    requires 0 <= r < 25
    ensures (8 * r + 13) / 25 == (r + 1 - (r + 8) / 25) / 3
  {
  }

  /** The algorithm's own number for the moon is the tables', but for the two moved epacts. */
  lemma MoonAgrees(y: int)
    requires y >= 1
    ensures var t := EasterNumbers(y);
            MoonOffset(y) == if t.h == 29 || (t.h == 28 && t.a >= 11) then t.h - 1 else t.h
  {
    var t := EasterNumbers(y);
    var b := y / 100;
    SolarAgrees(b);
    LunarAgrees(b);
    var g := (b - (b + 8) / 25 + 1) / 3;
    EpactComplements(t.a, b - b / 4, g);
    assert t.h == (19 * t.a + (b - b / 4) - g + 15) % 30;
    assert Epact(y) == (11 * t.a + 38 + g - (b - b / 4)) % 30;
  }

  lemma EpactComplements(a: int, solar: int, lunar: int)
    ensures var h, e := (19 * a + solar - lunar + 15) % 30, (11 * a + 38 + lunar - solar) % 30;
            h == if e <= 23 then 23 - e else 53 - e
  {
    var x, z := 19 * a + solar - lunar + 15, 11 * a + 38 + lunar - solar;
    Complements(x, z, a);
  }

  lemma Complements(x: int, z: int, a: int)
    requires x + z == 30 * a + 53
    ensures x % 30 == if z % 30 <= 23 then 23 - z % 30 else 53 - z % 30
  {
    var q := (z / 30);
    var e := z - 30 * q;
    assert 0 <= e < 30 && e == z % 30;
    if e <= 23 {
      assert x == 30 * (a + 1 - q) + (23 - e);
    } else {
      assert x == 30 * (a - q) + (53 - e);
    }
  }

  /** Easter is the first Sunday strictly after the paschal full moon, for every year. */
  lemma EasterIsFirstSundayAfterPaschalMoon(y: int)
    requires y >= 1
    ensures Weekday(EasterSunday(y)) == 6
    ensures PaschalMoon(y) < EasterSunday(y) <= PaschalMoon(y) + 7
    ensures Day(y, 3, 22) <= EasterSunday(y) <= Day(y, 4, 25)
    ensures Day(y, 3, 21) <= PaschalMoon(y) <= Day(y, 4, 18)
  {
    EasterWeekday(y);
    EasterShift(y);
    EasterDateValid(y);
    MoonAgrees(y);
    hide MoonOffset;
    assert Day(y, 4, 18) == Day(y, 3, 21) + 28 && Day(y, 4, 25) == Day(y, 3, 22) + 34 && Day(y, 3, 22) == Day(y, 3, 21) + 1;
    hide EasterNumbers, Day, EasterMonth, EasterDay;
  }

  lemma EasterWeekday(y: int)
    requires y >= 1
    ensures Weekday(EasterSunday(y)) == 6
  {
    MarchWeekday(y);
    EasterDateValid(y);
    LineForm(y);
    var t := EasterNumbers(y);
    hide Day, EasterNumbers, EasterMonth, EasterDay;
    var b, c := y / 100, y % 100;
    var e, i, k := b % 4, c / 4, c % 4;
    SundayShift(Day(y, 3, 22), e, i, k, t.h, t.line, t.m);
  }

  lemma LineForm(y: int)
    requires y >= 1
    ensures var b, c := y / 100, y % 100;
            EasterNumbers(y).line == (32 + 2 * (b % 4) + 2 * (c / 4) - EasterNumbers(y).h - c % 4) % 7
  {
  }

  /** The moon's age cancels: only the year's own weekdays remain, and they come out at Sunday. */
  lemma SundayShift(march: int, e: int, i: int, k: int, h: int, line: int, m: int)
    requires Weekday(march) == (5 * e + 5 * i + k + 2) % 7
    requires line == (32 + 2 * e + 2 * i - h - k) % 7
    ensures Weekday(march + h + line - 7 * m) == 6
  {
    var w, r := (march + 6) / 7, (5 * e + 5 * i + k + 2) / 7;
    var q := (32 + 2 * e + 2 * i - h - k) / 7;
    assert march + 6 == 7 * w + (5 * e + 5 * i + k + 2 - 7 * r);
    assert line == 32 + 2 * e + 2 * i - h - k - 7 * q;
    Congruent(march + h + line - 7 * m + 6, w - r + e + i + 4 - q - m, 6);
  }

  // ---------------------------------------------------------------------------------------
  // Holidays.
  // ---------------------------------------------------------------------------------------

  predicate IsFixedHoliday(y: int, n: int)
    requires y >= 1
  {
    n == Day(y, 1, 1) || n == Day(y, 6, 19) || n == Day(y, 7, 4) || n == Day(y, 12, 25)
  }

  predicate IsFloatingHoliday(y: int, n: int)
    requires y >= 1
  {
    || n == NthWeekday(y, 1, 0, 3) || n == NthWeekday(y, 2, 0, 3) || n == LastWeekday(y, 5, 0)
    || n == NthWeekday(y, 9, 0, 1) || n == NthWeekday(y, 11, 3, 4) || n == EasterSunday(y) - 2
  }

  lemma HolidayCases(y: int, n: int)
    requires y >= 1 && n in MarketHolidays(y)
    ensures IsFloatingHoliday(y, n)
            || (n == ObservedHoliday(Day(y, 1, 1)) && Weekday(Day(y, 1, 1)) != 5)
            || n == ObservedHoliday(Day(y, 6, 19)) || n == ObservedHoliday(Day(y, 7, 4)) || n == ObservedHoliday(Day(y, 12, 25))
  {
  }

  lemma MonthInYear(y: int, m: int, n: int)
    requires y >= 1 && 1 <= m <= 12
    requires Day(y, m, 1) <= n < Day(y, m, 1) + DaysInMonth(y, m)
    ensures InYear(n, y) && n >= 1
  {
    DayInItsYear(y, m, n - Day(y, m, 1) + 1);
  }

  lemma NthWeekdayInYear(y: int, m: int, weekday: int, occurrence: int)
    requires y >= 1 && 1 <= m <= 12 && 0 <= weekday < 7 && 1 <= occurrence <= 4
    ensures var n := NthWeekday(y, m, weekday, occurrence);
            Weekday(n) == weekday && InYear(n, y) && n >= 1
  {
    hide NthWeekday, DaysInMonth, InYear;
    NthWeekdayIsNth(y, m, weekday, occurrence);
    MonthInYear(y, m, NthWeekday(y, m, weekday, occurrence));
  }

  lemma LastMondayInYear(y: int)
    requires y >= 1
    ensures var n := LastWeekday(y, 5, 0);
            Weekday(n) == 0 && InYear(n, y) && n >= 1
  {
    hide LastWeekday, InYear;
    LastWeekdayIsLast(y, 5, 0);
    MonthInYear(y, 5, LastWeekday(y, 5, 0));
  }

  lemma GoodFridayInYear(y: int)
    requires y >= 1
    ensures var n := EasterSunday(y) - 2;
            Weekday(n) == 4 && InYear(n, y) && n >= 1
  {
    hide EasterSunday, InYear, PaschalMoon, DaysBeforeYear;
    EasterIsFirstSundayAfterPaschalMoon(y);
    WeekdaySteps(EasterSunday(y) - 2);
    var n := EasterSunday(y) - 2;
    if n < Day(y, 4, 1) {
      MonthInYear(y, 3, n);
    } else {
      MonthInYear(y, 4, n);
    }
  }

  /** Floating holidays are Mondays, Thursdays or Fridays inside their year. */
  lemma FloatingHolidayPlace(y: int, n: int)
    requires y >= 1 && IsFloatingHoliday(y, n)
    ensures Weekday(n) == 0 || Weekday(n) == 3 || Weekday(n) == 4
    ensures InYear(n, y) && n >= 1
  {
    hide NthWeekday, LastWeekday, EasterSunday, InYear, Weekday;
    NthWeekdayInYear(y, 1, 0, 3);
    NthWeekdayInYear(y, 2, 0, 3);
    NthWeekdayInYear(y, 9, 0, 1);
    NthWeekdayInYear(y, 11, 3, 4);
    LastMondayInYear(y);
    GoodFridayInYear(y);
  }

  lemma YearStartsLate(y: int)
    requires y >= 1
    ensures DaysBeforeYear(y) >= 0
  {
    YearsAscend(1, y);
    assert DaysBeforeYear(1) == 0;
  }

  lemma FixedHolidayPlace(y: int, n: int)
    requires y >= 1
    requires (n == ObservedHoliday(Day(y, 1, 1)) && Weekday(Day(y, 1, 1)) != 5)
             || n == ObservedHoliday(Day(y, 6, 19)) || n == ObservedHoliday(Day(y, 7, 4)) || n == ObservedHoliday(Day(y, 12, 25))
    ensures Weekday(n) < 5 && (1 <= Weekday(n) <= 2 ==> IsFixedHoliday(y, n))
    ensures InYear(n, y) && n >= 1
  {
    YearLength(y);
    YearStartsLate(y);
    hide IsLeap, DaysBeforeYear, Weekday, ObservedHoliday;
    ObservedIsNearest(Day(y, 1, 1));
    ObservedIsNearest(Day(y, 6, 19));
    ObservedIsNearest(Day(y, 7, 4));
    ObservedIsNearest(Day(y, 12, 25));
  }

  /** The observed day is the weekday nearest to the holiday, and midweek it is the holiday. */
  lemma ObservedIsNearest(n: int)
    ensures Weekday(ObservedHoliday(n)) < 5
    ensures n - 1 <= ObservedHoliday(n) <= n + 1
    ensures Weekday(n) != 5 ==> n <= ObservedHoliday(n)
    ensures Weekday(n) < 5 || 1 <= Weekday(ObservedHoliday(n)) <= 2 ==> ObservedHoliday(n) == n
  {
    WeekdaySteps(n - 1);
    WeekdaySteps(n);
  }

  lemma WeekdaySteps(n: int)
    ensures 0 <= Weekday(n) < 7
    ensures Weekday(n + 1) == if Weekday(n) == 6 then 0 else Weekday(n) + 1
    ensures Weekday(n + 2) == (if Weekday(n) >= 5 then Weekday(n) - 5 else Weekday(n) + 2)
  {
    var q := (n + 6) / 7;
    assert n + 6 == 7 * q + Weekday(n);
  }

  lemma DayOfWeekWithin(n: int, weekday: int) returns (d: int)
    requires 0 <= weekday < 7
    ensures n <= d < n + 7 && Weekday(d) == weekday
  {
    d := n + (weekday - Weekday(n)) % 7 + 0 * 7;
    WeekdayShift(n, weekday, 0);
  }

  /** Every observed holiday is a weekday of the year it is listed under. */
  lemma HolidaysAreWeekdaysOfTheirYear(y: int)
    requires y >= 1
    ensures forall n :: n in MarketHolidays(y) ==> InYear(n, y) && Weekday(n) < 5 && n >= 1
  {
    hide MarketHolidays, IsFloatingHoliday, ObservedHoliday, IsLeap, Day;
    forall n | n in MarketHolidays(y)
      ensures InYear(n, y) && Weekday(n) < 5 && n >= 1
    {
      HolidayCases(y, n);
      if IsFloatingHoliday(y, n) {
        FloatingHolidayPlace(y, n);
      } else {
        FixedHolidayPlace(y, n);
      }
    }
  }

  ghost predicate Increasing(s: seq<int>) {
    forall i, j :: 0 <= i < j < |s| ==> s[i] < s[j]
  }

  /** The year's closures in calendar order. */
  function HolidaysInOrder(y: int): seq<int>
    requires y >= 1
  {
    (if Weekday(Day(y, 1, 1)) == 5 then [] else [ObservedHoliday(Day(y, 1, 1))])
    + [NthWeekday(y, 1, 0, 3), NthWeekday(y, 2, 0, 3), EasterSunday(y) - 2, LastWeekday(y, 5, 0)]
    + (if y >= 2022 then [ObservedHoliday(Day(y, 6, 19))] else [])
    + [ObservedHoliday(Day(y, 7, 4)), NthWeekday(y, 9, 0, 1), NthWeekday(y, 11, 3, 4), ObservedHoliday(Day(y, 12, 25))]
  }

  lemma HolidayOrder(y: int)
    requires y >= 1
    ensures Increasing(HolidaysInOrder(y))
  {
    hide NthWeekday, LastWeekday, EasterSunday, PaschalMoon, IsLeap, DaysBeforeYear, Weekday, ObservedHoliday;
    NthWeekdayIsNth(y, 1, 0, 3);
    NthWeekdayIsNth(y, 2, 0, 3);
    NthWeekdayIsNth(y, 9, 0, 1);
    NthWeekdayIsNth(y, 11, 3, 4);
    LastWeekdayIsLast(y, 5, 0);
    EasterIsFirstSundayAfterPaschalMoon(y);
    ObservedIsNearest(Day(y, 1, 1));
    ObservedIsNearest(Day(y, 6, 19));
    ObservedIsNearest(Day(y, 7, 4));
    ObservedIsNearest(Day(y, 12, 25));
  }

  lemma {:induction false} IncreasingCount(s: seq<int>)
    requires Increasing(s)
    ensures |set n | n in s| == |s|
  {
    if s != [] {
      var rest := s[1..];
      IncreasingCount(rest);
      assert s == [s[0]] + rest;
      assert s[0] !in rest;
      assert (set n | n in s) == {s[0]} + (set n | n in rest);
    }
  }

  /** No two rules ever name the same day: eight closures a year, one more when New Year's Day
      is observed, one more from 2022 on. */
  lemma HolidayCount(y: int)
    requires y >= 1
    ensures |MarketHolidays(y)| ==
            8 + (if Weekday(Day(y, 1, 1)) == 5 then 0 else 1) + (if y >= 2022 then 1 else 0)
    ensures forall n :: n in MarketHolidays(y) <==> n in HolidaysInOrder(y)
  {
    HolidayOrder(y);
    IncreasingCount(HolidaysInOrder(y));
    hide NthWeekday, LastWeekday, EasterSunday, Weekday, ObservedHoliday, Day;
    assert MarketHolidays(y) == set n | n in HolidaysInOrder(y);
  }

  /** Only the unmoved fixed dates can fall on a Tuesday or a Wednesday. */
  lemma MidweekHolidaysAreFixed(y: int, n: int)
    requires y >= 1 && n in MarketHolidays(y) && 1 <= Weekday(n) <= 2
    ensures IsFixedHoliday(y, n)
  {
    hide MarketHolidays, IsFloatingHoliday, ObservedHoliday, IsLeap, Day;
    HolidayCases(y, n);
    if IsFloatingHoliday(y, n) {
      FloatingHolidayPlace(y, n);
    } else {
      FixedHolidayPlace(y, n);
    }
  }

  /** Fixed holidays lie at least a week apart, across the turn of the year as well. */
  lemma FixedHolidaysAreAWeekApart(y: int, n: int, z: int, k: int)
    requires y >= 1 && z >= 1 && IsFixedHoliday(y, n) && IsFixedHoliday(z, k) && n < k
    ensures n + 7 <= k
  {
    hide DaysBeforeYear, IsLeap;
    YearLength(y);
    YearLength(z);
    if y < z {
      YearsAscend(y + 1, z);
    } else if z < y {
      YearsAscend(z + 1, y);
    }
  }

  /** Any seven consecutive days contain a trading day. */
  lemma SevenDaysTrade(n: int)
    requires n >= 1
    ensures exists d :: n <= d < n + 7 && IsTradingDay(d)
  {
    hide MarketHolidays, YearOf, IsFixedHoliday, Weekday;
    var t := DayOfWeekWithin(n, 1);
    var w := DayOfWeekWithin(n, 2);
    if !IsTradingDay(t) && !IsTradingDay(w) {
      MidweekHolidaysAreFixed(YearOf(t), t);
      MidweekHolidaysAreFixed(YearOf(w), w);
      if t < w {
        FixedHolidaysAreAWeekApart(YearOf(t), t, YearOf(w), w);
      } else {
        FixedHolidaysAreAWeekApart(YearOf(w), w, YearOf(t), t);
      }
      assert false;
    }
  }

  /** The day after Thanksgiving is always an early close, never a holiday. */
  lemma DayAfterThanksgivingClosesEarly(y: int)
    requires y >= 1
    ensures var n := NthWeekday(y, 11, 3, 4) + 1;
            n >= 1 && RegularSessionEnd(n) == Some(EARLY_CLOSE_SESSION_END)
  {
    var n := NthWeekday(y, 11, 3, 4) + 1;
    CandidatesInYear(y);
    FridayAfterThanksgiving(y);
    assert n in EarlyCloseSessions(y) && RegularSessionEnd(n) == Some(EARLY_CLOSE_SESSION_END) by {
      hide MarketHolidays, YearOf, NthWeekday, Day, Weekday;
    }
  }

  lemma FridayAfterThanksgiving(y: int)
    requires y >= 1
    ensures var n := NthWeekday(y, 11, 3, 4) + 1;
            n >= 1 && YearOf(n) == y && Weekday(n) == 4 && n !in MarketHolidays(y)
  {
    var n := NthWeekday(y, 11, 3, 4) + 1;
    NovemberFriday(y);
    YearUnique(n, y);
    if n in MarketHolidays(y) {
      hide MarketHolidays, YearOf, Weekday;
      HolidayCases(y, n);
      NotThatFriday(y, n);
      assert false;
    }
  }

  lemma NovemberFriday(y: int)
    requires y >= 1
    ensures var n := NthWeekday(y, 11, 3, 4) + 1;
            Weekday(n) == 4 && n >= 1 && InYear(n, y) && Day(y, 11, 1) + 22 <= n <= Day(y, 11, 1) + 28
  {
    NthWeekdayIsNth(y, 11, 3, 4);
    YearLength(y);
    YearStartsLate(y);
    WeekdaySteps(NthWeekday(y, 11, 3, 4));
    hide NthWeekday, IsLeap, DaysBeforeYear, Weekday;
  }

  /** No holiday is a Friday between the 23rd and the 29th of November. */
  lemma NotThatFriday(y: int, n: int)
    requires y >= 1 && Day(y, 11, 1) + 22 <= n <= Day(y, 11, 1) + 28 && n == NthWeekday(y, 11, 3, 4) + 1
    ensures !IsFloatingHoliday(y, n)
    ensures n != ObservedHoliday(Day(y, 1, 1)) && n != ObservedHoliday(Day(y, 6, 19))
    ensures n != ObservedHoliday(Day(y, 7, 4)) && n != ObservedHoliday(Day(y, 12, 25))
  {
    hide NthWeekday, LastWeekday, EasterSunday, PaschalMoon, IsLeap, DaysBeforeYear, Weekday;
    NthWeekdayIsNth(y, 1, 0, 3);
    NthWeekdayIsNth(y, 2, 0, 3);
    NthWeekdayIsNth(y, 9, 0, 1);
    LastWeekdayIsLast(y, 5, 0);
    EasterIsFirstSundayAfterPaschalMoon(y);
  }

  // ---------------------------------------------------------------------------------------
  // Trading days and their ends, read off the dates alone.
  // ---------------------------------------------------------------------------------------

  /** The weekday nearest to the date. */
  ghost predicate ObservedOn(n: int, date: int) {
    || (n == date && Weekday(n) < 5)
    || (n == date + 1 && Weekday(n) == 0)
    || (n == date - 1 && Weekday(n) == 4)
  }

  /** The third Monday of a month lies from the 15th to the 21st, and so on; Good Friday is two
      days before the Sunday that follows the paschal moon. */
  ghost predicate FloatsTo(n: int, y: int)
    requires y >= 1
  {
    || (Weekday(n) == 0 && Day(y, 1, 15) <= n <= Day(y, 1, 21))
    || (Weekday(n) == 0 && Day(y, 2, 15) <= n <= Day(y, 2, 21))
    || (Weekday(n) == 0 && Day(y, 5, 25) <= n <= Day(y, 5, 31))
    || (Weekday(n) == 0 && Day(y, 9, 1) <= n <= Day(y, 9, 7))
    || (Weekday(n) == 3 && Day(y, 11, 22) <= n <= Day(y, 11, 28))
    || (Weekday(n) == 4 && PaschalMoon(y) < n + 2 <= PaschalMoon(y) + 7)
  }

  ghost predicate ClosedFor(n: int, y: int)
    requires y >= 1
  {
    || FloatsTo(n, y)
    || (ObservedOn(n, Day(y, 1, 1)) && n >= Day(y, 1, 1))
    || (ObservedOn(n, Day(y, 6, 19)) && y >= 2022)
    || ObservedOn(n, Day(y, 7, 4))
    || ObservedOn(n, Day(y, 12, 25))
  }

  /** A weekday for which no year has a closure. */
  ghost predicate Trades(n: int) {
    Weekday(n) < 5 && forall y :: y >= 1 ==> !ClosedFor(n, y)
  }

  /** July 3, December 24, and the Friday after the fourth Thursday of November. */
  ghost predicate ShortFor(n: int, y: int)
    requires y >= 1
  {
    n == Day(y, 7, 3) || n == Day(y, 12, 24) || (Weekday(n) == 4 && Day(y, 11, 23) <= n <= Day(y, 11, 29))
  }

  ghost predicate IsShort(n: int) {
    exists y :: y >= 1 && ShortFor(n, y)
  }

  /** One o'clock or four o'clock. */
  ghost function ClosingMinute(n: int): int {
    if IsShort(n) then 780 else 960
  }

  lemma SameWeekdayInAWeek(a: int, b: int)
    requires Weekday(a) == Weekday(b) && -7 < a - b < 7
    ensures a == b
  {
  }

  lemma NthWeekdayIff(y: int, m: int, weekday: int, occurrence: int, n: int)
    requires y >= 1 && 1 <= m <= 12 && 0 <= weekday < 7 && 1 <= occurrence <= 4
    ensures n == NthWeekday(y, m, weekday, occurrence) <==>
            Weekday(n) == weekday && Day(y, m, 7 * occurrence - 6) <= n <= Day(y, m, 7 * occurrence)
  {
    NthWeekdayIsNth(y, m, weekday, occurrence);
    hide NthWeekday, Weekday;
    if Weekday(n) == weekday && Day(y, m, 7 * occurrence - 6) <= n <= Day(y, m, 7 * occurrence) {
      SameWeekdayInAWeek(n, NthWeekday(y, m, weekday, occurrence));
    }
  }

  lemma LastMondayIff(y: int, n: int)
    requires y >= 1
    ensures n == LastWeekday(y, 5, 0) <==> Weekday(n) == 0 && Day(y, 5, 25) <= n <= Day(y, 5, 31)
  {
    LastWeekdayIsLast(y, 5, 0);
    hide LastWeekday, Weekday;
    if Weekday(n) == 0 && Day(y, 5, 25) <= n <= Day(y, 5, 31) {
      SameWeekdayInAWeek(n, LastWeekday(y, 5, 0));
    }
  }

  lemma TwoDaysBefore(n: int, sunday: int, moon: int)
    requires Weekday(sunday) == 6 && moon < sunday <= moon + 7
    ensures n == sunday - 2 <==> Weekday(n) == 4 && moon < n + 2 <= moon + 7
  {
    WeekdaySteps(n);
    WeekdaySteps(sunday - 2);
    hide Weekday;
    if Weekday(n) == 4 && moon < n + 2 <= moon + 7 {
      SameWeekdayInAWeek(n + 2, sunday);
    }
  }

  lemma GoodFridayIff(y: int, n: int)
    requires y >= 1
    ensures n == EasterSunday(y) - 2 <==> Weekday(n) == 4 && PaschalMoon(y) < n + 2 <= PaschalMoon(y) + 7
  {
    hide EasterSunday, PaschalMoon, Weekday, Day;
    EasterIsFirstSundayAfterPaschalMoon(y);
    TwoDaysBefore(n, EasterSunday(y), PaschalMoon(y));
  }

  lemma FloatsToIff(y: int, n: int)
    requires y >= 1
    ensures FloatsTo(n, y) <==> IsFloatingHoliday(y, n)
  {
    hide NthWeekday, LastWeekday, EasterSunday, PaschalMoon, Weekday, Day;
    NthWeekdayIff(y, 1, 0, 3, n);
    NthWeekdayIff(y, 2, 0, 3, n);
    NthWeekdayIff(y, 9, 0, 1, n);
    NthWeekdayIff(y, 11, 3, 4, n);
    LastMondayIff(y, n);
    GoodFridayIff(y, n);
  }

  lemma ObservedIff(date: int, n: int)
    ensures n == ObservedHoliday(date) <==> ObservedOn(n, date)
    ensures n == ObservedHoliday(date) && Weekday(date) != 5 <==> ObservedOn(n, date) && n >= date
  {
    WeekdaySteps(date - 1);
    WeekdaySteps(date);
  }

  /** The closures listed for a year, read off the calendar. */
  lemma ClosuresByDate(y: int, n: int)
    requires y >= 1
    ensures n in MarketHolidays(y) <==> ClosedFor(n, y)
  {
    hide NthWeekday, LastWeekday, EasterSunday, PaschalMoon, Weekday, Day, FloatsTo, ObservedOn, ObservedHoliday;
    FloatsToIff(y, n);
    ObservedIff(Day(y, 1, 1), n);
    ObservedIff(Day(y, 6, 19), n);
    ObservedIff(Day(y, 7, 4), n);
    ObservedIff(Day(y, 12, 25), n);
  }

  /** Trading days are the weekdays without a closure, whichever year would have it. */
  lemma TradingDaysByDate(n: int)
    requires n >= 1
    ensures IsTradingDay(n) <==> Trades(n)
  {
    hide MarketHolidays, ClosedFor, Weekday, YearOf;
    ClosuresByDate(YearOf(n), n);
    forall y | y >= 1 && ClosedFor(n, y)
      ensures y == YearOf(n)
    {
      ClosuresByDate(y, n);
      HolidaysAreWeekdaysOfTheirYear(y);
      YearUnique(n, y);
    }
  }

  lemma ShortDayInItsYear(y: int, n: int)
    requires y >= 1 && ShortFor(n, y)
    ensures n >= 1 && InYear(n, y)
  {
    hide Weekday;
    YearLength(y);
    YearStartsLate(y);
  }

  lemma EarlyClosesByDate(y: int, n: int)
    requires y >= 1 && n >= 1
    ensures n in EarlyCloseSessions(y) <==> IsTradingDay(n) && ShortFor(n, y)
  {
    hide NthWeekday, Weekday, IsTradingDay, DaysBeforeYear, IsLeap;
    CandidatesInYear(y);
    NthWeekdayIff(y, 11, 3, 4, n - 1);
    WeekdaySteps(n - 1);
  }

  /** A trading day ends at one o'clock on July 3, December 24 and the day after Thanksgiving,
      and at four o'clock on every other; no other day has an end. */
  lemma SessionEndsByDate(n: int)
    requires n >= 1
    ensures RegularSessionEnd(n) == if !Trades(n) then None else if IsShort(n) then Some(780) else Some(960)
  {
    hide EarlyCloseSessions, ShortFor, IsTradingDay, Trades, YearOf;
    TradingDaysByDate(n);
    EarlyClosesByDate(YearOf(n), n);
    forall y | y >= 1 && ShortFor(n, y)
      ensures y == YearOf(n)
    {
      ShortDayInItsYear(y, n);
      YearUnique(n, y);
    }
  }

  // ---------------------------------------------------------------------------------------
  // The latest completed session.
  // ---------------------------------------------------------------------------------------

  /** Trading day `d` has closed by Eastern minute `minute` of day `today`. */
  ghost predicate HasClosed(d: int, today: int, minute: int) {
    Trades(d) && (d < today || (d == today && ClosingMinute(d) <= minute))
  }

  /** Walks back from the given Eastern day. None is the calendar's own underflow, before the
      first representable trading day has closed. */
  method LatestCompletedSession(today: int, minute: int) returns (session: Option<int>)
    requires today >= 1
    ensures session.Some? ==> session.value >= 1 && HasClosed(session.value, today, minute)
    ensures session.Some? ==> forall d :: d > session.value ==> !HasClosed(d, today, minute)
    ensures session.Some? ==> today - 7 <= session.value <= today
    ensures session.None? ==> forall d :: d >= 1 ==> !HasClosed(d, today, minute)
  {
    hide MarketHolidays, EarlyCloseSessions, YearOf, Weekday, Trades, IsShort, RegularSessionEnd, IsTradingDay;
    var candidate := today;
    var sessionEnd := RegularSessionEnd(candidate);
    SessionEndsByDate(candidate);
    forall d | d >= 1
      ensures IsTradingDay(d) <==> Trades(d)
    {
      TradingDaysByDate(d);
    }
    if sessionEnd.None? || minute < sessionEnd.value {
      candidate := candidate - 1;
    }
    ghost var start := candidate;
    while true
      invariant 0 <= candidate <= start <= today
      invariant forall d :: candidate < d && 1 <= d ==> !HasClosed(d, today, minute)
      invariant forall d :: candidate < d <= start ==> !IsTradingDay(d)
      decreases candidate
    {
      if candidate < 1 {
        return None;
      }
      if IsTradingDay(candidate) {
        break;
      }
      candidate := candidate - 1;
    }
    if candidate + 7 <= start {
      SevenDaysTrade(candidate + 1);
      assert false;
    }
    return Some(candidate);
  }

  /** The answer to the same question, whoever computed it. */
  ghost predicate IsLatest(session: Option<int>, today: int, minute: int) {
    if session.Some? then
      && session.value >= 1 && HasClosed(session.value, today, minute)
      && (forall d :: d > session.value ==> !HasClosed(d, today, minute))
    else
      forall d :: d >= 1 ==> !HasClosed(d, today, minute)
  }

  /** Later instants never have an earlier latest session, and an instant has only one. */
  lemma LatestIsMonotone(s: Option<int>, today: int, minute: int, t: Option<int>, later: int, laterMinute: int)
    requires IsLatest(s, today, minute) && IsLatest(t, later, laterMinute)
    requires today < later || (today == later && minute <= laterMinute)
    ensures s.Some? ==> t.Some? && s.value <= t.value
    ensures today == later && minute == laterMinute ==> s == t
  {
    hide Trades, ClosingMinute;
    if s.Some? {
      assert HasClosed(s.value, later, laterMinute);
    }
    if t.Some? && today == later && minute == laterMinute {
      assert HasClosed(t.value, today, minute);
    }
  }
}
