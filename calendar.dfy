/** Proleptic Gregorian calendar arithmetic, in the terms Python's `datetime`
    uses: day number 0 is 0001-01-01 (`date.toordinal() - 1`), a year is split
    into 400-, 100-, 4- and 1-year cycles exactly as CPython's `_ord2ymd` does. */
module Calendar {

  predicate IsLeapYear(y: int) {
    y % 4 == 0 && (y % 100 != 0 || y % 400 == 0)
  }

  function DaysInYear(y: int): nat {
    if IsLeapYear(y) then 366 else 365
  }

  function DaysInMonth(y: int, m: int): nat
    requires 1 <= m <= 12
  {
    if m == 2 then (if IsLeapYear(y) then 29 else 28)
    else if m == 4 || m == 6 || m == 9 || m == 11 then 30
    else 31
  }

  /** Days in the months of year `y` before month `m` (`m == 13`: the whole year). */
  function DaysBeforeMonth(y: int, m: int): nat
    requires 1 <= m <= 13
  {
    if m == 1 then 0 else DaysBeforeMonth(y, m - 1) + DaysInMonth(y, m - 1)
  }

  /** Days from 0001-01-01 to the first day of year `y`. */
  function DaysBeforeYear(y: int): int {
    var p := y - 1;
    365 * p + p / 4 - p / 100 + p / 400
  }

  predicate ValidDate(y: int, m: int, d: int) {
    1 <= m <= 12 && 1 <= d <= DaysInMonth(y, m)
  }

  /** Day number of a date: days since 0001-01-01. */
  function DayNumber(y: int, m: int, d: int): int
    requires 1 <= m <= 12
  {
    DaysBeforeYear(y) + DaysBeforeMonth(y, m) + d - 1
  }

  /** Year and day-of-year (from 0) of a day number, by 400/100/4/1-year cycles. */
  function YearAndDay(n: int): (int, int) {
    var n400 := n / 146097;
    var r400 := n % 146097;
    var n100 := if r400 / 36524 > 3 then 3 else r400 / 36524;
    var r100 := r400 - 36524 * n100;
    var n4 := r100 / 1461;
    var r4 := r100 % 1461;
    var n1 := if r4 / 365 > 3 then 3 else r4 / 365;
    var r1 := r4 - 365 * n1;
    (400 * n400 + 100 * n100 + 4 * n4 + n1 + 1, r1)
  }

  /** Month and day of the `doy`-th day (from 0) of year `y`, searching from month `m`. */
  function MonthAndDay(y: int, doy: int, m: int): (md: (int, int))
    requires 1 <= m <= 12
    requires DaysBeforeMonth(y, m) <= doy < DaysInYear(y)
    ensures 1 <= md.0 <= 12 && 1 <= md.1 <= DaysInMonth(y, md.0)
    ensures DaysBeforeMonth(y, md.0) + md.1 - 1 == doy
    decreases 12 - m
  {
    WholeYear(y);
    if m == 12 || doy < DaysBeforeMonth(y, m + 1) then (m, doy - DaysBeforeMonth(y, m) + 1)
    else MonthAndDay(y, doy, m + 1)
  }

  /** The date of a day number (`date.fromordinal(n + 1)`). */
  function CivilFromDays(n: int): (date: (int, int, int))
    ensures ValidDate(date.0, date.1, date.2)
    ensures DayNumber(date.0, date.1, date.2) == n
  {
    YearAndDayCorrect(n);
    var (y, doy) := YearAndDay(n);
    var (m, d) := MonthAndDay(y, doy, 1);
    (y, m, d)
  }

  // ---------------------------------------------------------------------
  // Lemmas

  lemma WholeYear(y: int)
    ensures DaysBeforeMonth(y, 13) == DaysInYear(y)
  {
    var l := if IsLeapYear(y) then 1 else 0;
    assert DaysBeforeMonth(y, 2) == 31;
    assert DaysBeforeMonth(y, 3) == 59 + l;
    assert DaysBeforeMonth(y, 4) == 90 + l;
    assert DaysBeforeMonth(y, 5) == 120 + l;
    assert DaysBeforeMonth(y, 6) == 151 + l;
    assert DaysBeforeMonth(y, 7) == 181 + l;
    assert DaysBeforeMonth(y, 8) == 212 + l;
    assert DaysBeforeMonth(y, 9) == 243 + l;
    assert DaysBeforeMonth(y, 10) == 273 + l;
    assert DaysBeforeMonth(y, 11) == 304 + l;
    assert DaysBeforeMonth(y, 12) == 334 + l;
    assert DaysBeforeMonth(y, 13) == 365 + l;
  }

  lemma {:induction false} DaysBeforeMonthMono(y: int, m1: int, m2: int)
    requires 1 <= m1 <= m2 <= 13
    ensures DaysBeforeMonth(y, m1) <= DaysBeforeMonth(y, m2)
    decreases m2 - m1
  {
    if m1 < m2 {
      DaysBeforeMonthMono(y, m1, m2 - 1);
    }
  }

  /** Consecutive years are `DaysInYear` apart. */
  lemma NextYear(y: int)
    ensures DaysBeforeYear(y + 1) == DaysBeforeYear(y) + DaysInYear(y)
  {
    var p := y - 1;
    DivisionStep4(p);
    DivisionStep100(p);
    DivisionStep400(p);
    MultipleChain(y);
  }

  lemma MultipleChain(y: int)
    ensures y % 400 == 0 ==> y % 100 == 0
    ensures y % 100 == 0 ==> y % 4 == 0
  {
  }

  lemma DivisionStep4(p: int)
    ensures (p + 1) / 4 == p / 4 + (if (p + 1) % 4 == 0 then 1 else 0)
  {
  }

  lemma DivisionStep100(p: int)
    ensures (p + 1) / 100 == p / 100 + (if (p + 1) % 100 == 0 then 1 else 0)
  {
  }

  lemma DivisionStep400(p: int)
    ensures (p + 1) / 400 == p / 400 + (if (p + 1) % 400 == 0 then 1 else 0)
  {
  }

  lemma {:induction false} DaysBeforeYearMono(y1: int, y2: int)
    requires y1 < y2
    ensures DaysBeforeYear(y1) + DaysInYear(y1) <= DaysBeforeYear(y2)
    decreases y2 - y1
  {
    NextYear(y1);
    if y1 + 1 < y2 {
      DaysBeforeYearMono(y1 + 1, y2);
    }
  }

  /** Dividing a year count written in 400/100/4/1-year cycles. */
  lemma CycleDivisions(a: int, b: int, c: int, e: int)
    requires 0 <= b <= 3 && 0 <= c <= 24 && 0 <= e <= 3
    ensures var p := 400 * a + 100 * b + 4 * c + e;
      p / 4 == 100 * a + 25 * b + c && p / 100 == 4 * a + b && p / 400 == a
  {
    var p := 400 * a + 100 * b + 4 * c + e;
    assert p == 4 * (100 * a + 25 * b + c) + e;
    assert p == 100 * (4 * a + b) + (4 * c + e);
    assert p == 400 * a + (100 * b + 4 * c + e);
  }

  /** The days before a year written in cycles. */
  lemma CycleDays(a: int, b: int, c: int, e: int)
    requires 0 <= b <= 3 && 0 <= c <= 24 && 0 <= e <= 3
    ensures DaysBeforeYear(400 * a + 100 * b + 4 * c + e + 1) == 146097 * a + 36524 * b + 1461 * c + 365 * e
  {
    CycleDivisions(a, b, c, e);
  }

  /** The last year of a 4-year cycle is a leap year unless it ends a
      century that is not a multiple of 400. */
  lemma CycleLeap(a: int, b: int, c: int)
    requires 0 <= b <= 3 && 0 <= c <= 24
    requires c < 24 || b == 3
    ensures IsLeapYear(400 * a + 100 * b + 4 * c + 4)
  {
    var y := 400 * a + 100 * b + 4 * c + 4;
    assert y == 4 * (100 * a + 25 * b + c + 1);
    if c < 24 {
      assert y == 100 * (4 * a + b) + (4 * c + 4);
    } else {
      assert y == 400 * (a + 1);
    }
  }

  /** The cycle decomposition finds the year holding day `n`. */
  lemma YearAndDayCorrect(n: int)
    ensures var (y, doy) := YearAndDay(n);
      0 <= doy < DaysInYear(y) && DaysBeforeYear(y) + doy == n
  {
    var n400 := n / 146097;
    var r400 := n % 146097;
    var n100 := if r400 / 36524 > 3 then 3 else r400 / 36524;
    var r100 := r400 - 36524 * n100;
    var n4 := r100 / 1461;
    var r4 := r100 % 1461;
    var n1 := if r4 / 365 > 3 then 3 else r4 / 365;
    var r1 := r4 - 365 * n1;
    assert 0 <= r100 <= 36524;
    assert n100 < 3 ==> r100 < 36524;
    assert 0 <= n4 <= 24;
    assert n == 146097 * n400 + 36524 * n100 + 1461 * n4 + 365 * n1 + r1;
    CycleDays(n400, n100, n4, n1);
    if n1 == 3 {
      assert n4 == 24 && n100 < 3 ==> r4 < 1460;
      if n4 < 24 || n100 == 3 {
        CycleLeap(n400, n100, n4);
      }
    }
  }

  /** Later dates have larger day numbers. */
  lemma DayNumberStrictlyMonotone(y1: int, m1: int, d1: int, y2: int, m2: int, d2: int)
    requires ValidDate(y1, m1, d1) && ValidDate(y2, m2, d2)
    requires y1 < y2 || (y1 == y2 && (m1 < m2 || (m1 == m2 && d1 < d2)))
    ensures DayNumber(y1, m1, d1) < DayNumber(y2, m2, d2)
  {
    DaysBeforeMonthMono(y1, m1 + 1, 13);
    WholeYear(y1);
    if y1 < y2 {
      DaysBeforeYearMono(y1, y2);
    } else if m1 < m2 {
      DaysBeforeMonthMono(y1, m1 + 1, m2);
    }
  }

  /** Day numbers and dates are in one-to-one correspondence. */
  lemma DateRoundTrip(y: int, m: int, d: int)
    requires ValidDate(y, m, d)
    ensures CivilFromDays(DayNumber(y, m, d)) == (y, m, d)
  {
    var (y2, m2, d2) := CivilFromDays(DayNumber(y, m, d));
    if (y2, m2, d2) != (y, m, d) {
      if y < y2 || (y == y2 && (m < m2 || (m == m2 && d < d2))) {
        DayNumberStrictlyMonotone(y, m, d, y2, m2, d2);
      } else {
        DayNumberStrictlyMonotone(y2, m2, d2, y, m, d);
      }
    }
  }
}
