/**
 * Calendar dates as day numbers.  A date is the proleptic Gregorian
 * ordinal that Python's `date.toordinal()` returns: 0001-01-01 is day 1,
 * and it is a Monday.
 */
module Calendar {
  import Arith

  type Date = int

  /** Python's `date.weekday()`: 0 is Monday, 5 Saturday, 6 Sunday. */
  function Weekday(d: Date): (w: int)
    ensures 0 <= w < 7
  {
    (d + 6) % 7
  }

  predicate IsWeekend(d: Date)
  {
    Weekday(d) == 5 || Weekday(d) == 6
  }

  /** Number of days in the years before year `y` (so day 1 of year `y` is this plus one). */
  function DaysBeforeYear(y: int): int
    requires y >= 1
  {
    var p := y - 1;
    365 * p + p / 4 - p / 100 + p / 400
  }

  lemma {:induction false} YearLength(y: int)
    requires y >= 1
    ensures 365 <= DaysBeforeYear(y + 1) - DaysBeforeYear(y) <= 366
  {
    var p := y - 1;
    Arith.DivStep(p, 4);
    Arith.DivStep(p, 100);
    Arith.DivStep(p, 400);
    if (p + 1) % 100 == 0 {
      var m := (p + 1) / 100;
      assert p + 1 == 100 * m;
      assert p + 1 == 4 * (25 * m);
      assert (p + 1) % 4 == 0;
    }
    if (p + 1) % 400 == 0 {
      var m := (p + 1) / 400;
      assert p + 1 == 400 * m;
      assert p + 1 == 100 * (4 * m);
      assert (p + 1) % 100 == 0;
    }
  }

  /** The year that day `d` falls in, searching upwards from year `y`. */
  function YearFrom(d: Date, y: int): (r: int)
    requires y >= 1 && DaysBeforeYear(y) < d
    ensures r >= y && DaysBeforeYear(r) < d <= DaysBeforeYear(r + 1)
    decreases d - DaysBeforeYear(y)
  {
    YearLength(y);
    if d <= DaysBeforeYear(y + 1) then y else YearFrom(d, y + 1)
  }

  function YearOf(d: Date): (y: int)
    requires d >= 1
    ensures y >= 1 && DaysBeforeYear(y) < d <= DaysBeforeYear(y + 1)
  {
    YearFrom(d, 1)
  }

  lemma {:induction false} DaysBeforeYearGrows(a: int, b: int)
    requires 1 <= a <= b
    ensures DaysBeforeYear(a) + 365 * (b - a) <= DaysBeforeYear(b)
    decreases b - a
  {
    if a < b {
      DaysBeforeYearGrows(a, b - 1);
      YearLength(b - 1);
    }
  }

  /** Every day lies in exactly one year. */
  lemma YearUnique(e: Date, y: int)
    requires y >= 1 && DaysBeforeYear(y) < e <= DaysBeforeYear(y + 1)
    ensures e >= 1 && YearOf(e) == y
  {
    DaysBeforeYearGrows(1, y);
    var r := YearOf(e);
    if r < y {
      DaysBeforeYearGrows(r + 1, y);
    } else if r > y {
      DaysBeforeYearGrows(y + 1, r);
    }
  }

  /** December 31 of the year that day `d` falls in. */
  function YearEnd(d: Date): (e: Date)
    requires d >= 1
    ensures d <= e && YearOf(e) == YearOf(d)
  {
    var y := YearOf(d);
    YearUnique(DaysBeforeYear(y + 1), y);
    DaysBeforeYear(y + 1)
  }
}

/** Year, month and day, as `datetime.date(year, month, day)` takes them. */
module Civil {

  datatype CivilDate = CivilDate(year: int, month: int, day: int)

  predicate IsLeap(y: int)
  {
    y % 4 == 0 && (y % 100 != 0 || y % 400 == 0)
  }

  function DaysInMonth(y: int, m: int): int
    requires 1 <= m <= 12
  {
    if m == 2 then (if IsLeap(y) then 29 else 28)
    else if m == 4 || m == 6 || m == 9 || m == 11 then 30
    else 31
  }

  /** The dates `datetime.date` accepts: years 1 to 9999, real months and days. */
  predicate Valid(c: CivilDate)
  {
    1 <= c.year <= 9999 && 1 <= c.month <= 12 && 1 <= c.day <= DaysInMonth(c.year, c.month)
  }
}
