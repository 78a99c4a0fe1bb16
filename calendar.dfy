/** Calendar dates in the proleptic Gregorian calendar, with the day count and
    weekday that Python's `datetime.date` provides (`toordinal`, `weekday`).
    Day 1 is 0001-01-01, a Monday; `weekday` numbers Monday as 0. */
module Calendar {

  datatype Date = Date(year: int, month: int, day: int)

  /** The year range of Python's `datetime.date` (MINYEAR, MAXYEAR). */
  const MinYear: int := 1
  const MaxYear: int := 9999

  predicate IsLeapYear(year: int) {
    year % 4 == 0 && (year % 100 != 0 || year % 400 == 0)
  }

  function DaysInYear(year: int): int {
    if IsLeapYear(year) then 366 else 365
  }

  function DaysInMonth(year: int, month: int): (n: int)
    requires 1 <= month <= 12
    ensures 28 <= n <= 31
    ensures month == 2 ==> (n == 29 <==> IsLeapYear(year))
  {
    if month == 2 then (if IsLeapYear(year) then 29 else 28)
    else if month == 4 || month == 6 || month == 9 || month == 11 then 30
    else 31
  }

  /** A date `datetime.date` accepts: a year in range, a month 1..12 and a day
      that exists in that month of that year. */
  predicate Valid(d: Date) {
    && MinYear <= d.year <= MaxYear
    && 1 <= d.month <= 12
    && 1 <= d.day <= DaysInMonth(d.year, d.month)
  }

  /** Number of days in the years before `year`: the lengths of years
      1 .. year - 1 added up. */
  function DaysBeforeYear(year: int): (n: int)
    requires year >= 1
    ensures n >= 365 * (year - 1)
  {
    if year == 1 then 0 else DaysBeforeYear(year - 1) + DaysInYear(year - 1)
  }

  /** Number of days in the months of `year` before `month`, from the
      cumulative table of a common year, plus one after February of a leap year. */
  function DaysBeforeMonth(year: int, month: int): (n: int)
    requires 1 <= month <= 12
    ensures 0 <= n <= 335
  {
    var table := [0, 31, 59, 90, 120, 151, 181, 212, 243, 273, 304, 334];
    table[month - 1] + (if month > 2 && IsLeapYear(year) then 1 else 0)
  }

  /** Proleptic Gregorian ordinal: 0001-01-01 is day 1. */
  function Ordinal(d: Date): (n: int)
    requires Valid(d)
    ensures n >= 1
  {
    DaysBeforeYear(d.year) + DaysBeforeMonth(d.year, d.month) + d.day
  }

  /** Day of the week, Monday == 0 through Sunday == 6. */
  function WeekdayOf(d: Date): (w: int)
    requires Valid(d)
    ensures 0 <= w <= 6
  {
    (Ordinal(d) + 6) % 7
  }

  const LastDate: Date := Date(MaxYear, 12, 31)

  /** The calendar day after `d`. */
  function NextDay(d: Date): (e: Date)
    requires Valid(d) && d != LastDate
    ensures Valid(e)
    ensures e.year == d.year || (e.year == d.year + 1 && e.month == 1 && e.day == 1)
  {
    if d.day < DaysInMonth(d.year, d.month) then Date(d.year, d.month, d.day + 1)
    else if d.month < 12 then Date(d.year, d.month + 1, 1)
    else Date(d.year + 1, 1, 1)
  }

  /** Going from one month to the next adds the length of the month. */
  lemma DaysBeforeMonthStep(year: int, month: int)
    requires 1 <= month < 12
    ensures DaysBeforeMonth(year, month + 1) == DaysBeforeMonth(year, month) + DaysInMonth(year, month)
  {
  }

  /** The year count agrees with the leap-year formula the day count of
      `datetime.date` uses: 365 days a year, plus one for every fourth year,
      minus one for every hundredth, plus one for every four-hundredth. */
  lemma {:induction false} DaysBeforeYearFormula(year: int)
    requires year >= 1
    ensures var y := year - 1; DaysBeforeYear(year) == y * 365 + y / 4 - y / 100 + y / 400
    decreases year
  {
    if year > 1 {
      DaysBeforeYearFormula(year - 1);
      var y := year - 2;
      QuotientStepBy4(y);
      QuotientStepBy100(y);
      QuotientStepBy400(y);
      LeapYearByMultiples(year - 1);
    }
  }

  /** A year is a leap year exactly when it adds one multiple of 4, takes
      away one of 100 and adds back one of 400, counted as in the formula. */
  lemma LeapYearByMultiples(x: int)
    ensures (if x % 4 == 0 then 1 else 0) - (if x % 100 == 0 then 1 else 0) + (if x % 400 == 0 then 1 else 0)
         == (if IsLeapYear(x) then 1 else 0)
  {
    if x % 400 == 0 {
      var q := x / 400;
      assert x == 100 * (4 * q);
      assert x % 100 == 0;
    }
    if x % 100 == 0 {
      var q := x / 100;
      assert x == 4 * (25 * q);
      assert x % 4 == 0;
    }
  }

  /** Counting the multiples of 4, 100 and 400 up to `y + 1` adds one
      exactly when `y + 1` is such a multiple. */
  lemma QuotientStepBy4(y: int)
    ensures (y + 1) / 4 == y / 4 + (if (y + 1) % 4 == 0 then 1 else 0)
  {
  }

  lemma QuotientStepBy100(y: int)
    ensures (y + 1) / 100 == y / 100 + (if (y + 1) % 100 == 0 then 1 else 0)
  {
  }

  lemma QuotientStepBy400(y: int)
    ensures (y + 1) / 400 == y / 400 + (if (y + 1) % 400 == 0 then 1 else 0)
  {
  }

  /** The last day of a year is day 365 or 366 of it. */
  lemma DaysBeforeDecember(year: int)
    ensures DaysBeforeMonth(year, 12) + DaysInMonth(year, 12) == DaysInYear(year)
  {
  }

  /** Consecutive dates have consecutive ordinals. */
  lemma {:induction false} NextDayOrdinal(d: Date)
    requires Valid(d) && d != LastDate
    ensures Ordinal(NextDay(d)) == Ordinal(d) + 1
  {
    if d.day < DaysInMonth(d.year, d.month) {
    } else if d.month < 12 {
      DaysBeforeMonthStep(d.year, d.month);
    } else {
      DaysBeforeDecember(d.year);
    }
  }

  /** Consecutive dates advance the weekday by one, wrapping Sunday to Monday. */
  lemma {:induction false} WeekdayAdvances(d: Date)
    requires Valid(d) && d != LastDate
    ensures WeekdayOf(NextDay(d)) == (WeekdayOf(d) + 1) % 7
  {
    NextDayOrdinal(d);
    SuccessorMod7(Ordinal(d) + 6);
  }

  lemma SuccessorMod7(x: int)
    ensures (x + 1) % 7 == (x % 7 + 1) % 7
  {
    var q, r := x / 7, x % 7;
    assert x == 7 * q + r && 0 <= r < 7;
    if r < 6 {
      assert x + 1 == 7 * q + (r + 1);
    } else {
      assert x + 1 == 7 * (q + 1) + 0;
    }
  }

  /** Date order: earlier year, or same year and earlier month, or same month
      and earlier day. */
  predicate Before(d: Date, e: Date) {
    || d.year < e.year
    || (d.year == e.year && d.month < e.month)
    || (d.year == e.year && d.month == e.month && d.day < e.day)
  }

  /** Every day of a year lies inside that year's block of ordinals. */
  lemma OrdinalWithinYear(d: Date)
    requires Valid(d)
    ensures DaysBeforeYear(d.year) < Ordinal(d) <= DaysBeforeYear(d.year) + DaysInYear(d.year)
  {
    assert DaysBeforeMonth(d.year, d.month) + DaysInMonth(d.year, d.month) <= DaysInYear(d.year);
  }

  /** A later year starts after every day of an earlier one. */
  lemma {:induction false} DaysBeforeYearMonotone(a: int, b: int)
    requires 1 <= a < b
    ensures DaysBeforeYear(a) + DaysInYear(a) <= DaysBeforeYear(b)
    decreases b - a
  {
    if a + 1 < b {
      DaysBeforeYearMonotone(a + 1, b);
    }
  }

  /** The day count respects date order. */
  lemma OrdinalIncreasing(d: Date, e: Date)
    requires Valid(d) && Valid(e) && Before(d, e)
    ensures Ordinal(d) < Ordinal(e)
  {
    if d.year < e.year {
      OrdinalWithinYear(d);
      OrdinalWithinYear(e);
      DaysBeforeYearMonotone(d.year, e.year);
    } else if d.month < e.month {
      assert DaysBeforeMonth(d.year, d.month) + DaysInMonth(d.year, d.month) <= DaysBeforeMonth(e.year, e.month);
    }
  }

  /** Distinct dates have distinct day counts, so the weekday derived from the
      day count belongs to one date only. */
  lemma OrdinalInjective(d: Date, e: Date)
    requires Valid(d) && Valid(e) && d != e
    ensures Ordinal(d) != Ordinal(e)
  {
    if Before(d, e) {
      OrdinalIncreasing(d, e);
    } else {
      assert Before(e, d);
      OrdinalIncreasing(e, d);
    }
  }

  /** 0001-01-01, day 1 of the count, is a Monday. */
  lemma FirstDayIsMonday()
    ensures WeekdayOf(Date(1, 1, 1)) == 0
  {
  }

  /** 2024-03-15 is a Friday. */
  lemma Friday20240315()
    ensures WeekdayOf(Date(2024, 3, 15)) == 4
  {
    DaysBeforeYearFormula(2024);
    assert 2023 / 4 == 505 && 2023 / 100 == 20 && 2023 / 400 == 5;
    assert DaysBeforeYear(2024) == 738885;
    assert DaysBeforeMonth(2024, 3) == 60;
  }
}
