/** Proleptic Gregorian dates as Python's `datetime.date` keeps them (years 1 to 9999),
    the day count `toordinal` gives them, day-by-day ranges as `pandas.date_range`
    builds them with its default daily frequency, and the `'%Y-%m-%d'` rendering. */
module Calendar {
  import opened Text

  datatype Date = Date(year: int, month: int, day: int)

  predicate IsLeap(year: int) {
    year % 4 == 0 && (year % 100 != 0 || year % 400 == 0)
  }

  function DaysInMonth(year: int, month: int): int
    requires 1 <= month <= 12
  {
    if month == 2 then (if IsLeap(year) then 29 else 28)
    else if month == 4 || month == 6 || month == 9 || month == 11 then 30
    else 31
  }

  function DaysInYear(year: int): int {
    if IsLeap(year) then 366 else 365
  }

  predicate Valid(d: Date) {
    1 <= d.year <= 9999 && 1 <= d.month <= 12 && 1 <= d.day <= DaysInMonth(d.year, d.month)
  }

  const MaxDate: Date := Date(9999, 12, 31)

  /** A `datetime`: a date and the seconds since its midnight. */
  datatype DateTime = DateTime(date: Date, seconds: real)

  predicate ValidTime(t: DateTime) {
    Valid(t.date) && 0.0 <= t.seconds < 86400.0
  }

  /** Days in the years before `year` (Python's `_days_before_year`). */
  function DaysBeforeYear(year: int): int {
    var y := year - 1;
    365 * y + y / 4 - y / 100 + y / 400
  }

  /** Days in the months of `year` before `month`. */
  function DaysBeforeMonth(year: int, month: int): int
    requires 1 <= month <= 12
  {
    var table := [0, 31, 59, 90, 120, 151, 181, 212, 243, 273, 304, 334];
    table[month - 1] + (if month > 2 && IsLeap(year) then 1 else 0)
  }

  /** Day of the year, 1 for January 1st. */
  function DayOfYear(d: Date): (n: int)
    requires Valid(d)
    ensures 1 <= n <= DaysInYear(d.year)
  {
    MonthsFill(d.year, d.month);
    DaysBeforeMonth(d.year, d.month) + d.day
  }

  /** `date.toordinal()`: 1 for 0001-01-01, one more for each following day. */
  function Ordinal(d: Date): int
    requires Valid(d)
  {
    DaysBeforeYear(d.year) + DayOfYear(d)
  }

  /** The month table adds up: each month starts where the previous one ends, and the
      months before `month` together with `month` itself fit in the year. */
  lemma MonthsFill(year: int, month: int)
    requires 1 <= month <= 12
    ensures month < 12 ==>
      DaysBeforeMonth(year, month + 1) == DaysBeforeMonth(year, month) + DaysInMonth(year, month)
    ensures DaysBeforeMonth(year, month) + DaysInMonth(year, month) <= DaysInYear(year)
    ensures month == 12 ==>
      DaysBeforeMonth(year, month) + DaysInMonth(year, month) == DaysInYear(year)
  {
  }

  /** Consecutive years are `DaysInYear` apart. */
  lemma YearsFill(year: int)
    ensures DaysBeforeYear(year + 1) == DaysBeforeYear(year) + DaysInYear(year)
  {
    DivStep(year - 1, 4);
    DivStep(year - 1, 100);
    DivStep(year - 1, 400);
  }

  /** Stepping the numerator by one steps the quotient exactly when it reaches a multiple. */
  lemma DivStep(y: int, k: int)
    requires k == 4 || k == 100 || k == 400
    ensures (y + 1) / k == y / k + (if (y + 1) % k == 0 then 1 else 0)
  {
    var q, r := y / k, y % k;
    assert y == k * q + r && 0 <= r < k;
    if r == k - 1 {
      assert y + 1 == k * (q + 1);
      assert (y + 1) / k == q + 1 && (y + 1) % k == 0;
    } else {
      assert y + 1 == k * q + (r + 1);
      assert (y + 1) / k == q && (y + 1) % k == r + 1;
    }
  }

  /** The day after `d` (`d + timedelta(days=1)`). */
  function NextDay(d: Date): (e: Date)
    requires Valid(d) && d != MaxDate
    ensures Valid(e) && Ordinal(e) == Ordinal(d) + 1
  {
    MonthsFill(d.year, d.month);
    if d.day < DaysInMonth(d.year, d.month) then Date(d.year, d.month, d.day + 1)
    else if d.month < 12 then Date(d.year, d.month + 1, 1)
    else
      YearsFill(d.year);
      Date(d.year + 1, 1, 1)
  }

  /** Later dates have larger ordinals, so the ordinal identifies the date. */
  lemma OrdinalMonotone(a: Date, b: Date)
    requires Valid(a) && Valid(b)
    requires a.year < b.year || (a.year == b.year && a.month < b.month)
      || (a.year == b.year && a.month == b.month && a.day < b.day)
    ensures Ordinal(a) < Ordinal(b)
  {
    MonthsFill(a.year, a.month);
    MonthsFill(b.year, b.month);
    if a.year < b.year {
      YearsBefore(a.year, b.year);
    } else if a.month < b.month {
      MonthsBefore(a.year, a.month, b.month);
    }
  }

  lemma {:induction false} YearsBefore(y: int, z: int)
    requires y < z
    ensures DaysBeforeYear(y) + DaysInYear(y) <= DaysBeforeYear(z)
    decreases z - y
  {
    YearsFill(y);
    if y + 1 < z {
      YearsBefore(y + 1, z);
    }
  }

  lemma {:induction false} MonthsBefore(year: int, m: int, n: int)
    requires 1 <= m < n <= 12
    ensures DaysBeforeMonth(year, m) + DaysInMonth(year, m) <= DaysBeforeMonth(year, n)
    decreases n - m
  {
    MonthsFill(year, m);
    if m + 1 < n {
      MonthsFill(year, m + 1);
      MonthsBefore(year, m + 1, n);
    }
  }

  /** Two valid dates with the same ordinal are the same date. */
  lemma OrdinalInjective(a: Date, b: Date)
    requires Valid(a) && Valid(b) && Ordinal(a) == Ordinal(b)
    ensures a == b
  {
    if a.year < b.year || (a.year == b.year && a.month < b.month)
      || (a.year == b.year && a.month == b.month && a.day < b.day) {
      OrdinalMonotone(a, b);
    } else if b.year < a.year || (a.year == b.year && b.month < a.month)
      || (a.year == b.year && a.month == b.month && b.day < a.day) {
      OrdinalMonotone(b, a);
    }
  }

  lemma OrdinalAtMostMax(d: Date)
    requires Valid(d)
    ensures Ordinal(d) <= Ordinal(MaxDate)
  {
    if d != MaxDate {
      OrdinalMonotone(d, MaxDate);
    }
  }

  /** `n` consecutive days starting at `start`. */
  function DateRange(start: Date, n: nat): (r: seq<Date>)
    requires Valid(start) && Ordinal(start) + n <= Ordinal(MaxDate) + 1
    ensures |r| == n
    ensures forall i :: 0 <= i < n ==> Valid(r[i]) && Ordinal(r[i]) == Ordinal(start) + i
    decreases n
  {
    if n == 0 then []
    else if n == 1 then [start]
    else
      assert start != MaxDate;
      [start] + DateRange(NextDay(start), n - 1)
  }

  /** The dates from `first` to `last`, both included. */
  function DatesBetween(first: Date, last: Date): (r: seq<Date>)
    requires Valid(first) && Valid(last) && Ordinal(first) <= Ordinal(last)
    ensures |r| == Ordinal(last) - Ordinal(first) + 1
    ensures r[0] == first && r[|r| - 1] == last
    ensures forall i :: 0 <= i < |r| ==> Valid(r[i]) && Ordinal(r[i]) == Ordinal(first) + i
  {
    OrdinalAtMostMax(last);
    var r := DateRange(first, Ordinal(last) - Ordinal(first) + 1);
    OrdinalInjective(r[|r| - 1], last);
    r
  }

  /** `strftime('%Y-%m-%d')`. */
  function FormatDate(d: Date): string
    requires Valid(d)
  {
    PadDecimal(d.year, 4) + "-" + PadDecimal(d.month, 2) + "-" + PadDecimal(d.day, 2)
  }
}
